/** The auto-advancing capture guide of `Business`: every tick of the timer
    moves the highlight to the next of the five guide steps, marking the one
    it leaves as completed, and after the last step starts over with nothing
    completed. One tick is one atomic state transition; the timer itself is
    not modelled. */
module GuideStepper {

  /** The number of entries of the guide (Prepare, Position, Frame, Light, Capture). */
  const GuideStepCount: nat := 5

  /** `activeStep` and `completedSteps`, in the order they were appended. */
  datatype Guide = Guide(active: nat, completed: seq<nat>)

  /** The state on mount. */
  const Start: Guide := Guide(0, [])

  /** One timer tick: advance and record the step left, or, from the last
      step (or beyond it), start over. */
  function Tick(g: Guide): (r: Guide)
    ensures r.active < GuideStepCount
    ensures g.active < GuideStepCount - 1 ==> r.active == g.active + 1 && r.completed == g.completed + [g.active]
    ensures g.active >= GuideStepCount - 1 ==> r == Start
  {
    if g.active < GuideStepCount - 1 then Guide(g.active + 1, g.completed + [g.active])
    else Start
  }

  /** `n` ticks in a row. */
  function Ticks(g: Guide, n: nat): Guide
    decreases n
  {
    if n == 0 then g else Ticks(Tick(g), n - 1)
  }

  /** The steps before `n`, in order: `[0, 1, ..., n - 1]`. */
  function Below(n: nat): (s: seq<nat>)
    ensures |s| == n && forall i :: 0 <= i < n ==> s[i] == i
  {
    seq(n, i requires 0 <= i < n => i)
  }

  /** The invariant of the guide: the active step is in range and exactly
      the steps before it are completed, in order. */
  predicate Consistent(g: Guide) {
    g.active < GuideStepCount && g.completed == Below(g.active)
  }

  lemma StartConsistent()
    ensures Consistent(Start)
  {
  }

  /** A tick keeps the guide consistent. */
  lemma TickConsistent(g: Guide)
    requires Consistent(g)
    ensures Consistent(Tick(g))
  {
    if g.active < GuideStepCount - 1 {
      assert Below(g.active) + [g.active] == Below(g.active + 1);
    }
  }

  /** Every state the timer can reach from mount is consistent. */
  lemma {:induction false} ReachableConsistent(g: Guide, n: nat)
    requires Consistent(g)
    ensures Consistent(Ticks(g, n))
    decreases n
  {
    if n > 0 {
      TickConsistent(g);
      ReachableConsistent(Tick(g), n - 1);
    }
  }

  /** What a guide entry shows: `isActive` and `isCompleted`. */
  predicate IsActive(g: Guide, index: nat) {
    index == g.active
  }

  predicate IsCompleted(g: Guide, index: nat) {
    index in g.completed
  }

  /** In a consistent guide an entry is completed exactly when it lies
      before the active one, so no entry is both active and completed. */
  lemma CompletedIffBefore(g: Guide, index: nat)
    requires Consistent(g)
    ensures IsCompleted(g, index) <==> index < g.active
    ensures !(IsActive(g, index) && IsCompleted(g, index))
  {
    if index < g.active {
      assert g.completed[index] == index;
    }
  }

  /** Ticks compose. */
  lemma {:induction false} TicksAdd(g: Guide, m: nat, n: nat)
    ensures Ticks(g, m + n) == Ticks(Ticks(g, m), n)
    decreases m
  {
    if m > 0 {
      TicksAdd(Tick(g), m - 1, n);
    }
  }

  /** Below the last step, ticks only advance. */
  lemma {:induction false} TicksAdvance(a: nat, m: nat)
    requires a + m < GuideStepCount
    ensures Ticks(Guide(a, Below(a)), m) == Guide(a + m, Below(a + m))
    decreases m
  {
    if m > 0 {
      assert Below(a) + [a] == Below(a + 1);
      TicksAdvance(a + 1, m - 1);
    }
  }

  /** The guide is periodic: five ticks bring every consistent state back. */
  lemma CycleReturns(g: Guide)
    requires Consistent(g)
    ensures Ticks(g, GuideStepCount) == g
  {
    var a := g.active;
    var last := GuideStepCount - 1;
    TicksAdd(g, last - a, 1 + a);
    TicksAdvance(a, last - a);
    assert Ticks(g, last - a) == Guide(last, Below(last));
    TicksAdd(Guide(last, Below(last)), 1, a);
    assert Ticks(Guide(last, Below(last)), 1) == Start;
    TicksAdvance(0, a);
    assert Below(0) == [];
  }
}
