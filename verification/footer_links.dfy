/** The footer's link handler (`Footer.handleLinkClick`) and the configured
    footer links. A link is classified by its prefix, checked in the order
    `mailto:`, `#`, `/`; the page's pathname and what the document's
    selector query gives for an anchor are inputs. */
module FooterLinks {

  predicate StartsWith(s: string, prefix: string) {
    |prefix| <= |s| && s[..|prefix|] == prefix
  }

  datatype LinkKind = Mail | Anchor | Route | External

  /** Which branch of the handler a link takes. */
  function Classify(link: string): (kind: LinkKind)
    ensures kind == Mail <==> StartsWith(link, "mailto:")
    ensures kind == Anchor <==> !StartsWith(link, "mailto:") && StartsWith(link, "#")
    ensures kind == Route <==> !StartsWith(link, "mailto:") && !StartsWith(link, "#") && StartsWith(link, "/")
    ensures kind == External <==> !StartsWith(link, "mailto:") && !StartsWith(link, "#") && !StartsWith(link, "/")
  {
    if StartsWith(link, "mailto:") then Mail
    else if StartsWith(link, "#") then Anchor
    else if StartsWith(link, "/") then Route
    else External
  }

  /** What a click does: open a new window, push a route, scroll to an
      element, nothing, or throw out of the handler. */
  datatype Effect = OpenWindow(url: string) | Push(path: string) | ScrollTo(selector: string) | NoOp | Throws

  /** What `document.querySelector(link)` gives on the current page: an
      element, `null`, or a `SyntaxError` because `link` is not a valid
      selector (`"#"` or `"#1abc"`, say). */
  datatype Query = Found | Missing | Invalid

  /** `handleLinkClick(link)` on the page at `pathname`, where `query` is
      what `document.querySelector(link)` does in the current document. */
  function HandleLinkClick(link: string, pathname: string, query: Query): (effect: Effect)
    ensures Classify(link) == Mail ==> effect == OpenWindow(link)
    ensures Classify(link) == Anchor && pathname != "/" ==> effect == Push("/" + link)
    ensures Classify(link) == Anchor && pathname == "/" ==>
              effect == match query { case Found => ScrollTo(link) case Missing => NoOp case Invalid => Throws }
    ensures Classify(link) == Route ==> effect == Push(link)
    ensures Classify(link) == External ==> effect == OpenWindow(link)
    ensures effect == Throws <==> Classify(link) == Anchor && pathname == "/" && query == Invalid
  {
    match Classify(link)
    case Mail => OpenWindow(link)
    case Anchor =>
      if pathname != "/" then Push("/" + link)
      else (
        match query
        case Found => ScrollTo(link)
        case Missing => NoOp
        case Invalid => Throws)
    case Route => Push(link)
    case External => OpenWindow(link)
  }

  /** The pathname matters only for anchors, and the document only for
      anchors on the home page. */
  lemma ContextOnlyMattersForAnchors(link: string, p: string, q: string, e: Query, f: Query)
    ensures Classify(link) != Anchor ==> HandleLinkClick(link, p, e) == HandleLinkClick(link, q, f)
    ensures p != "/" && q != "/" ==> HandleLinkClick(link, p, e) == HandleLinkClick(link, q, f)
  {
  }

  /** Every navigation the handler makes goes to an absolute path, so the
      router never sees a relative one. */
  lemma PushesAbsolutePaths(link: string, pathname: string, query: Query)
    ensures HandleLinkClick(link, pathname, query).Push? ==>
              StartsWith(HandleLinkClick(link, pathname, query).path, "/")
  {
    var effect := HandleLinkClick(link, pathname, query);
    if effect.Push? && Classify(link) == Anchor {
      assert ("/" + link)[..1] == "/";
    }
  }

  /** A `mailto:` link never starts with `#` or `/`, so the order of the
      checks decides nothing for it; a link cannot be both an anchor and a
      route. */
  lemma PrefixesExclusive(link: string)
    ensures StartsWith(link, "mailto:") ==> !StartsWith(link, "#") && !StartsWith(link, "/")
    ensures StartsWith(link, "#") ==> !StartsWith(link, "/")
  {
    if StartsWith(link, "mailto:") {
      assert link[0] == 'm';
    }
  }

  datatype FooterLink = FooterLink(name: string, link: string)

  datatype FooterColumn = FooterColumn(title: string, links: seq<FooterLink>)

  const Mailbox: string := "mailto:tymarbeit@gmail.com?subject="

  /** The footer columns as configured. */
  const Columns: seq<FooterColumn> := [
    FooterColumn("Useful Links", [
      FooterLink("How it Works", "#features"),
      FooterLink("Features", "#features"),
      FooterLink("Updates", "#updates"),
      FooterLink("Privacy Policy", "/privacy"),
      FooterLink("Terms of Service", "/terms"),
      FooterLink("About Us", "/about")]),
    FooterColumn("Support", [
      FooterLink("Help Center", Mailbox + "Help%20Request%20-%20Pneumonia%20Detection%20App"),
      FooterLink("Contact Us", Mailbox + "Contact%20-%20Pneumonia%20Detection%20App"),
      FooterLink("Report Bug", Mailbox + "Bug%20Report%20-%20Pneumonia%20Detection%20App"),
      FooterLink("Feature Request", Mailbox + "Feature%20Request%20-%20Pneumonia%20Detection%20App"),
      FooterLink("Feedback", Mailbox + "Feedback%20-%20Pneumonia%20Detection%20App")]),
    FooterColumn("Partners", [
      FooterLink("Our Partners", "#clients"),
      FooterLink("Become a Partner", Mailbox + "Partnership%20Inquiry%20-%20Pneumonia%20Detection%20App"),
      FooterLink("API Access", Mailbox + "API%20Access%20Request%20-%20Pneumonia%20Detection%20App"),
      FooterLink("Integration", Mailbox + "Integration%20Request%20-%20Pneumonia%20Detection%20App")])
  ]

  lemma MailboxIsMail(subject: string)
    ensures Classify(Mailbox + subject) == Mail
  {
    assert (Mailbox + subject)[..7] == "mailto:";
  }

  /** Every link of a column is in the page, a route or a mail link. */
  predicate NotExternal(column: FooterColumn) {
    forall l :: 0 <= l < |column.links| ==> Classify(column.links[l].link) != External
  }

  /** The "Useful Links" column holds only in-page anchors and routes. */
  lemma UsefulLinksInternal()
    ensures forall l :: 0 <= l < |Columns[0].links| ==>
              Classify(Columns[0].links[l].link) == Anchor || Classify(Columns[0].links[l].link) == Route
    ensures NotExternal(Columns[0])
  {
    var links := Columns[0].links;
    forall l | 0 <= l < |links|
      ensures Classify(links[l].link) == Anchor || Classify(links[l].link) == Route
    {
      assert links[l].link[0] == '#' || links[l].link[0] == '/';
    }
  }

  /** The "Support" column holds only mail links. */
  lemma SupportLinksInternal()
    ensures forall l :: 0 <= l < |Columns[1].links| ==> Classify(Columns[1].links[l].link) == Mail
    ensures NotExternal(Columns[1])
  {
    MailboxIsMail("Help%20Request%20-%20Pneumonia%20Detection%20App");
    MailboxIsMail("Contact%20-%20Pneumonia%20Detection%20App");
    MailboxIsMail("Bug%20Report%20-%20Pneumonia%20Detection%20App");
    MailboxIsMail("Feature%20Request%20-%20Pneumonia%20Detection%20App");
    MailboxIsMail("Feedback%20-%20Pneumonia%20Detection%20App");
  }

  /** The "Partners" column holds one anchor, first, and then mail links. */
  lemma PartnerLinksInternal()
    ensures Classify(Columns[2].links[0].link) == Anchor
    ensures forall l :: 1 <= l < |Columns[2].links| ==> Classify(Columns[2].links[l].link) == Mail
    ensures NotExternal(Columns[2])
  {
    assert Columns[2].links[0].link[0] == '#';
    MailboxIsMail("Partnership%20Inquiry%20-%20Pneumonia%20Detection%20App");
    MailboxIsMail("API%20Access%20Request%20-%20Pneumonia%20Detection%20App");
    MailboxIsMail("Integration%20Request%20-%20Pneumonia%20Detection%20App");
  }

  predicate NameStart(ch: char) {
    'a' <= ch <= 'z' || 'A' <= ch <= 'Z' || ch == '_'
  }

  predicate NameChar(ch: char) {
    NameStart(ch) || '0' <= ch <= '9' || ch == '-'
  }

  /** `#` followed by a plain CSS identifier: a letter or `_`, then letters,
      digits, `-` and `_`. Selectors of this form are valid CSS. */
  predicate PlainIdSelector(link: string) {
    |link| >= 2 && link[0] == '#' && NameStart(link[1])
    && forall k :: 2 <= k < |link| ==> NameChar(link[k])
  }

  /** What the browser's selector parser guarantees: a query for a valid
      selector finds an element or gives `null`, it does not throw. */
  predicate Conforms(link: string, query: Query) {
    PlainIdSelector(link) ==> query != Invalid
  }

  /** On the home page an anchor throws exactly when its query is invalid,
      no other link throws there, and a plain id selector whose query
      behaves as the browser's does not throw at all. */
  lemma ThrowsOnlyForInvalidSelectors(link: string, query: Query)
    ensures Classify(link) == Anchor ==> (HandleLinkClick(link, "/", query) == Throws <==> query == Invalid)
    ensures Classify(link) != Anchor ==> HandleLinkClick(link, "/", query) != Throws
    ensures PlainIdSelector(link) && Conforms(link, query) ==> HandleLinkClick(link, "/", query) != Throws
  {
  }

  /** Every configured anchor is a plain id selector. */
  lemma ConfiguredAnchorsArePlain()
    ensures forall c, l :: 0 <= c < |Columns| && 0 <= l < |Columns[c].links| ==>
              (Classify(Columns[c].links[l].link) == Anchor ==> PlainIdSelector(Columns[c].links[l].link))
  {
    UsefulLinksInternal();
    SupportLinksInternal();
    PartnerLinksInternal();
    SectionAnchorsPlain();
    var useful := Columns[0].links;
    forall l | 3 <= l < |useful|
      ensures Classify(useful[l].link) == Route
    {
      assert useful[l].link[0] == '/';
    }
  }

  /** No configured footer link throws, on any page, as long as the
      document's selector query behaves as the browser's does. */
  lemma ConfiguredFooterNeverThrows(c: nat, l: nat, pathname: string, query: Query)
    requires c < |Columns| && l < |Columns[c].links|
    requires Conforms(Columns[c].links[l].link, query)
    ensures HandleLinkClick(Columns[c].links[l].link, pathname, query) != Throws
  {
    ConfiguredAnchorsArePlain();
  }

  /** The three section anchors the footer links to. */
  lemma SectionAnchorsPlain()
    ensures PlainIdSelector("#features") && PlainIdSelector("#updates") && PlainIdSelector("#clients")
  {
    assert "#features"[1] == 'f' && "#updates"[1] == 'u' && "#clients"[1] == 'c';
  }

  /** No configured footer link takes the external branch: each is an
      anchor, a route or a mail link. */
  lemma NoConfiguredLinkIsExternal()
    ensures forall c :: 0 <= c < |Columns| ==> NotExternal(Columns[c])
  {
    UsefulLinksInternal();
    SupportLinksInternal();
    PartnerLinksInternal();
  }
}
