/** The extension's content script: on a `GET_PROFILE` message it reads
    three fields of the page and replies with them and the page URL. */
module ContentScript {

  import opened Wrappers

  /** An element of the page: the selectors it matches and its rendered text. */
  datatype Element = Element(selectors: set<string>, innerText: string)

  /** A page, its elements in document order. */
  type Document = seq<Element>

  const NameSelector := "h1"
  const RoleSelector := ".text-body-medium"
  const CompanySelector := ".pv-text-details__right-panel-item-text"
  const GetProfile := "GET_PROFILE"

  /** `document.querySelector(selector)`: the position of the first element
      in document order that matches, if any. */
  function QuerySelector(doc: Document, selector: string): (r: Option<nat>)
    ensures r.Some? ==> r.value < |doc| && selector in doc[r.value].selectors
    ensures r.Some? ==> forall j | 0 <= j < r.value :: selector !in doc[j].selectors
    ensures r.None? <==> forall j | 0 <= j < |doc| :: selector !in doc[j].selectors
  {
    if doc == [] then None
    else if selector in doc[0].selectors then Some(0)
    else match QuerySelector(doc[1..], selector)
      case Some(i) => Some(i + 1)
      case None => None
  }

  /** `querySelector(selector)?.innerText || ""`: the text of the first
      match, or "" when nothing matches. */
  function TextOf(doc: Document, selector: string): string
  {
    match QuerySelector(doc, selector)
    case Some(i) => doc[i].innerText
    case None => ""
  }

  /** The reply: exactly these four fields (no skills). */
  datatype PageProfile = PageProfile(fullName: string, role: string, company: string, url: string)

  /** A runtime message; `kind` is its `type` when that is a string. */
  datatype Message = Message(kind: Option<string>)

  /** The listener body: `None` when it returns without replying. */
  function OnMessage(req: Message, doc: Document, href: string): Option<PageProfile>
  {
    if req.kind == Some(GetProfile) then
      Some(PageProfile(TextOf(doc, NameSelector), TextOf(doc, RoleSelector), TextOf(doc, CompanySelector), href))
    else None
  }

  // ---- properties ----

  /** The listener replies exactly to `GET_PROFILE`, and the reply's URL is
      the page location. */
  lemma RepliesOnlyToGetProfile(req: Message, doc: Document, href: string)
    ensures OnMessage(req, doc, href).Some? <==> req.kind == Some(GetProfile)
    ensures OnMessage(req, doc, href).Some? ==> OnMessage(req, doc, href).value.url == href
  {
  }

  /** A field is the untrimmed text of the first element matching its
      selector: any element before it does not match. */
  lemma TextOfFirstMatch(doc: Document, selector: string, i: nat)
    requires i < |doc| && selector in doc[i].selectors
    requires forall j | 0 <= j < i :: selector !in doc[j].selectors
    ensures TextOf(doc, selector) == doc[i].innerText
  {
    var r := QuerySelector(doc, selector);
    assert r.Some?;
    assert !(r.value < i);
    assert !(r.value > i);
  }

  /** A selector nothing matches yields "", never an error. */
  lemma TextOfNoMatch(doc: Document, selector: string)
    requires forall j | 0 <= j < |doc| :: selector !in doc[j].selectors
    ensures TextOf(doc, selector) == ""
  {
  }

  /** On a page without any of the three elements every field is "". */
  lemma EmptyPageProfile(doc: Document, href: string)
    requires forall j | 0 <= j < |doc| ::
      NameSelector !in doc[j].selectors && RoleSelector !in doc[j].selectors &&
      CompanySelector !in doc[j].selectors
    ensures OnMessage(Message(Some(GetProfile)), doc, href) == Some(PageProfile("", "", "", href))
  {
    TextOfNoMatch(doc, NameSelector);
    TextOfNoMatch(doc, RoleSelector);
    TextOfNoMatch(doc, CompanySelector);
  }

  /** Only the first match counts: elements after it do not change the field. */
  lemma {:induction false} TextOfIgnoresLaterElements(doc: Document, more: Document, selector: string)
    requires exists j | 0 <= j < |doc| :: selector in doc[j].selectors
    ensures TextOf(doc + more, selector) == TextOf(doc, selector)
  {
    if selector in doc[0].selectors {
      assert (doc + more)[0] == doc[0];
    } else {
      assert (doc + more)[1..] == doc[1..] + more;
      var j :| 0 <= j < |doc| && selector in doc[j].selectors;
      assert j > 0 && selector in doc[1..][j - 1].selectors;
      TextOfIgnoresLaterElements(doc[1..], more, selector);
      QuerySelectorShift(doc, selector);
      QuerySelectorShift(doc + more, selector);
    }
  }

  /** When the first element does not match, the query continues one element on. */
  lemma QuerySelectorShift(doc: Document, selector: string)
    requires doc != [] && selector !in doc[0].selectors
    ensures TextOf(doc, selector) == TextOf(doc[1..], selector)
  {
  }
}
