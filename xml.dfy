/** The XML the hub answers with, as the tree ElementTree builds from it.
    Turning text into a tree is not modelled: a document either parsed into a
    root element or was malformed (ElementTree raised ParseError). */
module Xml {
  import opened Wrappers
  import opened PyText

  /** An element: its tag, its text (the text before its first child, None
      when it has none) and its child elements in document order. */
  datatype Element = Element(tag: string, text: Option<string>, children: seq<Element>)

  /** The outcome of `ElementTree.fromstring` on a response body. */
  datatype XmlDoc = Malformed | Parsed(root: Element)

  /** `i` is the position of the first child of `cs` tagged `tag`. */
  ghost predicate FirstWithTag(cs: seq<Element>, tag: string, i: int) {
    0 <= i < |cs| && cs[i].tag == tag && forall k :: 0 <= k < i ==> cs[k].tag != tag
  }

  /** The position of the first child of `cs` tagged `tag`, if any. */
  function FindIndex(cs: seq<Element>, tag: string): (r: Option<nat>)
    ensures r.Some? ==> FirstWithTag(cs, tag, r.value)
    ensures r.None? ==> forall k :: 0 <= k < |cs| ==> cs[k].tag != tag
  {
    if cs == [] then None
    else if cs[0].tag == tag then Some(0)
    else match FindIndex(cs[1..], tag)
      case None => None
      case Some(i) => Some(i + 1)
  }

  /** `element.find(tag)` for a plain tag: the first direct child so tagged. */
  function Find(e: Element, tag: string): (r: Option<Element>)
    ensures r.Some? ==> exists i :: FirstWithTag(e.children, tag, i) && r.value == e.children[i]
    ensures r.None? ==> forall k :: 0 <= k < |e.children| ==> e.children[k].tag != tag
  {
    match FindIndex(e.children, tag)
    case None => None
    case Some(i) => Some(e.children[i])
  }

  /** Python's truth value of `element.text`: present and not empty. */
  predicate HasText(e: Element) {
    e.text.Some? && e.text.value != ""
  }

  /** `safe_find_text(element, tag, default)`: the stripped text of the first
      child tagged `tag`, or `default` when there is no element, no such child,
      or that child's text is None or empty. */
  function SafeFindText(element: Option<Element>, tag: string, default: Option<string>): (r: Option<string>)
    ensures element.None? ==> r == default
    ensures element.Some? && (forall k :: 0 <= k < |element.value.children| ==> element.value.children[k].tag != tag) ==>
              r == default
    ensures element.Some? ==> forall i :: FirstWithTag(element.value.children, tag, i) ==>
              r == (if HasText(element.value.children[i]) then Some(Strip(element.value.children[i].text.value)) else default)
    ensures default.Some? ==> r.Some?
  {
    var found := if element.Some? then Find(element.value, tag) else None;
    if found.Some? && HasText(found.value) then Some(Strip(found.value.text.value)) else default
  }

  /** `safe_find_text` with a string default, which therefore always yields a string. */
  function TextOr(e: Element, tag: string, default: string): (r: string)
    ensures (forall k :: 0 <= k < |e.children| ==> e.children[k].tag != tag) ==> r == default
    ensures forall i :: FirstWithTag(e.children, tag, i) ==>
              r == (if HasText(e.children[i]) then Strip(e.children[i].text.value) else default)
  {
    SafeFindText(Some(e), tag, Some(default)).value
  }

  /** White space alone is text: it strips to "" rather than to the default. */
  lemma WhitespaceOnlyTextIsEmpty(e: Element, tag: string, default: Option<string>, i: nat)
    requires FirstWithTag(e.children, tag, i)
    requires e.children[i].text.Some? && |e.children[i].text.value| > 0
    requires forall k :: 0 <= k < |e.children[i].text.value| ==> IsSpace(e.children[i].text.value[k])
    ensures SafeFindText(Some(e), tag, default) == Some("")
  {
  }
}
