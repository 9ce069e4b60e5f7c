/** The slice of the browser that the popup controller touches: optional values,
    JavaScript truthiness of attribute strings, String.prototype.indexOf, the
    elements it inspects, the events it receives, window measurements, and the
    document body whose classes and inline styles it changes in place. */
module Dom {

  /** A JavaScript value that may be null or undefined. */
  datatype Option<+T> = None | Some(value: T)

  /** `s` used as a condition in JavaScript: null, undefined and "" are falsy. */
  predicate Truthy(s: Option<string>)
  {
    s.Some? && s.value != ""
  }

  /** The JavaScript expression `s || fallback` for an attribute read. */
  function OrElse(s: Option<string>, fallback: string): (r: string)
    ensures Truthy(s) ==> r == s.value
    ensures !Truthy(s) ==> r == fallback
    ensures fallback != "" ==> r != ""
  {
    if Truthy(s) then s.value else fallback
  }

  /** `sub` occurs in `s` starting at index `i`. */
  predicate OccursAt(s: string, sub: string, i: int)
  {
    0 <= i && i + |sub| <= |s| && s[i..i + |sub|] == sub
  }

  lemma OccursAtTail(s: string, sub: string, i: int)
    requires |s| > 0 && 1 <= i
    ensures OccursAt(s, sub, i) <==> OccursAt(s[1..], sub, i - 1)
  {
  }

  /** String.prototype.indexOf: the first index at which `sub` occurs in `s`,
      or -1 when it occurs nowhere. */
  function IndexOf(s: string, sub: string): (r: int)
    ensures r == -1 || OccursAt(s, sub, r)
    ensures r == -1 ==> forall i :: 0 <= i ==> !OccursAt(s, sub, i)
    ensures r != -1 ==> forall i :: 0 <= i < r ==> !OccursAt(s, sub, i)
    decreases |s|
  {
    if |s| < |sub| then -1
    else if s[..|sub|] == sub then 0
    else
      var k := IndexOf(s[1..], sub);
      assert forall i :: 1 <= i ==> (OccursAt(s, sub, i) <==> OccursAt(s[1..], sub, i - 1)) by {
        forall i | 1 <= i ensures OccursAt(s, sub, i) <==> OccursAt(s[1..], sub, i - 1) {
          OccursAtTail(s, sub, i);
        }
      }
      if k == -1 then -1 else k + 1
  }

  /** An element, reduced to what the controller reads from it: an identity,
      its tag name, its `data-action` attribute, its `href` attribute and its
      `text` property (present on anchors, absent (undefined) on most other
      elements). */
  datatype Element = Element(
    id: nat,
    tagName: string,
    action: Option<string>,
    href: Option<string>,
    text: Option<string>)

  datatype EventKind = Click | KeyDown | SubmitEnd

  /** A DOM event as the controller sees it: its type, the key code of a key
      event, whether its target is the controller's element or lies inside it,
      the `detail.success` flag of a form-submission-ended event, and whether
      its target is a form or lies inside one. */
  datatype Event = Event(
    kind: EventKind,
    keyCode: int,
    targetInside: bool,
    success: bool,
    enclosingForm: bool)

  /** Window measurements taken when the scroll is locked: `window.innerWidth`,
      `document.documentElement.clientWidth`, `window.pageYOffset` and
      `document.body.scrollTop`. */
  datatype Window = Window(
    innerWidth: int,
    clientWidth: int,
    pageYOffset: int,
    bodyScrollTop: int)

  /** A snapshot of the document body: its class list, its inline
      `padding-right` and `top` (in pixels, None when unset), and the scroll
      offset of the document element. */
  datatype Body = Body(
    classes: set<string>,
    paddingRight: Option<int>,
    top: Option<int>,
    scrollTop: int)

  /** The page whose body every popup on it locks and unlocks in place. */
  class Page {
    var bodyClasses: set<string>
    var bodyPaddingRight: Option<int>
    var bodyTop: Option<int>
    var scrollTop: int

    function Snapshot(): Body
      reads this
    {
      Body(bodyClasses, bodyPaddingRight, bodyTop, scrollTop)
    }

    constructor (b: Body)
      ensures Snapshot() == b
    {
      bodyClasses, bodyPaddingRight, bodyTop, scrollTop := b.classes, b.paddingRight, b.top, b.scrollTop;
    }
  }
}
