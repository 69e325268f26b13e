/**
 * An abstract element tree standing for a parsed HTML page, and the
 * BeautifulSoup queries the extractor uses on it (`find`, `find_all`,
 * `select_one`, `find_parent`, `find_previous_sibling`).
 */
module Html {
  import opened Wrappers

  /**
   * One element. `id` and `name` are `None` when the attribute is absent
   * (an attribute that is present may still be ""). `text` is the element's
   * text with whitespace stripped, as `get_text(strip=True)` returns it.
   */
  datatype Element = Element(
    tag: string,
    id: Option<string>,
    name: Option<string>,
    text: string,
    children: seq<Element>)

  /**
   * An element met during a document-order walk, with its ancestors
   * (outermost first, parent last) and its immediately preceding sibling.
   */
  datatype Visit = Visit(elem: Element, ancestors: seq<Element>, prev: Option<Element>)

  /** `e` followed by all its descendants, in document (depth-first pre-) order. */
  function Subtree(e: Element, ancestors: seq<Element>, prev: Option<Element>): (r: seq<Visit>)
    ensures |r| >= 1 && r[0] == Visit(e, ancestors, prev)
    decreases e
  {
    [Visit(e, ancestors, prev)] + Forest(e.children, ancestors + [e], None)
  }

  /** The subtrees of a run of siblings, in order; `prev` is the sibling before `cs[0]`. */
  function Forest(cs: seq<Element>, ancestors: seq<Element>, prev: Option<Element>): seq<Visit>
    decreases cs
  {
    if cs == [] then [] else Subtree(cs[0], ancestors, prev) + Forest(cs[1..], ancestors, Some(cs[0]))
  }

  /** Every descendant of `e` (not `e` itself), in document order; `above` are `e`'s ancestors. */
  function Descendants(e: Element, above: seq<Element>): seq<Visit>
  {
    Forest(e.children, above + [e], None)
  }

  /** The position of the first visit whose element satisfies `p`. */
  function FirstIndex(vs: seq<Visit>, p: Element -> bool): (r: Option<nat>)
    ensures r.Some? ==> r.value < |vs| && p(vs[r.value].elem)
    ensures r.Some? ==> forall j :: 0 <= j < r.value ==> !p(vs[j].elem)
    ensures r.None? ==> forall j :: 0 <= j < |vs| ==> !p(vs[j].elem)
  {
    if vs == [] then None
    else if p(vs[0].elem) then Some(0)
    else
      var rest := FirstIndex(vs[1..], p);
      if rest.Some? then Some(rest.value + 1) else None
  }

  /** `Tag.find`: the first descendant of `e` satisfying `p`, in document order. */
  function Find(e: Element, above: seq<Element>, p: Element -> bool): Option<Element>
  {
    var vs := Descendants(e, above);
    var i := FirstIndex(vs, p);
    if i.Some? then Some(vs[i.value].elem) else None
  }

  /** `Tag.find_all`: the descendants of `e` whose tag is in `tags`, in document order. */
  function FindAll(e: Element, above: seq<Element>, tags: set<string>): seq<Visit>
  {
    Filter(Descendants(e, above), tags)
  }

  function Filter(vs: seq<Visit>, tags: set<string>): (r: seq<Visit>)
    ensures forall w :: w in r ==> w in vs && w.elem.tag in tags
    ensures forall w :: w in vs && w.elem.tag in tags ==> w in r
  {
    if vs == [] then []
    else if vs[0].elem.tag in tags then [vs[0]] + Filter(vs[1..], tags)
    else Filter(vs[1..], tags)
  }

  /** `Tag.find_parent(tag)`: the position in `ancestors` of the nearest one with that tag. */
  function NearestAncestor(ancestors: seq<Element>, tag: string): (r: Option<nat>)
    ensures r.Some? ==> r.value < |ancestors| && ancestors[r.value].tag == tag
    ensures r.Some? ==> forall j :: r.value < j < |ancestors| ==> ancestors[j].tag != tag
    ensures r.None? ==> forall j :: 0 <= j < |ancestors| ==> ancestors[j].tag != tag
  {
    if ancestors == [] then None
    else if ancestors[|ancestors| - 1].tag == tag then Some(|ancestors| - 1)
    else NearestAncestor(ancestors[..|ancestors| - 1], tag)
  }

  /**
   * `soup.select_one(selector)`: the first element of the document, in
   * document order, that the selector matches. Selector syntax is not
   * modelled: `matches` decides whether a selector matches an element.
   */
  function SelectOne(root: Element, selector: string, matches: (string, Element) -> bool): Option<Visit>
  {
    var vs := Descendants(root, []);
    var i := FirstIndex(vs, e => matches(selector, e));
    if i.Some? then Some(vs[i.value]) else None
  }
}
