/**
 * The page walk of the Typesense backend: locating the content root, the
 * four-slot heading-hierarchy state machine, and the documents one page
 * yields. The loop itself is `TypesenseBackend.Backend.ExtractDocuments`;
 * the functions here are its specification.
 */
module Extraction {
  import opened Wrappers
  import opened Html
  import opened Documents

  /** The tags `find_all` collects. */
  const WalkedTags: set<string> := {"h1", "h2", "h3", "h4", "p", "li"}

  /** The hierarchy state at the start of every page. */
  const InitialHierarchy: map<string, string> := map["lvl0" := "", "lvl1" := "", "lvl2" := "", "lvl3" := ""]

  /** The backend's own content selectors, used when none are configured. */
  const FallbackSelectors: seq<string> :=
    [".wy-nav-content-wrap", "article.bd-article", ".body", "article[role=main]", "main"]

  /** h1..h4 are levels 0..3; every other tag is not a heading (-1). */
  function HeadingLevel(tag: string): (k: int)
    ensures -1 <= k <= 3
  {
    if tag == "h1" then 0 else if tag == "h2" then 1 else if tag == "h3" then 2 else if tag == "h4" then 3 else -1
  }

  function LevelKey(k: nat): (key: string)
    requires k < 4
    ensures key in LevelKeys
  {
    ["lvl0", "lvl1", "lvl2", "lvl3"][k]
  }

  /** The document type a heading of level `k` emits. */
  function HeadingType(k: nat): string
    requires k < 4
  {
    LevelKey(k)
  }

  /**
   * The state change one walked element causes: a heading with text sets
   * its level and clears the levels below it; anything else, and any element
   * whose text is empty, leaves the state as it is.
   */
  function Update(h: map<string, string>, e: Element): (r: map<string, string>)
    ensures LevelKeys <= h.Keys ==> r.Keys == h.Keys
    ensures e.text == "" || HeadingLevel(e.tag) < 0 ==> r == h
  {
    if e.text == "" then h
    else if e.tag == "h1" then h["lvl0" := e.text]["lvl1" := ""]["lvl2" := ""]["lvl3" := ""]
    else if e.tag == "h2" then h["lvl1" := e.text]["lvl2" := ""]["lvl3" := ""]
    else if e.tag == "h3" then h["lvl2" := e.text]["lvl3" := ""]
    else if e.tag == "h4" then h["lvl3" := e.text]
    else h
  }

  /** The documents one walked element yields, given the state after its update. */
  function Emitted(h: map<string, string>, v: Visit, urlBase: string, info: BuildInfo): (r: seq<SearchDocument>)
    requires LevelKeys <= h.Keys
    ensures |r| == if v.elem.text != "" && v.elem.tag in WalkedTags then 1 else 0
  {
    var e := v.elem;
    var k := HeadingLevel(e.tag);
    if e.text == "" then []
    else if k >= 0 then [CreateDocument(h, "", urlBase, v, HeadingType(k), info)]
    else if e.tag == "p" || e.tag == "li" then [CreateDocument(h, e.text, urlBase, v, "content", info)]
    else []
  }

  /** The hierarchy state after walking `vs`. */
  function HierarchyAfter(vs: seq<Visit>): (h: map<string, string>)
    ensures h.Keys == LevelKeys
  {
    if vs == [] then InitialHierarchy
    else Update(HierarchyAfter(vs[..|vs| - 1]), vs[|vs| - 1].elem)
  }

  /** The documents yielded while walking `vs`, in order. */
  function DocumentsOf(vs: seq<Visit>, urlBase: string, info: BuildInfo): seq<SearchDocument>
  {
    if vs == [] then []
    else DocumentsOf(vs[..|vs| - 1], urlBase, info) + Emitted(HierarchyAfter(vs), vs[|vs| - 1], urlBase, info)
  }

  /**
   * Reference definition of level `k` of the state, independent of the update
   * rule: looking back from the end, the text of the latest non-empty heading
   * of level `k`, unless a non-empty heading of a higher level (or none at
   * all) comes first, in which case "".
   */
  function LatestHeading(vs: seq<Visit>, k: nat): string
    requires k < 4
  {
    if vs == [] then ""
    else
      var e := vs[|vs| - 1].elem;
      var level := HeadingLevel(e.tag);
      if e.text != "" && 0 <= level <= k then (if level == k then e.text else "")
      else LatestHeading(vs[..|vs| - 1], k)
  }

  /** The state always holds, at every level, the latest heading not superseded by a higher one. */
  lemma {:induction false} HierarchyIsLatestHeading(vs: seq<Visit>, k: nat)
    requires k < 4
    ensures HierarchyAfter(vs)[LevelKey(k)] == LatestHeading(vs, k)
  {
    if vs != [] {
      HierarchyIsLatestHeading(vs[..|vs| - 1], k);
    }
  }

  /** Walking one more element: its update, then what it yields under the updated state. */
  lemma WalkStep(vs: seq<Visit>, i: nat, urlBase: string, info: BuildInfo)
    requires i < |vs|
    ensures HierarchyAfter(vs[..i + 1]) == Update(HierarchyAfter(vs[..i]), vs[i].elem)
    ensures DocumentsOf(vs[..i + 1], urlBase, info) ==
            DocumentsOf(vs[..i], urlBase, info) + Emitted(HierarchyAfter(vs[..i + 1]), vs[i], urlBase, info)
  {
    assert vs[..i + 1][..i] == vs[..i];
  }

  /** What `Emitted` yields, tag by tag. */
  lemma EmittedByTag(h: map<string, string>, v: Visit, urlBase: string, info: BuildInfo)
    requires LevelKeys <= h.Keys
    ensures var e := v.elem;
            && (e.text == "" ==> Emitted(h, v, urlBase, info) == [])
            && (e.text != "" && e.tag == "h1" ==> Emitted(h, v, urlBase, info) == [CreateDocument(h, "", urlBase, v, "lvl0", info)])
            && (e.text != "" && e.tag == "h2" ==> Emitted(h, v, urlBase, info) == [CreateDocument(h, "", urlBase, v, "lvl1", info)])
            && (e.text != "" && e.tag == "h3" ==> Emitted(h, v, urlBase, info) == [CreateDocument(h, "", urlBase, v, "lvl2", info)])
            && (e.text != "" && e.tag == "h4" ==> Emitted(h, v, urlBase, info) == [CreateDocument(h, "", urlBase, v, "lvl3", info)])
            && (e.text != "" && (e.tag == "p" || e.tag == "li") ==>
                  Emitted(h, v, urlBase, info) == [CreateDocument(h, e.text, urlBase, v, "content", info)])
  {
  }

  /** An element with empty text neither yields a document nor changes the state. */
  lemma SkipEmpty(vs: seq<Visit>, v: Visit, urlBase: string, info: BuildInfo)
    requires v.elem.text == ""
    ensures HierarchyAfter(vs + [v]) == HierarchyAfter(vs)
    ensures DocumentsOf(vs + [v], urlBase, info) == DocumentsOf(vs, urlBase, info)
  {
    assert (vs + [v])[..|vs|] == vs;
  }

  /** What every emitted document satisfies. */
  ghost predicate WellFormed(d: SearchDocument, urlBase: string)
  {
    && d.lvl4 == "" && d.lvl5 == "" && d.lvl6 == ""
    && d.docType in DocTypes
    && (d.docType == "content" <==> d.content != "")
    && (d.docType == "lvl0" ==> d.lvl0 != "" && d.lvl1 == "" && d.lvl2 == "" && d.lvl3 == "")
    && (d.docType == "lvl1" ==> d.lvl1 != "" && d.lvl2 == "" && d.lvl3 == "")
    && (d.docType == "lvl2" ==> d.lvl2 != "" && d.lvl3 == "")
    && (d.docType == "lvl3" ==> d.lvl3 != "")
    && d.weight == d.itemPriority == Weight(d.docType)
    && d.urlWithoutAnchor == urlBase
  }

  /**
   * Every document has empty lvl4..lvl6, a known type, content exactly when
   * it is a paragraph or list item, its own heading text at its level with
   * every lower level cleared, and the rank of its type.
   */
  lemma {:induction false} DocumentsWellFormed(vs: seq<Visit>, urlBase: string, info: BuildInfo)
    ensures forall d :: d in DocumentsOf(vs, urlBase, info) ==> WellFormed(d, urlBase)
  {
    if vs != [] {
      var init := vs[..|vs| - 1];
      DocumentsWellFormed(init, urlBase, info);
      EmittedWellFormed(HierarchyAfter(init), vs[|vs| - 1], urlBase, info);
    }
  }

  /** What one element yields, under the state its own update produced, is well formed. */
  lemma EmittedWellFormed(prev: map<string, string>, v: Visit, urlBase: string, info: BuildInfo)
    requires prev.Keys == LevelKeys
    ensures forall d :: d in Emitted(Update(prev, v.elem), v, urlBase, info) ==> WellFormed(d, urlBase)
  {
    var e := v.elem;
    if e.text != "" && HeadingLevel(e.tag) >= 0 {
      HeadingWellFormed(prev, v, urlBase, info);
    } else if e.text != "" && (e.tag == "p" || e.tag == "li") {
      ParagraphWellFormed(prev, v, urlBase, info);
    }
  }

  /** A heading's document carries its own text at its level and clears every lower one. */
  lemma HeadingWellFormed(prev: map<string, string>, v: Visit, urlBase: string, info: BuildInfo)
    requires prev.Keys == LevelKeys && v.elem.text != "" && HeadingLevel(v.elem.tag) >= 0
    ensures forall d :: d in Emitted(Update(prev, v.elem), v, urlBase, info) ==> WellFormed(d, urlBase)
  {
    var h := Update(prev, v.elem);
    EmittedByTag(h, v, urlBase, info);
    RankTable(HeadingType(HeadingLevel(v.elem.tag)));
  }

  /** A paragraph or list item yields a content document with its text. */
  lemma ParagraphWellFormed(prev: map<string, string>, v: Visit, urlBase: string, info: BuildInfo)
    requires prev.Keys == LevelKeys && v.elem.text != "" && (v.elem.tag == "p" || v.elem.tag == "li")
    ensures forall d :: d in Emitted(Update(prev, v.elem), v, urlBase, info) ==> WellFormed(d, urlBase)
  {
    var h := Update(prev, v.elem);
    EmittedByTag(h, v, urlBase, info);
    RankTable("content");
  }

  function CountNonEmpty(vs: seq<Visit>): nat
  {
    if vs == [] then 0 else CountNonEmpty(vs[..|vs| - 1]) + (if vs[|vs| - 1].elem.text != "" then 1 else 0)
  }

  /** Among walked tags, every element with text yields exactly one document. */
  lemma {:induction false} OneDocumentPerElement(vs: seq<Visit>, urlBase: string, info: BuildInfo)
    requires forall w :: w in vs ==> w.elem.tag in WalkedTags
    ensures |DocumentsOf(vs, urlBase, info)| == CountNonEmpty(vs)
  {
    if vs != [] {
      var init := vs[..|vs| - 1];
      assert forall w :: w in init ==> w in vs;
      OneDocumentPerElement(init, urlBase, info);
      assert vs[|vs| - 1] in vs;
      assert |Emitted(HierarchyAfter(vs), vs[|vs| - 1], urlBase, info)| == if vs[|vs| - 1].elem.text != "" then 1 else 0;
    }
  }

  /** `typesense_content_selectors or [fallback list]`. */
  function ContentSelectors(configured: seq<string>): (r: seq<string>)
    ensures r != []
    ensures configured != [] ==> r == configured
  {
    if configured != [] then configured else FallbackSelectors
  }

  /** `_get_content_element`: the first selector that matches anything decides the content root. */
  function ContentElement(root: Element, selectors: seq<string>, matches: (string, Element) -> bool): (r: Option<Visit>)
  {
    if selectors == [] then None
    else
      var found := SelectOne(root, selectors[0], matches);
      if found.Some? then found else ContentElement(root, selectors[1..], matches)
  }

  /** The content root is what the first selector with a match selects, and none means no selector matched. */
  lemma {:induction false} ContentElementFirstMatch(root: Element, selectors: seq<string>, matches: (string, Element) -> bool)
    ensures var r := ContentElement(root, selectors, matches);
            r.None? <==> forall i :: 0 <= i < |selectors| ==> SelectOne(root, selectors[i], matches).None?
    ensures var r := ContentElement(root, selectors, matches);
            r.Some? ==> exists i :: 0 <= i < |selectors| && r == SelectOne(root, selectors[i], matches) &&
                          forall j :: 0 <= j < i ==> SelectOne(root, selectors[j], matches).None?
  {
    if selectors != [] && SelectOne(root, selectors[0], matches).None? {
      ContentElementFirstMatch(root, selectors[1..], matches);
      assert forall i :: 1 <= i < |selectors| ==> selectors[1..][i - 1] == selectors[i];
      var r := ContentElement(root, selectors, matches);
      if r.Some? {
        var i :| 0 <= i < |selectors[1..]| && r == SelectOne(root, selectors[1..][i], matches) &&
                 forall j :: 0 <= j < i ==> SelectOne(root, selectors[1..][j], matches).None?;
        assert r == SelectOne(root, selectors[i + 1], matches);
        assert forall j :: 0 <= j < i + 1 ==> SelectOne(root, selectors[j], matches).None?;
      }
    }
  }

  datatype HtmlFile = HtmlFile(urlBase: string, parsed: Option<Element>)

  /** The elements `find_all` visits in the content root of a file (none when there is no root). */
  function WalkedElements(file: HtmlFile, selectors: seq<string>, matches: (string, Element) -> bool): (vs: seq<Visit>)
    ensures forall w :: w in vs ==> w.elem.tag in WalkedTags
  {
    if file.parsed.None? then []
    else
      var content := ContentElement(file.parsed.value, selectors, matches);
      if content.None? then [] else FindAll(content.value.elem, content.value.ancestors, WalkedTags)
  }

  /** `_extract_documents` as a whole: what one file contributes to the import. */
  function PageDocuments(file: HtmlFile, selectors: seq<string>, matches: (string, Element) -> bool, info: BuildInfo): seq<SearchDocument>
  {
    DocumentsOf(WalkedElements(file, selectors, matches), file.urlBase, info)
  }

  /** What a run over many files accumulates, in file order. */
  function SiteDocuments(files: seq<HtmlFile>, selectors: seq<string>, matches: (string, Element) -> bool, info: BuildInfo): seq<SearchDocument>
  {
    if files == [] then []
    else SiteDocuments(files[..|files| - 1], selectors, matches, info) + PageDocuments(files[|files| - 1], selectors, matches, info)
  }

  /** The page of the worked example below: `guide.html` whose `main` holds `<h1 id="x">Install</h1><p>Steps here</p>`. */
  const GuideH1 := Element("h1", Some("x"), None, "Install", [])
  const GuideP := Element("p", None, None, "Steps here", [])
  const GuideMain := Element("main", None, None, "InstallSteps here", [GuideH1, GuideP])
  const GuideRoot := Element("[document]", None, None, "InstallSteps here", [GuideMain])
  const GuideFile := HtmlFile("guide.html", Some(GuideRoot))

  /** A selector that matches by tag name only, enough for the example. */
  const TagSelector: (string, Element) -> bool := (s, e: Element) => s == e.tag

  lemma GuideTree()
    ensures Descendants(GuideMain, [GuideRoot]) ==
              [Visit(GuideH1, [GuideRoot, GuideMain], None), Visit(GuideP, [GuideRoot, GuideMain], Some(GuideH1))]
    ensures Descendants(GuideRoot, []) ==
              [Visit(GuideMain, [GuideRoot], None), Visit(GuideH1, [GuideRoot, GuideMain], None),
               Visit(GuideP, [GuideRoot, GuideMain], Some(GuideH1))]
  {
    var vm := Visit(GuideMain, [GuideRoot], None);
    var vh := Visit(GuideH1, [GuideRoot, GuideMain], None);
    var vp := Visit(GuideP, [GuideRoot, GuideMain], Some(GuideH1));
    var above := [GuideRoot, GuideMain];
    assert [GuideRoot] + [GuideMain] == above;
    assert [] + [GuideRoot] == [GuideRoot];
    assert Subtree(GuideP, above, Some(GuideH1)) == [vp];
    assert Forest([GuideP], above, Some(GuideH1)) == [vp];
    assert Subtree(GuideH1, above, None) == [vh];
    assert [GuideH1, GuideP][1..] == [GuideP];
    assert Forest([GuideH1, GuideP], above, None) == [vh, vp];
    assert Subtree(GuideMain, [GuideRoot], None) == [vm, vh, vp];
    assert Forest([GuideMain], [GuideRoot], None) == [vm, vh, vp];
  }

  lemma GuideContentRoot()
    ensures ContentElement(GuideRoot, ContentSelectors([]), TagSelector) == Some(Visit(GuideMain, [GuideRoot], None))
  {
    GuideTree();
    var all := Descendants(GuideRoot, []);
    var found := Some(Visit(GuideMain, [GuideRoot], None));
    var fs := FallbackSelectors;
    assert SelectOne(GuideRoot, "main", TagSelector) == found;
    forall i | 0 <= i < 4
      ensures SelectOne(GuideRoot, fs[i], TagSelector).None?
    {
      assert forall j | 0 <= j < |all| :: !TagSelector(fs[i], all[j].elem);
    }
    assert fs[3..][1..] == fs[4..] && fs[2..][1..] == fs[3..] && fs[1..][1..] == fs[2..];
    assert ContentElement(GuideRoot, fs[4..], TagSelector) == found;
    assert ContentElement(GuideRoot, fs[3..], TagSelector) == found;
    assert ContentElement(GuideRoot, fs[2..], TagSelector) == found;
    assert ContentElement(GuideRoot, fs[1..], TagSelector) == found;
  }

  lemma GuideWalk()
    ensures WalkedElements(GuideFile, ContentSelectors([]), TagSelector) ==
              [Visit(GuideH1, [GuideRoot, GuideMain], None), Visit(GuideP, [GuideRoot, GuideMain], Some(GuideH1))]
  {
    GuideContentRoot();
    GuideTree();
    var vh := Visit(GuideH1, [GuideRoot, GuideMain], None);
    var vp := Visit(GuideP, [GuideRoot, GuideMain], Some(GuideH1));
    assert [vh, vp][1..] == [vp];
    assert Filter([vp], WalkedTags) == [vp];
    assert Filter([vh, vp], WalkedTags) == [vh, vp];
  }

  const GuideHeadingVisit := Visit(GuideH1, [GuideRoot, GuideMain], None)
  const GuideParagraphVisit := Visit(GuideP, [GuideRoot, GuideMain], Some(GuideH1))

  lemma GuideHierarchy()
    ensures HierarchyAfter([GuideHeadingVisit])["lvl0"] == "Install"
    ensures HierarchyAfter([GuideHeadingVisit, GuideParagraphVisit]) == HierarchyAfter([GuideHeadingVisit])
  {
    assert [GuideHeadingVisit, GuideParagraphVisit][..1] == [GuideHeadingVisit];
    assert [GuideHeadingVisit][..0] == [];
  }

  lemma GuideAnchors()
    ensures FindAnchor(GuideHeadingVisit) == "x"
    ensures FindAnchor(GuideParagraphVisit) == ""
  {
    OwnIdWins(GuideHeadingVisit);
    assert Descendants(GuideP, GuideParagraphVisit.ancestors) == [];
    NoNearbyAnchor(GuideParagraphVisit);
  }

  lemma GuideDocuments(info: BuildInfo)
    ensures
      var h := HierarchyAfter([GuideHeadingVisit]);
      PageDocuments(GuideFile, ContentSelectors([]), TagSelector, info) ==
        [CreateDocument(h, "", "guide.html", GuideHeadingVisit, "lvl0", info),
         CreateDocument(h, "Steps here", "guide.html", GuideParagraphVisit, "content", info)]
  {
    GuideWalk();
    GuideHierarchy();
    var vh, vp := GuideHeadingVisit, GuideParagraphVisit;
    var h := HierarchyAfter([vh]);
    assert [vh, vp][..1] == [vh];
    assert [vh][..0] == [];
    assert DocumentsOf([vh], "guide.html", info) == [CreateDocument(h, "", "guide.html", vh, "lvl0", info)];
  }

  /**
   * The example page yields exactly two documents. The paragraph has no id,
   * no anchor inside it, no anchor just before it and no enclosing section,
   * so its url carries no anchor: it does not inherit the heading's `#x`.
   */
  lemma GuidePageScenario(info: BuildInfo)
    ensures
      var docs := PageDocuments(GuideFile, ContentSelectors([]), TagSelector, info);
      && |docs| == 2
      && docs[0].docType == "lvl0" && docs[0].lvl0 == "Install" && docs[0].content == ""
      && docs[0].anchor == "x" && docs[0].url == "guide.html#x" && docs[0].weight == 100
      && docs[1].docType == "content" && docs[1].content == "Steps here" && docs[1].lvl0 == "Install"
      && docs[1].anchor == "" && docs[1].url == "guide.html" && docs[1].weight == 50
  {
    GuideDocuments(info);
    GuideHeadingDocument(info);
    GuideParagraphDocument(info);
  }

  /** The heading's document: its own id is the anchor. */
  lemma GuideHeadingDocument(info: BuildInfo)
    ensures var d := CreateDocument(HierarchyAfter([GuideHeadingVisit]), "", "guide.html", GuideHeadingVisit, "lvl0", info);
            d.docType == "lvl0" && d.lvl0 == "Install" && d.content == "" &&
            d.anchor == "x" && d.url == "guide.html#x" && d.weight == 100
  {
    GuideHierarchy();
    GuideAnchors();
    RankTable("lvl0");
  }

  /** The paragraph's document: no anchor anywhere near it, so the bare page url. */
  lemma GuideParagraphDocument(info: BuildInfo)
    ensures var d := CreateDocument(HierarchyAfter([GuideHeadingVisit]), "Steps here", "guide.html", GuideParagraphVisit, "content", info);
            d.docType == "content" && d.content == "Steps here" && d.lvl0 == "Install" &&
            d.anchor == "" && d.url == "guide.html" && d.weight == 50
  {
    GuideHierarchy();
    GuideAnchors();
    RankTable("content");
  }
}
