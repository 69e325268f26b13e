/**
 * The search-document record, the per-type ranking table, the anchor
 * resolver and the document factory of the Typesense backend, plus the
 * collection schema those documents are imported into.
 */
module Documents {
  import opened Wrappers
  import opened Text
  import opened Html

  /** The keys the extractor's hierarchy state holds. */
  const LevelKeys: set<string> := {"lvl0", "lvl1", "lvl2", "lvl3"}

  /** The document types the extractor emits. */
  const DocTypes: set<string> := {"lvl0", "lvl1", "lvl2", "lvl3", "content"}

  /** Rank for a type that is in neither table. */
  const DefaultRank := 50

  const DocTypeWeights: map<string, int> :=
    map["lvl0" := 100, "lvl1" := 90, "lvl2" := 80, "lvl3" := 70, "content" := 50]

  const DocTypePriorities: map<string, int> :=
    map["lvl0" := 100, "lvl1" := 90, "lvl2" := 80, "lvl3" := 70, "content" := 50]

  /** `_get_weight`: the table entry for the type, 50 for any other type. */
  function Weight(docType: string): (r: int)
    ensures docType in DocTypeWeights ==> r == DocTypeWeights[docType]
    ensures docType !in DocTypeWeights ==> r == DefaultRank
  {
    if docType in DocTypeWeights then DocTypeWeights[docType] else DefaultRank
  }

  /** `_get_priority`: the table entry for the type, 50 for any other type. */
  function Priority(docType: string): (r: int)
    ensures docType in DocTypePriorities ==> r == DocTypePriorities[docType]
    ensures docType !in DocTypePriorities ==> r == DefaultRank
  {
    if docType in DocTypePriorities then DocTypePriorities[docType] else DefaultRank
  }

  /** The two tables agree on every type, rank higher headings above lower ones and stay within 50..100. */
  lemma RankTable(docType: string)
    ensures Weight(docType) == Priority(docType)
    ensures DefaultRank <= Weight(docType) <= 100
    ensures Weight("lvl0") == 100 && Weight("lvl1") == 90 && Weight("lvl2") == 80
    ensures Weight("lvl3") == 70 && Weight("content") == 50
    ensures docType !in DocTypes ==> Weight(docType) == 50
  {
  }

  /** A flat search document; one field per key of the imported dictionary. */
  datatype SearchDocument = SearchDocument(
    id: string,
    lvl0: string, lvl1: string, lvl2: string, lvl3: string,
    lvl4: string, lvl5: string, lvl6: string,
    content: string,
    url: string,
    urlWithoutAnchor: string,
    anchor: string,
    docType: string,
    version: string,
    language: string,
    weight: int,
    itemPriority: int)

  /**
   * Build-wide inputs of the factory: `typesense_doc_version` and Sphinx's
   * `language` (an unset value is ""), and the document-id hash, which stands
   * for the first 32 hex digits of SHA-256 and is not modelled.
   */
  datatype BuildInfo = BuildInfo(docVersion: string, language: string, hash: string -> string)

  /** `element.get(attr, "")`. */
  function AttrValue(a: Option<string>): string
  {
    if a.Some? then a.value else ""
  }

  predicate IsAnchorWithId(e: Element) { e.tag == "a" && e.id.Some? }
  predicate IsAnchorWithName(e: Element) { e.tag == "a" && e.name.Some? }
  predicate IsSpanWithId(e: Element) { e.tag == "span" && e.id.Some? }

  /**
   * The anchor conventions in order of precedence, each `None` when it does
   * not apply. BeautifulSoup's `find(..., id=True)` matches an attribute that
   * is present whatever its value, so the descendant and spanLabel candidates may
   * be present and empty; the own-id, sibling and section-id candidates count
   * only when non-empty.
   */
  function AnchorCandidates(v: Visit): (cs: seq<Option<string>>)
    ensures |cs| == 6
  {
    var e := v.elem;
    var ownId := if AttrValue(e.id) != "" then Some(e.id.value) else None;
    var childA := Find(e, v.ancestors, IsAnchorWithId);
    var namedA := Find(e, v.ancestors, IsAnchorWithName);
    var sibling :=
      if v.prev.Some? && v.prev.value.tag == "a" && AttrValue(v.prev.value.id) != ""
      then Some(v.prev.value.id.value) else None;
    var s := NearestAncestor(v.ancestors, "section");
    var spanLabel :=
      if s.None? then None
      else
        var span := Find(v.ancestors[s.value], v.ancestors[..s.value], IsSpanWithId);
        if span.Some? then Some(span.value.id.value) else None;
    var sectionId :=
      if s.Some? && AttrValue(v.ancestors[s.value].id) != "" then Some(v.ancestors[s.value].id.value) else None;
    [ ownId,
      if childA.Some? then Some(childA.value.id.value) else None,
      if namedA.Some? then Some(namedA.value.name.value) else None,
      sibling,
      spanLabel,
      sectionId ]
  }

  /** The first candidate that is present, or "". */
  function FirstPresent(cs: seq<Option<string>>): (r: string)
    ensures r != "" ==> exists i :: 0 <= i < |cs| && cs[i] == Some(r)
  {
    if cs == [] then "" else if cs[0].Some? then cs[0].value else FirstPresent(cs[1..])
  }

  /**
   * `_find_anchor`: own id, then the first descendant `a` with an id, then the
   * first descendant `a` with a name, then the previous sibling when it is an
   * `a` with an id, then inside the nearest enclosing `section` the first
   * `span` with an id, else that section's id; otherwise "".
   */
  function FindAnchor(v: Visit): string
  {
    var e := v.elem;
    if AttrValue(e.id) != "" then e.id.value
    else
      var childA := Find(e, v.ancestors, IsAnchorWithId);
      if childA.Some? then childA.value.id.value
      else
        var namedA := Find(e, v.ancestors, IsAnchorWithName);
        if namedA.Some? then namedA.value.name.value
        else if v.prev.Some? && v.prev.value.tag == "a" && AttrValue(v.prev.value.id) != "" then
          v.prev.value.id.value
        else
          var s := NearestAncestor(v.ancestors, "section");
          if s.None? then ""
          else
            var section := v.ancestors[s.value];
            var spanLabel := Find(section, v.ancestors[..s.value], IsSpanWithId);
            if spanLabel.Some? then spanLabel.value.id.value
            else if AttrValue(section.id) != "" then section.id.value
            else ""
  }

  /** `_find_anchor` takes the first convention that applies, in the order `AnchorCandidates` lists them. */
  lemma AnchorPrecedence(v: Visit)
    ensures FindAnchor(v) == FirstPresent(AnchorCandidates(v))
  {
    var cs := AnchorCandidates(v);
    assert FirstPresent(cs[5..]) == if cs[5].Some? then cs[5].value else "" by {
      assert cs[5..][1..] == [];
    }
    forall k | 0 <= k < 5
      ensures FirstPresent(cs[k..]) == if cs[k].Some? then cs[k].value else FirstPresent(cs[k + 1..])
    {
      assert cs[k..][1..] == cs[k + 1..];
    }
  }

  /** An element with a non-empty id of its own resolves to that id, whatever its surroundings. */
  lemma OwnIdWins(v: Visit)
    requires AttrValue(v.elem.id) != ""
    ensures FindAnchor(v) == v.elem.id.value
  {
  }

  /**
   * An element with no id, no `a` descendants, no `a` just before it and no
   * enclosing section gets no anchor: it does not inherit a heading's anchor.
   */
  lemma NoNearbyAnchor(v: Visit)
    requires AttrValue(v.elem.id) == ""
    requires forall w :: w in Descendants(v.elem, v.ancestors) ==> w.elem.tag != "a"
    requires v.prev.None? || v.prev.value.tag != "a"
    requires forall a :: a in v.ancestors ==> a.tag != "section"
    ensures FindAnchor(v) == ""
  {
    var vs := Descendants(v.elem, v.ancestors);
    assert forall j | 0 <= j < |vs| :: vs[j] in vs;
    assert forall j | 0 <= j < |v.ancestors| :: v.ancestors[j] in v.ancestors;
  }

  /**
   * `_create_document`. The hierarchy must hold lvl0..lvl3 (the dictionary
   * lookups raise otherwise); lvl4..lvl6 are read with a "" default.
   */
  function CreateDocument(
    hierarchy: map<string, string>, content: string, urlBase: string,
    v: Visit, docType: string, info: BuildInfo): (d: SearchDocument)
    requires LevelKeys <= hierarchy.Keys
    ensures d.anchor == FindAnchor(v)
    ensures d.anchor != "" ==> d.url == urlBase + "#" + d.anchor
    ensures d.anchor == "" ==> d.url == urlBase
    ensures d.urlWithoutAnchor == urlBase
    ensures d.id == info.hash(d.url + ":" + Prefix(content, 100))
    ensures d.lvl0 == hierarchy["lvl0"] && d.lvl1 == hierarchy["lvl1"]
    ensures d.lvl2 == hierarchy["lvl2"] && d.lvl3 == hierarchy["lvl3"]
    ensures "lvl4" !in hierarchy && "lvl5" !in hierarchy && "lvl6" !in hierarchy ==>
              d.lvl4 == d.lvl5 == d.lvl6 == ""
    ensures d.content == content && d.docType == docType
    ensures d.weight == Weight(docType) && d.itemPriority == Priority(docType)
    ensures d.language != ""
  {
    var anchor := if AttrValue(v.elem.id) != "" then v.elem.id.value else FindAnchor(v);
    var url := if anchor != "" then urlBase + "#" + anchor else urlBase;
    SearchDocument(
      info.hash(url + ":" + Prefix(content, 100)),
      hierarchy["lvl0"], hierarchy["lvl1"], hierarchy["lvl2"], hierarchy["lvl3"],
      if "lvl4" in hierarchy then hierarchy["lvl4"] else "",
      if "lvl5" in hierarchy then hierarchy["lvl5"] else "",
      if "lvl6" in hierarchy then hierarchy["lvl6"] else "",
      content, url, urlBase, anchor, docType,
      info.docVersion,
      if info.language != "" then info.language else "en",
      Weight(docType), Priority(docType))
  }

  /**
   * Two documents built at the same url whose contents share their first
   * 100 characters get the same id, so the later one overwrites the earlier
   * one under upsert.
   */
  lemma IdIgnoresContentBeyond100(
    h: map<string, string>, c1: string, c2: string, urlBase: string,
    v: Visit, t1: string, t2: string, info: BuildInfo)
    requires LevelKeys <= h.Keys
    requires Prefix(c1, 100) == Prefix(c2, 100)
    ensures CreateDocument(h, c1, urlBase, v, t1, info).id == CreateDocument(h, c2, urlBase, v, t2, info).id
  {
  }

  /** One field of the collection schema. */
  datatype Field = Field(name: string, fieldType: string, facet: bool, optional: bool)

  datatype Schema = Schema(name: string, fields: seq<Field>, defaultSortingField: string, tokenSeparators: seq<string>)

  const SchemaFields: seq<Field> := [
    Field("hierarchy.lvl0", "string", true, false),
    Field("hierarchy.lvl1", "string", true, true),
    Field("hierarchy.lvl2", "string", true, true),
    Field("hierarchy.lvl3", "string", true, true),
    Field("hierarchy.lvl4", "string", true, true),
    Field("hierarchy.lvl5", "string", true, true),
    Field("hierarchy.lvl6", "string", true, true),
    Field("content", "string", false, false),
    Field("url", "string", false, false),
    Field("url_without_anchor", "string", true, false),
    Field("anchor", "string", false, true),
    Field("type", "string", true, false),
    Field("version", "string", true, true),
    Field("language", "string", true, true),
    Field("weight", "int32", false, false),
    Field("item_priority", "int64", false, false)
  ]

  /** The keys of every document `CreateDocument` builds, in the order it writes them. */
  const DocumentKeys: seq<string> := [
    "id", "hierarchy.lvl0", "hierarchy.lvl1", "hierarchy.lvl2", "hierarchy.lvl3",
    "hierarchy.lvl4", "hierarchy.lvl5", "hierarchy.lvl6", "content", "url",
    "url_without_anchor", "anchor", "type", "version", "language", "weight", "item_priority"
  ]

  /** `DOCS_SCHEMA` copied with its name replaced by the configured collection name. */
  function SchemaFor(collectionName: string): (s: Schema)
    ensures s.name == collectionName
    ensures |s.fields| == 16
    ensures forall i :: 0 <= i < |s.fields| ==> s.fields[i].name == DocumentKeys[i + 1]
    ensures exists i :: 0 <= i < |s.fields| && s.fields[i].name == s.defaultSortingField && s.fields[i].fieldType == "int64"
  {
    var s := Schema(collectionName, SchemaFields, "item_priority", ["_", "-", "."]);
    assert s.fields[15].name == s.defaultSortingField;
    s
  }
}
