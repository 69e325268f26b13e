/**
 * What the extension adds to every rendered page: the search container,
 * the configuration script of the chosen backend, and the meta tags that
 * carry the same configuration for pages with a strict content policy.
 */
module Templates {
  import opened Wrappers
  import opened Text
  import opened Config
  import opened Scripts

  /** The container id: the configured selector without its leading `#` characters. */
  function ContainerId(container: string): (id: string)
    ensures container != [] && container[0] == '#' ==> id == LStrip(container, '#')
    ensures container == [] || container[0] != '#' ==> id == container
    ensures id == [] || id[0] != '#'
  {
    if container != [] && container[0] == '#' then LStrip(container, '#') else container
  }

  /** Stripping twice changes nothing, and any number of leading `#` give the same id. */
  lemma ContainerIdStable(container: string)
    ensures ContainerId(ContainerId(container)) == ContainerId(container)
    ensures ContainerId("#" + container) == ContainerId(container)
  {
    var c := "#" + container;
    assert c[1..] == container;
  }

  /**
   * `get_search_container_html`: the id attribute never starts with `#`,
   * whatever the configured container.
   */
  function SearchContainerHtml(s: Settings): (html: string)
    ensures html == "<div id=\"" + ContainerId(s.container) + "\"></div>"
    ensures |html| > 9 && html[9] != '#'
  {
    "<div id=\"" + ContainerId(s.container) + "\"></div>"
  }

  const PagefindBasePath := "/_pagefind/"

  /** `get_typesense_config_script`: the port is written as a string. */
  function TypesenseConfigScript(s: Settings): (r: Script)
    ensures r.Assignment? && r.tagged && r.global == TypesenseGlobal
    ensures r.entries == TypesenseEntries(s, JString(s.port))
  {
    Assignment(TypesenseGlobal, TypesenseEntries(s, JString(s.port)), true)
  }

  /** `get_pagefind_config_script`: the index is always looked up under `/_pagefind/`. */
  function PagefindConfigScript(s: Settings): (r: Script)
    ensures r.Assignment? && r.tagged && r.global == PagefindGlobal
    ensures r.entries == PagefindEntries(s, PagefindBasePath)
  {
    Assignment(PagefindGlobal, PagefindEntries(s, PagefindBasePath), true)
  }

  /** `get_config_script`, kept for older callers: the Typesense script whatever the backend. */
  function LegacyConfigScript(s: Settings): (r: Script)
    ensures r == TypesenseConfigScript(s)
  {
    TypesenseConfigScript(s)
  }

  /** The block stored in the page context: the container and, after it, the script. */
  datatype SearchHtml = SearchHtml(containerHtml: string, script: Script)

  /** What `inject_search_assets` stores for a page. */
  function SearchHtmlFor(s: Settings, env: Environment): (h: SearchHtml)
    ensures h.containerHtml == SearchContainerHtml(s)
    ensures EffectiveBackend(s, env) == "typesense" ==> h.script == TypesenseConfigScript(s)
    ensures EffectiveBackend(s, env) != "typesense" ==> h.script == PagefindConfigScript(s)
  {
    var script := if EffectiveBackend(s, env) == "typesense" then TypesenseConfigScript(s) else PagefindConfigScript(s);
    SearchHtml(SearchContainerHtml(s), script)
  }

  /** A `<meta name=… content=…>` entry. */
  datatype MetaTag = MetaTag(name: string, content: string)

  /** A value in a page's template context, as far as the extension cares. */
  datatype ContextValue = SearchBlock(html: SearchHtml) | MetaList(tags: seq<MetaTag>) | OtherValue(repr: string)

  const SearchHtmlKey := "typesense_search_html"
  const MetaTagsKey := "metatags"

  /** The template context of the page being rendered, which the handlers update in place. */
  class PageContext {
    var values: map<string, ContextValue>

    constructor(values: map<string, ContextValue>)
      ensures this.values == values
    {
      this.values := values;
    }
  }

  /** `inject_search_assets`: stores the search block under its key and touches nothing else. */
  method InjectSearchAssets(s: Settings, env: Environment, context: PageContext)
    modifies context
    ensures context.values == old(context.values)[SearchHtmlKey := SearchBlock(SearchHtmlFor(s, env))]
  {
    var backendName := EffectiveBackend(s, env);
    var containerHtml := SearchContainerHtml(s);
    var script := if backendName == "typesense" then TypesenseConfigScript(s) else PagefindConfigScript(s);
    context.values := context.values[SearchHtmlKey := SearchBlock(SearchHtml(containerHtml, script))];
  }

  /**
   * The meta entries for a backend: three common ones, then eight for
   * Typesense or the Pagefind index location for anything else.
   */
  function MetaEntries(s: Settings, backendName: string): (entries: seq<(string, string)>)
    ensures |entries| >= 3
    ensures entries[0] == ("typesense-backend", backendName)
    ensures entries[1] == ("typesense-container", s.container)
    ensures entries[2] == ("typesense-placeholder", s.placeholder)
  {
    var common := [
      ("typesense-backend", backendName),
      ("typesense-container", s.container),
      ("typesense-placeholder", s.placeholder)];
    if backendName == "typesense" then
      common + [
        ("typesense-collection", s.collectionName),
        ("typesense-host", s.host),
        ("typesense-port", s.port),
        ("typesense-protocol", s.protocol),
        ("typesense-api-key", s.searchApiKey),
        ("typesense-num-typos", NumText(s.numTypos)),
        ("typesense-per-page", NumText(s.perPage)),
        ("typesense-filter-by", s.filterBy)]
    else
      common + [("pagefind-base-path", PagefindBasePath)]
  }

  /** Typesense adds exactly eight entries, the search key among them; anything else adds only the index location. */
  lemma MetaEntriesPerBackend(s: Settings, backendName: string, adminKey: string)
    ensures backendName == "typesense" ==>
              |MetaEntries(s, backendName)| == 11 && ("typesense-api-key", s.searchApiKey) in MetaEntries(s, backendName)
    ensures backendName != "typesense" ==> MetaEntries(s, backendName)[3..] == [("pagefind-base-path", PagefindBasePath)]
    ensures MetaEntries(s.(apiKey := adminKey), backendName) == MetaEntries(s, backendName)
  {
    if backendName == "typesense" {
      assert MetaEntries(s, backendName)[7] == ("typesense-api-key", s.searchApiKey);
    }
  }

  /** The tags already in the context, when it holds a list; none otherwise. */
  function ExistingTags(values: map<string, ContextValue>): seq<MetaTag>
  {
    if MetaTagsKey in values && values[MetaTagsKey].MetaList? then values[MetaTagsKey].tags else []
  }

  function TagsOf(entries: seq<(string, string)>): (tags: seq<MetaTag>)
    ensures |tags| == |entries|
    ensures forall i :: 0 <= i < |entries| ==> tags[i] == MetaTag(entries[i].0, entries[i].1)
  {
    if entries == [] then [] else TagsOf(entries[..|entries| - 1]) + [MetaTag(entries[|entries| - 1].0, entries[|entries| - 1].1)]
  }

  /**
   * `add_search_meta_tags`: replaces a missing or non-list `metatags` value
   * by an empty list, then appends one tag per entry after whatever was
   * there. The backend is the one given, or the effective one.
   */
  method AddSearchMetaTags(s: Settings, env: Environment, context: PageContext, backendName: Option<string>)
    modifies context
    ensures var name := if backendName.Some? then backendName.value else EffectiveBackend(s, env);
            context.values == old(context.values)[MetaTagsKey := MetaList(ExistingTags(old(context.values)) + TagsOf(MetaEntries(s, name)))]
  {
    var name := if backendName.Some? then backendName.value else EffectiveBackend(s, env);
    ghost var before := ExistingTags(context.values);
    if MetaTagsKey !in context.values || !context.values[MetaTagsKey].MetaList? {
      context.values := context.values[MetaTagsKey := MetaList([])];
    }
    assert context.values == old(context.values)[MetaTagsKey := MetaList(before)];
    AppendTags(context, MetaEntries(s, name));
  }

  /** The loop of `add_search_meta_tags`: one tag per entry, appended in order. */
  method AppendTags(context: PageContext, entries: seq<(string, string)>)
    requires MetaTagsKey in context.values && context.values[MetaTagsKey].MetaList?
    modifies context
    ensures context.values == old(context.values)[MetaTagsKey := MetaList(old(context.values)[MetaTagsKey].tags + TagsOf(entries))]
  {
    ghost var before := context.values[MetaTagsKey].tags;
    assert before + TagsOf(entries[..0]) == before;
    var i := 0;
    while i < |entries|
      invariant 0 <= i <= |entries|
      invariant context.values == old(context.values)[MetaTagsKey := MetaList(before + TagsOf(entries[..i]))]
    {
      var tags := context.values[MetaTagsKey].tags;
      var tag := MetaTag(entries[i].0, entries[i].1);
      TagsOfSnoc(entries, i);
      AppendAssoc(before, TagsOf(entries[..i]), tag);
      context.values := context.values[MetaTagsKey := MetaList(tags + [tag])];
      i := i + 1;
    }
    assert entries[..i] == entries;
  }

  lemma TagsOfSnoc(entries: seq<(string, string)>, i: nat)
    requires i < |entries|
    ensures TagsOf(entries[..i + 1]) == TagsOf(entries[..i]) + [MetaTag(entries[i].0, entries[i].1)]
  {
    assert entries[..i + 1][..i] == entries[..i];
  }

  lemma AppendAssoc<T>(a: seq<T>, b: seq<T>, x: T)
    ensures (a + b) + [x] == a + (b + [x])
  {
  }

  /** The appended tags keep the earlier tags in front and follow the entries in order. */
  lemma MetaTagsAppendOnly(values: map<string, ContextValue>, s: Settings, name: string)
    ensures var after := ExistingTags(values[MetaTagsKey := MetaList(ExistingTags(values) + TagsOf(MetaEntries(s, name)))]);
            after[..|ExistingTags(values)|] == ExistingTags(values) &&
            |after| == |ExistingTags(values)| + |MetaEntries(s, name)| &&
            after[|ExistingTags(values)|] == MetaTag("typesense-backend", name)
  {
  }
}
