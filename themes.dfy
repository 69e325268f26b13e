/**
 * Theme-specific content selectors and search-bar placement: three
 * constant registries keyed by Sphinx theme name and the lookups over them.
 */
module Themes {
  import opened Wrappers
  import opened Config

  /** Content selectors per theme, in priority order. */
  const ThemeSelectors: map<string, seq<string>> := map[
    "sphinx_rtd_theme" := [".wy-nav-content-wrap", ".wy-nav-content", "[role=main]"],
    "furo" := ["article[role=main]", ".content"],
    "alabaster" := [".body", ".document"],
    "pydata_sphinx_theme" := ["article.bd-article", "main.bd-main", "main.bd-content"],
    "sphinx_book_theme" := ["main#main-content", "article", "article.bd-article"],
    "shibuya" := ["article.yue[role=main]", "article[role=main]", "main.sy-main"]]

  /** Where each theme's search bar goes. */
  const SearchPlacementSelectors: map<string, string> := map[
    "sphinx_rtd_theme" := ".wy-side-nav-search",
    "furo" := ".sidebar-search-container",
    "alabaster" := ".searchbox",
    "pydata_sphinx_theme" := "nav.bd-search",
    "sphinx_book_theme" := ".search-button-field",
    "shibuya" := ".searchbox"]

  const ThemeDefaultContentSelectors: seq<string> :=
    ["article[role=main]", "main", ".body", ".document", "[role=main]"]

  const DefaultSearchPlacement := "#typesense-search"

  const DefaultSearchContainerSelectors: seq<string> := ["#typesense-search", ".search", ".searchbox"]

  /** Everything the extension knows about one theme. */
  datatype ThemeConfig = ThemeConfig(
    name: string,
    contentSelectors: seq<string>,
    searchContainerSelectors: seq<string>,
    searchInputSelector: Option<string>)

  const ThemeConfigs: map<string, ThemeConfig> := map[
    "sphinx_rtd_theme" := ThemeConfig("sphinx_rtd_theme",
      [".wy-nav-content-wrap", ".wy-nav-content", "[role=main]"], [".wy-side-nav-search"], Some("input[name=\"q\"]")),
    "furo" := ThemeConfig("furo",
      ["article[role=main]", ".content"], [".sidebar-search-container"], Some(".search-input")),
    "alabaster" := ThemeConfig("alabaster",
      [".body", ".document"], [".searchbox"], Some("input[name=\"q\"]")),
    "pydata_sphinx_theme" := ThemeConfig("pydata_sphinx_theme",
      ["article.bd-article", "main.bd-content"], ["nav.bd-search", ".bd-search"], Some("input[name=\"q\"]")),
    "sphinx_book_theme" := ThemeConfig("sphinx_book_theme",
      ["main#main-content", "article.bd-article"], [".search-button-field"], Some("input[name=\"q\"]")),
    "shibuya" := ThemeConfig("shibuya",
      ["article.yue[role=main]", "article[role=main]", "main.sy-main"], [".searchbox"], Some("input[name=\"q\"]"))]

  /** Python's `theme_name and theme_name in registry`: `None` and "" are never known. */
  predicate KnownIn<V>(theme: Option<string>, registry: map<string, V>)
  {
    theme.Some? && theme.value != "" && theme.value in registry
  }

  /**
   * `get_content_selectors`: a custom list wins whenever one is given (even
   * an empty one), then the theme's registry entry, then the default list.
   */
  function GetContentSelectors(theme: Option<string>, custom: Option<seq<string>>): (r: seq<string>)
    ensures custom.Some? ==> r == custom.value
    ensures custom.None? && KnownIn(theme, ThemeSelectors) ==> r == ThemeSelectors[theme.value]
    ensures custom.None? && !KnownIn(theme, ThemeSelectors) ==> r == ThemeDefaultContentSelectors
    ensures custom.None? ==> r != []
  {
    if custom.Some? then custom.value
    else if KnownIn(theme, ThemeSelectors) then ThemeSelectors[theme.value]
    else ThemeDefaultContentSelectors
  }

  /** `get_search_placement`. */
  function GetSearchPlacement(theme: Option<string>): (r: string)
    ensures KnownIn(theme, SearchPlacementSelectors) ==> r == SearchPlacementSelectors[theme.value]
    ensures !KnownIn(theme, SearchPlacementSelectors) ==> r == DefaultSearchPlacement
  {
    if KnownIn(theme, SearchPlacementSelectors) then SearchPlacementSelectors[theme.value] else DefaultSearchPlacement
  }

  /** `_get_default_config`: the configuration used for an unknown or missing theme. */
  function DefaultThemeConfig(): (c: ThemeConfig)
    ensures c.name == "default" && c.searchInputSelector.None?
    ensures c.contentSelectors == ThemeDefaultContentSelectors
    ensures c.searchContainerSelectors == DefaultSearchContainerSelectors
  {
    ThemeConfig("default", ThemeDefaultContentSelectors, DefaultSearchContainerSelectors, None)
  }

  /** `get_theme_config`: the registered configuration of the project's theme, or the default one. */
  function GetThemeConfig(s: Settings): (c: ThemeConfig)
    ensures KnownIn(s.htmlTheme, ThemeConfigs) ==> c == ThemeConfigs[s.htmlTheme.value]
    ensures !KnownIn(s.htmlTheme, ThemeConfigs) ==> c == DefaultThemeConfig()
  {
    if KnownIn(s.htmlTheme, ThemeConfigs) then ThemeConfigs[s.htmlTheme.value] else DefaultThemeConfig()
  }

  /**
   * `get_content_selectors_for_app`: the project's list when it is
   * non-empty, theme-based selection otherwise.
   */
  function ContentSelectorsForApp(s: Settings): (r: seq<string>)
    ensures s.contentSelectors != [] ==> r == s.contentSelectors
    ensures s.contentSelectors == [] ==> r == GetContentSelectors(s.htmlTheme, None)
    ensures r != []
  {
    if s.contentSelectors != [] then s.contentSelectors else GetContentSelectors(s.htmlTheme, None)
  }

  /** `get_search_container_selector`. */
  function SearchContainerSelector(s: Settings): (r: string)
    ensures r == GetSearchPlacement(s.htmlTheme)
  {
    GetSearchPlacement(s.htmlTheme)
  }

  /**
   * `should_replace_search`: an explicit setting decides; otherwise a theme
   * that is missing or registered is replaced. The membership test here has
   * no truthiness guard, so a theme of "" is neither missing nor registered.
   */
  function ShouldReplaceSearch(s: Settings): (r: bool)
    ensures s.replaceSearch.Some? ==> r == s.replaceSearch.value
    ensures s.replaceSearch.None? ==> (r <==> s.htmlTheme.None? || s.htmlTheme.value in ThemeConfigs)
  {
    if s.replaceSearch.Some? then s.replaceSearch.value
    else s.htmlTheme.None? || s.htmlTheme.value in ThemeConfigs
  }

  /** Every registered configuration is named after its key and lists some selectors of each kind. */
  lemma ThemeConfigsWellFormed()
    ensures forall k :: k in ThemeConfigs ==>
              ThemeConfigs[k].name == k && ThemeConfigs[k].contentSelectors != [] &&
              ThemeConfigs[k].searchContainerSelectors != [] && ThemeConfigs[k].searchInputSelector.Some?
  {
  }

  /**
   * The three registries cover the same themes, and each theme's first
   * search-container selector is its placement selector.
   */
  lemma RegistriesAgree()
    ensures ThemeSelectors.Keys == SearchPlacementSelectors.Keys == ThemeConfigs.Keys
    ensures forall k :: k in ThemeConfigs ==> ThemeConfigs[k].searchContainerSelectors[0] == SearchPlacementSelectors[k]
  {
  }

  /**
   * The content selectors of the two registries agree everywhere except
   * for the PyData and Book themes, where the flat registry lists one more
   * selector than the configuration.
   */
  lemma ContentRegistriesDiffer()
    ensures forall k :: k in ThemeConfigs && k != "pydata_sphinx_theme" && k != "sphinx_book_theme" ==>
              k in ThemeSelectors && ThemeConfigs[k].contentSelectors == ThemeSelectors[k]
    ensures |ThemeSelectors["pydata_sphinx_theme"]| == |ThemeConfigs["pydata_sphinx_theme"].contentSelectors| + 1
    ensures |ThemeSelectors["sphinx_book_theme"]| == |ThemeConfigs["sphinx_book_theme"].contentSelectors| + 1
  {
  }

  /**
   * For a theme the extension does not know, the search bar goes to the
   * default container, which is also the first default container selector
   * and the project's default `typesense_container`.
   */
  lemma UnknownThemeDefaults(s: Settings)
    requires !KnownIn(s.htmlTheme, ThemeConfigs)
    ensures SearchContainerSelector(s) == DefaultSearchPlacement == GetThemeConfig(s).searchContainerSelectors[0]
    ensures DefaultSearchPlacement == DefaultSettings.container
    ensures s.contentSelectors == [] ==> ContentSelectorsForApp(s) == GetThemeConfig(s).contentSelectors
  {
    RegistriesAgree();
  }
}
