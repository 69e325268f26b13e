# sphinx-typesense in Dafny

A model of the core of sphinx-typesense, a Sphinx extension that adds search to
a documentation site and proofs about that model. The extension has two
backends:

- **Typesense.** After the build, the extension walks every HTML page and turns
  each heading, paragraph and list item into a search document with a four-level
  heading hierarchy, an anchor, a url and a rank. It then imports the documents
  into a Typesense collection in one bulk request. Before indexing it probes the
  server up to three times with a growing backoff, and it caches the verdict.
- **Pagefind.** The extension finds a way to run the Pagefind command, runs it
  over the build output, and reads the number of indexed pages from what it
  prints.

Around the backends the model covers:

- the `typesense_*` configuration, how the `auto` backend is resolved, and the
  validation run when the configuration is initialised;
- the theme registries that choose content selectors and the search-bar
  placement;
- the HTML, scripts, meta tags and static assets added to pages;
- the two build-finished handlers: the current one, and the older one kept for
  compatibility.

## Modules

- `wrappers.dfy` (module `Wrappers`): `Option`, and `Outcome` (pass, or fail with an error).
- `text.dfy` (module `Text`): digits, whitespace, ASCII case folding, numerals, `lstrip`, `strip` and `int()`.
- `settings.dfy` (module `Config`): settings, backend resolution, every validation check, and the `SphinxConfig` object that validation updates in place.
- `themes.dfy` (module `Themes`): the three theme registries and their lookups.
- `html.dfy` (module `Html`): an abstract element tree with the BeautifulSoup queries the extractor uses.
- `documents.dfy` (module `Documents`): the search document, the rank tables, the anchor resolver, the document factory and the collection schema.
- `extraction.dfy` (module `Extraction`): the specification of the page walk: content root, the hierarchy state machine, and the documents a page and a site yield.
- `scripts.dfy` (module `Scripts`): the browser configuration objects as key/value entries.
- `templates.dfy` (module `Templates`): the search container, the config scripts, and the `PageContext` class whose `values` map the handlers update.
- `base.dfy` (module `Base`): the `SearchBackend` defaults.
- `typesense.dfy` (module `Typesense`): the `Backend` class: client cache, connection check with retries, collection set-up, extraction loops and bulk import.
- `pagefind.dfy` (module `Pagefind`): the page-count scanner, command discovery, and the `PagefindBackend` class.
- `extension.dfy` (module `Extension`): `get_backend`, the written config file, static assets, and the build-finished handler.
- `indexer.dfy` (module `Indexer`): the older build-finished handler and its error categories.

### How the outside world is modelled

- **The Typesense server** is a `Server` value. It gives the probe answer for
  each attempt, and the outcome of drop, create and import.
- **Requests and sleeps** the `Backend` makes are appended to a ghost `trace`.
- **Pagefind's host** is a `Host` value. It says whether the build directory
  exists, which tools are installed, and how a command line ends.
- **Commands** the `PagefindBackend` starts are appended to a ghost `commands`
  log.
- **Two other inputs are parameters:**
  - selector matching: `matches(selector, element)`;
  - the document-id hash, which stands for SHA-256.
- **The build-finished handler** returns the list of its observable steps:
  - the config file written;
  - the availability check;
  - the indexing call;
  - how it ends: normally, with the `ValueError` of a non-integer port, or with
    an escaping exception.

Where the project's prose description and the code disagree, the model follows
the code:

- **Anchors.** A paragraph with no own or nearby anchor gets the anchor "" and
  the bare page url. It does not inherit the preceding heading's anchor
  (`Extraction.GuidePageScenario`).
- **Fallback selectors.** The backend falls back to its own hard-coded selector
  list (`src/sphinx_typesense/backends/typesense.py:508-514`), not to the theme
  registry's default list.

## Model

| member | source | states |
|---|---|---|
| Config.EffectiveBackend | src/sphinx_typesense/config.py:87-111 | `auto` becomes `typesense` exactly when an admin key is set in the project or the environment, else `pagefind`; any other value, valid or not, is returned unchanged |
| Config.ValidateBackend | src/sphinx_typesense/config.py:259-281 | fails exactly when the backend is not `auto`, `typesense` or `pagefind`, and the error names the value |
| Config.ValidateProtocol | src/sphinx_typesense/config.py:318-340 | fails exactly when the protocol is not `http` or `https`, naming it |
| Config.ValidateNumericSettings | src/sphinx_typesense/config.py:362-398 | passes exactly when `num_typos` is an integer in 0..2 and `per_page` an integer ≥ 1 (booleans count as 0 and 1); a bad typo count is reported before a bad page size |
| Config.KeySecurityWarning | src/sphinx_typesense/config.py:343-359 | the warning is issued exactly when the admin key is non-empty and equals the search key; it is a flag, never an error |
| Config.ResolveKey | src/sphinx_typesense/config.py:188-189 | the project's key when it is non-empty, the environment's otherwise |
| Config.Resolved | src/sphinx_typesense/config.py:206-208 | the write-back changes only the two keys, to their resolved values |
| Config.AbsenteesComplete | src/sphinx_typesense/config.py:297-308 | every required value found empty is reported |
| Config.AbsenteesSound | src/sphinx_typesense/config.py:297-308 | only values found empty are reported |
| Config.AbsenteesOrdered | src/sphinx_typesense/config.py:297-308 | the report keeps the checking order |
| Config.RequiredCheckFailsIffEmpty | src/sphinx_typesense/config.py:284-313 | the required-settings check fails exactly when host, port, protocol, admin key or search key is empty |
| Config.MissingSettingsExact | src/sphinx_typesense/config.py:297-313 | each of the five names is in the error exactly when its value is empty, and the error lists them in the order host, port, protocol, admin key, search key |
| Config.ValidateRequiredSettings | src/sphinx_typesense/config.py:284-313 | the loop that appends one missing name per check gives the verdict that `RequiredCheckFailsIffEmpty` and `MissingSettingsExact` characterise |
| Config.ResolvedBackendAgrees | src/sphinx_typesense/config.py:206-211 | writing the resolved keys back does not change which backend is chosen, even if the environment is later empty |
| Config.DisabledIndexingChecksOnlyBackend | src/sphinx_typesense/config.py:230-233 | with indexing disabled only the backend name is validated |
| Config.PagefindChecksProtocolAndNumbers | src/sphinx_typesense/config.py:235-242 | with Pagefind, validation passes exactly when protocol and numeric settings are valid, and never complains about missing keys |
| Config.TypesenseRequiresSearchKey | src/sphinx_typesense/config.py:244-245 | with Typesense chosen, a search key empty in both project and environment is a missing-settings error |
| Config.AcceptedMeansUsable | src/sphinx_typesense/config.py:158-256 | a configuration accepted with indexing on has a valid backend, protocol and numeric settings, and, for Typesense, both resolved keys |
| Config.DefaultsValidate | src/sphinx_typesense/config.py:54-61 | the registered defaults with no key anywhere select Pagefind and pass validation |
| Config.SphinxConfig.ValidateConfig | src/sphinx_typesense/config.py:158-256 | the verdict is `ValidationVerdict`; the keys are written back only after the backend check passes; the identical-keys warning is logged exactly when the backend check passes, indexing is on, Typesense is chosen, the required and protocol checks pass and the resolved keys are equal and non-empty |
| Themes.GetContentSelectors | src/sphinx_typesense/themes.py:164-205 | a custom list wins whenever given (even empty), then the known theme's entry, then the five default selectors; without a custom list the result is non-empty |
| Themes.GetSearchPlacement | src/sphinx_typesense/themes.py:208-233 | the registered placement for a known theme, `#typesense-search` otherwise |
| Themes.DefaultThemeConfig | src/sphinx_typesense/themes.py:273-286 | the configuration named `default` with the default content and container selectors and no input selector |
| Themes.GetThemeConfig | src/sphinx_typesense/themes.py:241-270 | the registered configuration for a known (non-empty) theme, the default one otherwise |
| Themes.ContentSelectorsForApp | src/sphinx_typesense/themes.py:289-313 | the project's list when non-empty, theme-based selection otherwise; never empty |
| Themes.SearchContainerSelector | src/sphinx_typesense/themes.py:316-330 | is the theme's search placement |
| Themes.ShouldReplaceSearch | src/sphinx_typesense/themes.py:333-363 | an explicit setting decides; otherwise true exactly when the theme is missing or registered ("" is neither) |
| Themes.ThemeConfigsWellFormed | src/sphinx_typesense/themes.py:119-156 | every registered configuration is named after its key and has content selectors, container selectors and an input selector |
| Themes.RegistriesAgree | src/sphinx_typesense/themes.py:50-156 | the three registries cover the same six themes, and each theme's first container selector is its placement selector |
| Themes.ContentRegistriesDiffer | src/sphinx_typesense/themes.py:50-156 | the two content-selector registries agree except for the PyData and Book themes, where the flat one lists one selector more |
| Themes.UnknownThemeDefaults | src/sphinx_typesense/themes.py:273-286 | for an unknown theme the placement, the first default container selector and the default `typesense_container` coincide |
| Text.ParseInt | src/sphinx_typesense/__init__.py:109 | a value exactly when, after stripping surrounding whitespace, the string is decimal digits with at most one leading sign; the digits' value, negated after `-`; none for a blank string |
| Text.ParseIntRoundTrip | src/sphinx_typesense/__init__.py:109 | `int()` reads back what `str()` writes for any integer |
| Text.PortStrings | src/sphinx_typesense/__init__.py:109 | `" 8108 "` is read as 8108; `"80a"`, `"8108.0"`, `"+"` and `"1 2"` are rejected |
| Text.NumeralRoundTrip | src/sphinx_typesense/backends/pagefind.py:214-216 | reading a written numeral back gives the number |
| Text.LStrip | src/sphinx_typesense/templates.py:107 | drops exactly the leading run of the character |
| Text.Prefix | src/sphinx_typesense/backends/typesense.py:476 | `s[:n]`: a prefix of at most n characters, all of `s` when shorter |
| Html.FirstIndex | src/sphinx_typesense/backends/typesense.py:562-568 | the position of the first element in document order satisfying the test, with none before it |
| Html.Filter | src/sphinx_typesense/backends/typesense.py:419 | `find_all` keeps exactly the visits with a listed tag |
| Html.NearestAncestor | src/sphinx_typesense/backends/typesense.py:579 | `find_parent`: the nearest enclosing element with the tag, none when there is none |
| Documents.Weight | src/sphinx_typesense/backends/typesense.py:591-601 | the table entry for the type, 50 for any other |
| Documents.Priority | src/sphinx_typesense/backends/typesense.py:603-613 | the table entry for the type, 50 for any other |
| Documents.RankTable | src/sphinx_typesense/backends/typesense.py:96-111 | weight and priority agree; lvl0..lvl3 and content rank 100, 90, 80, 70, 50; every rank is within 50..100 |
| Documents.AnchorPrecedence | src/sphinx_typesense/backends/typesense.py:556-589 | the anchor is the first present of: own id, first descendant `a` with id, first descendant `a` with name, previous sibling `a` with id, first `span` with id in the nearest section, that section's id; else "" |
| Documents.OwnIdWins | src/sphinx_typesense/backends/typesense.py:556-559 | a non-empty own id is the anchor whatever surrounds the element |
| Documents.NoNearbyAnchor | src/sphinx_typesense/backends/typesense.py:544-589 | no id, no `a` inside or just before, and no enclosing section give the anchor "" |
| Documents.CreateDocument | src/sphinx_typesense/backends/typesense.py:451-496 | url is `url_base#anchor` exactly when the anchor is non-empty, else `url_base`; `url_without_anchor` is `url_base`; lvl0..lvl3 come from the state and lvl4..lvl6 are ""; id hashes url and the first 100 content characters; rank from the tables; language never empty |
| Documents.IdIgnoresContentBeyond100 | src/sphinx_typesense/backends/typesense.py:476 | two documents at one url whose contents share their first 100 characters get the same id |
| Documents.SchemaFor | src/sphinx_typesense/backends/typesense.py:66-92 | the schema carries the collection name, one field per document key in order, and sorts by an int64 field |
| Extraction.Update | src/sphinx_typesense/backends/typesense.py:421-449 | an element with empty text, or one that is not a heading, leaves the state unchanged; the keys lvl0..lvl3 stay the keys |
| Extraction.Emitted | src/sphinx_typesense/backends/typesense.py:421-449 | one document for a non-empty walked element, none otherwise |
| Extraction.HierarchyAfter | src/sphinx_typesense/backends/typesense.py:417-449 | the state always holds exactly lvl0..lvl3 |
| Extraction.HierarchyIsLatestHeading | src/sphinx_typesense/backends/typesense.py:417-446 | each level holds the latest non-empty heading of that level not superseded by a higher one, against an independent backward-looking definition |
| Extraction.EmittedByTag | src/sphinx_typesense/backends/typesense.py:426-449 | h1..h4 emit types lvl0..lvl3 with empty content; p and li emit `content` with their text |
| Extraction.SkipEmpty | src/sphinx_typesense/backends/typesense.py:421-424 | an element with empty text neither emits nor changes the state |
| Extraction.WalkStep | src/sphinx_typesense/backends/typesense.py:419-449 | walking one more element updates first, then emits under the updated state |
| Extraction.DocumentsWellFormed | src/sphinx_typesense/backends/typesense.py:419-496 | every document has empty lvl4..lvl6, a known type, content exactly when its type is `content`, a non-empty heading at its own level with the lower levels cleared, the weight and priority of its type, and `url_base` as its url without anchor |
| Extraction.EmittedWellFormed | src/sphinx_typesense/backends/typesense.py:419-449 | what one element yields is well formed |
| Extraction.HeadingWellFormed | src/sphinx_typesense/backends/typesense.py:426-446 | a heading's document is well formed: non-empty at its level, lower levels cleared, no content |
| Extraction.ParagraphWellFormed | src/sphinx_typesense/backends/typesense.py:448-449 | a paragraph or list item yields a content document with its text |
| Extraction.OneDocumentPerElement | src/sphinx_typesense/backends/typesense.py:419-449 | a page yields exactly one document per walked element with text |
| Extraction.ContentSelectors | src/sphinx_typesense/backends/typesense.py:508-514 | the configured selectors when there are any, the backend's own five otherwise |
| Extraction.ContentElementFirstMatch | src/sphinx_typesense/backends/typesense.py:517-524 | no content root exactly when no selector matches; otherwise the root is what the first matching selector selects |
| Extraction.WalkedElements | src/sphinx_typesense/backends/typesense.py:410-419 | only h1..h4, p and li are walked |
| Extraction.GuideAnchors | src/sphinx_typesense/backends/typesense.py:556-589 | in `<h1 id="x">Install</h1><p>Steps here</p>` the heading's anchor is `x` and the paragraph's is "" |
| Extraction.GuidePageScenario | src/sphinx_typesense/backends/typesense.py:392-496 | that page under `main` yields exactly two documents: lvl0 `Install` at `guide.html#x` with weight 100, then content `Steps here` under `Install` at `guide.html` with weight 50 |
| Scripts.TypesenseEntries | src/sphinx_typesense/templates.py:151-162 | ten entries in a fixed key order |
| Scripts.PagefindEntries | src/sphinx_typesense/templates.py:198-202 | container, placeholder and basePath, in that order |
| Scripts.AdminKeyNeverPublished | src/sphinx_typesense/templates.py:151-162 | the published key is the search key, and changing the admin key changes nothing published |
| Templates.ContainerId | src/sphinx_typesense/templates.py:105-107 | every leading `#` is removed, so the id never starts with `#`; anything else is kept as is |
| Templates.ContainerIdStable | src/sphinx_typesense/templates.py:105-107 | stripping is idempotent and insensitive to extra leading `#` |
| Templates.SearchContainerHtml | src/sphinx_typesense/templates.py:95-110 | a `div` whose id is the container id, so the id never starts with `#` |
| Templates.TypesenseConfigScript | src/sphinx_typesense/templates.py:130-180 | a tagged `window.TYPESENSE_CONFIG` script with the ten entries, the port as a string |
| Templates.PagefindConfigScript | src/sphinx_typesense/templates.py:183-214 | a tagged `window.PAGEFIND_CONFIG` script whose basePath is `/_pagefind/` |
| Templates.LegacyConfigScript | src/sphinx_typesense/templates.py:113-127 | the deprecated script is the Typesense one whatever the backend |
| Templates.SearchHtmlFor | src/sphinx_typesense/templates.py:74-87 | the container, then the Typesense script exactly when the effective backend is Typesense, the Pagefind script otherwise |
| Templates.InjectSearchAssets | src/sphinx_typesense/templates.py:45-92 | only `typesense_search_html` changes in the context |
| Templates.MetaEntries | src/sphinx_typesense/templates.py:237-267 | the first three entries are backend, container and placeholder |
| Templates.MetaEntriesPerBackend | src/sphinx_typesense/templates.py:249-267 | Typesense adds eight entries including the search key; any other name adds only `pagefind-base-path` `/_pagefind/`; the admin key never matters |
| Templates.TagsOf | src/sphinx_typesense/templates.py:276-277 | one tag per entry, same name and content, in order |
| Templates.AddSearchMetaTags | src/sphinx_typesense/templates.py:217-279 | a missing or non-list `metatags` becomes empty, then the entries are appended after what was there; nothing else changes |
| Templates.AppendTags | src/sphinx_typesense/templates.py:275-277 | the loop appends exactly one tag per entry after the existing ones |
| Templates.MetaTagsAppendOnly | src/sphinx_typesense/templates.py:269-277 | earlier tags stay in front, the count grows by the number of entries, and the first new tag names the backend |
| Base.SearchBackend.constructor | src/sphinx_typesense/backends/base.py:36-46 | keeps the app and is named `base` |
| Base.SearchBackend.ConfigScript | src/sphinx_typesense/backends/base.py:91-101 | no inline script by default |
| Base.SearchBackend.IsAvailable | src/sphinx_typesense/backends/base.py:103-113 | available by default |
| Typesense.ProbingStops | src/sphinx_typesense/backends/typesense.py:222-243 | healthy ends the check with true, a rejected key with false, and an exception that is not an `OSError` escapes, all after one request; every other exception, client errors included, is retried |
| Typesense.ProbingRetries | src/sphinx_typesense/backends/typesense.py:230-268 | after a retryable failure the check sleeps (except after the last attempt) and goes on with double the backoff |
| Typesense.FullSchedule | src/sphinx_typesense/backends/typesense.py:58-60 | the schedule is check, sleep 1.0, check, sleep 2.0, check |
| Typesense.ProbingFollowsSchedule | src/sphinx_typesense/backends/typesense.py:222-268 | every run is a non-empty prefix of the schedule ending on a health check: never a sleep after the last attempt |
| Typesense.ProbingTrueIff | src/sphinx_typesense/backends/typesense.py:222-230 | true exactly when some attempt is healthy after only retryable failures (not healthy, or any `OSError` other than a rejected key, client errors included) |
| Typesense.ProbingRaisesIff | src/sphinx_typesense/backends/typesense.py:222-262 | an exception escapes exactly when some attempt raises one that is not an `OSError` (neither a client error nor a network failure), after only retryable failures |
| Typesense.UnauthorizedStopsAtOnce | src/sphinx_typesense/backends/typesense.py:237-243 | a rejected key ends the check at once with false |
| Typesense.ConnectionRun | src/sphinx_typesense/backends/typesense.py:210-213 | a cached verdict is returned with no request |
| Typesense.FreshCheckBounded | src/sphinx_typesense/backends/typesense.py:215-268 | a fresh check makes at most three health checks with 1.0 then 2.0 seconds between them |
| Typesense.EnsureRun | src/sphinx_typesense/backends/typesense.py:282-314 | drop first only when asked; a missing collection is fine; create follows unless the drop failed otherwise; failure exactly for such a drop or a create error not saying "already exists" |
| Typesense.FailedCount | src/sphinx_typesense/backends/typesense.py:361-368 | at most one per line, and 0 exactly when no line says `success: false` |
| Typesense.ImportResult | src/sphinx_typesense/backends/typesense.py:356-390 | a completed import gives the number of documents sent; any `OSError`, which includes every client error, gives 0; any other exception escapes |
| Typesense.IndexAllDegrades | src/sphinx_typesense/backends/typesense.py:316-390 | an unreachable server gives 0 with only probes and sleeps; a result is 0 or the number of documents; a client or network failure during the import gives 0; a completed import gives the count |
| Typesense.ClientFor | src/sphinx_typesense/backends/typesense.py:162-195 | the client uses the configured node and the admin key, a 10-second default timeout and `num_retries` of 1 |
| Typesense.ContentElementStep | src/sphinx_typesense/backends/typesense.py:517-521 | a matching selector decides, otherwise the next one is tried |
| Typesense.Backend.constructor | src/sphinx_typesense/backends/typesense.py:134-148 | no client, no cached verdict, the configured collection name |
| Typesense.Backend.Client | src/sphinx_typesense/backends/typesense.py:150-160 | the client is built on first use and reused afterwards |
| Typesense.Backend.ProbeHealth | src/sphinx_typesense/backends/typesense.py:224-225 | one health request through the client |
| Typesense.Backend.CheckConnection | src/sphinx_typesense/backends/typesense.py:197-280 | the verdict and requests are `ConnectionRun` of the old cache; a returned verdict is cached |
| Typesense.Backend.ProbeWithRetries | src/sphinx_typesense/backends/typesense.py:215-280 | the retry loop makes exactly the requests and sleeps of the specified check and caches any verdict it returns |
| Typesense.Backend.EnsureCollection | src/sphinx_typesense/backends/typesense.py:282-314 | does what `EnsureRun` specifies |
| Typesense.Backend.GetContentElement | src/sphinx_typesense/backends/typesense.py:498-524 | the loop over selectors finds the root `ContentElementFirstMatch` characterises |
| Typesense.Backend.Walk | src/sphinx_typesense/backends/typesense.py:419-449 | one in-place update of the hierarchy and the document it yields |
| Typesense.Backend.ExtractDocuments | src/sphinx_typesense/backends/typesense.py:392-449 | the page loop yields exactly the page's specified documents |
| Typesense.Backend.CollectDocuments | src/sphinx_typesense/backends/typesense.py:338-347 | every file's documents, in file order |
| Typesense.Backend.CountFailures | src/sphinx_typesense/backends/typesense.py:361-368 | the counting loop gives `FailedCount` |
| Typesense.Backend.Import | src/sphinx_typesense/backends/typesense.py:349-383 | one bulk request; its value is `ImportResult`; a failure count is logged only when non-zero |
| Typesense.Backend.IndexAll | src/sphinx_typesense/backends/typesense.py:316-390 | result and requests are `IndexAllRun`, so `IndexAllDegrades` holds of every run; the connection verdict is cached when one is reached; the client is built unless a false verdict was cached |
| Typesense.Backend.IndexConnected | src/sphinx_typesense/backends/typesense.py:336-390 | after a healthy check: set-up, extraction, and the import only when there are documents; the cached verdict is kept and the client is built |
| Typesense.Backend.IsAvailable | src/sphinx_typesense/backends/typesense.py:658-665 | the connection check itself: the same result and requests as `ConnectionRun`, a returned verdict cached, the cache kept when an exception escapes, the client built only when nothing was cached |
| Typesense.Backend.JsFiles | src/sphinx_typesense/backends/typesense.py:615-625 | the DocSearch library at priority 500 before the init script at 501 |
| Typesense.Backend.CssFiles | src/sphinx_typesense/backends/typesense.py:627-634 | the one DocSearch style sheet |
| Typesense.Backend.ConfigScript | src/sphinx_typesense/backends/typesense.py:636-656 | the same ten entries as the page template, untagged, publishing the search key |
| Pagefind.RunLength | src/sphinx_typesense/backends/pagefind.py:214 | the maximal run of `\d` (or `\s`) characters from a position |
| Pagefind.DigitSpan | src/sphinx_typesense/backends/pagefind.py:214-226 | a match at a position captures a non-empty run of digits after the word |
| Pagefind.MatchAt | src/sphinx_typesense/backends/pagefind.py:214-226 | a captured number is the value of a run of digits in the output |
| Pagefind.FirstMatch | src/sphinx_typesense/backends/pagefind.py:214-226 | `re.search` takes the leftmost position where the pattern matches |
| Pagefind.Search | src/sphinx_typesense/backends/pagefind.py:214-226 | no number exactly when no position matches; otherwise the number at the leftmost match |
| Pagefind.ParsePageCount | src/sphinx_typesense/backends/pagefind.py:199-229 | "indexed N page", then "on N page", then "N page", case-insensitively; the first pattern that matches decides; 0 when none does |
| Pagefind.PageCountComesFromOutput | src/sphinx_typesense/backends/pagefind.py:199-229 | a non-zero count is the value of a run of digits in the output |
| Pagefind.NoDigitsNoCount | tests/test_backends/test_pagefind.py:195-199 | output without digits (such as "" or "No match here") gives 0 |
| Pagefind.SummaryRoundTrip | tests/test_backends/test_pagefind.py:175-205 | "Indexed N page(s)" in any letter case gives N |
| Pagefind.FindCommand | src/sphinx_typesense/backends/pagefind.py:160-188 | the Python package, then `pagefind` on the path, then `npx`; none exactly when none is found; every command ends in `pagefind` |
| Pagefind.CommandLine | src/sphinx_typesense/backends/pagefind.py:117-124 | the found command, then `--site` with the build directory and `--output-path` with the index directory inside it |
| Pagefind.RunCount | src/sphinx_typesense/backends/pagefind.py:128-158 | 0 after a timeout, a missing program, an OS error or a non-zero exit; the parsed count after a clean exit |
| Pagefind.IndexAllGuards | src/sphinx_typesense/backends/pagefind.py:81-104 | no build directory or no command: nothing runs and the count is 0; otherwise one command runs, and a non-zero count comes from a clean exit |
| Pagefind.PagefindBackend.constructor | src/sphinx_typesense/backends/pagefind.py:70-79 | named `pagefind`, index directory `_pagefind`, nothing run yet |
| Pagefind.PagefindBackend.IndexAll | src/sphinx_typesense/backends/pagefind.py:81-104 | count and commands started are `IndexCount` and `IndexCommands` |
| Pagefind.PagefindBackend.RunPagefind | src/sphinx_typesense/backends/pagefind.py:106-158 | starts exactly the command line and returns `RunCount` of its outcome |
| Pagefind.PagefindBackend.IsAvailable | src/sphinx_typesense/backends/pagefind.py:261-268 | available exactly when the package, `pagefind` or `npx` is found |
| Pagefind.PagefindBackend.JsFiles | src/sphinx_typesense/backends/pagefind.py:231-240 | the init script at priority 500 |
| Pagefind.PagefindBackend.CssFiles | src/sphinx_typesense/backends/pagefind.py:242-249 | the one UI style sheet |
| Pagefind.PagefindBackend.ConfigScript | src/sphinx_typesense/backends/pagefind.py:251-259 | an untagged `window.PAGEFIND_CONFIG` whose basePath is the index directory between slashes |
| Pagefind.DefaultConfigMatchesTemplate | src/sphinx_typesense/backends/pagefind.py:251-259 | with the default directory the backend's entries equal the page template's |
| Extension.GetBackend | src/sphinx_typesense/__init__.py:56-87 | a fresh Typesense backend exactly when the effective backend is Typesense, a fresh Pagefind backend otherwise |
| Extension.ConfigJs | src/sphinx_typesense/__init__.py:90-126 | no file unless Typesense is chosen; a port `int()` rejects raises; otherwise `_static/typesense-config.js` with the ten entries and an integer port |
| Extension.ConfigJsAgreesWithBackend | src/sphinx_typesense/__init__.py:106-117 | the file differs from the backend's own script only in writing the port as a number, and publishes the search key |
| Extension.StaticAssets | src/sphinx_typesense/__init__.py:181-218 | two style sheets and three scripts with their priorities for Typesense; `pagefind-ui.css` and `pagefind-init.js` otherwise |
| Extension.AssetsLoadInOrder | src/sphinx_typesense/__init__.py:199-218 | for Typesense the library and the written config load no later than the init script, and the config asset is the file the build writes; for Pagefind the assets are the backend's own |
| Extension.HandlerStepsSplit | src/sphinx_typesense/__init__.py:129-178 | the handler's steps are nothing, the config write, or the config write followed by the backend's steps |
| Extension.RunBackend | src/sphinx_typesense/__init__.py:167-178 | running real backends gives the specified backend steps |
| Extension.IndexDocuments | src/sphinx_typesense/__init__.py:129-178 | the handler's steps and ending are `HandlerSteps` |
| Extension.FailedBuildUntouched | src/sphinx_typesense/__init__.py:154-157 | a failed build: nothing written, checked or indexed |
| Extension.ConfigWrittenBeforeSwitch | src/sphinx_typesense/__init__.py:159-165 | the config file is written first, even with indexing off, which then stops; a non-integer port stops the handler before anything is written |
| Extension.BackendStepsShape | src/sphinx_typesense/__init__.py:167-178 | at most one availability check and one indexing, by the chosen backend, indexing only after a positive check |
| Extension.IndexOnlyWhenAvailable | src/sphinx_typesense/__init__.py:168-177 | indexing happens at most once, as the last step, right after the chosen backend said it is available |
| Extension.CachedVerdictSkipsProbe | src/sphinx_typesense/backends/typesense.py:210-213 | after a positive availability check `index_all` goes straight to the connected part |
| Extension.ConnectedRunTouchesCollectionOnly | src/sphinx_typesense/backends/typesense.py:336-390 | once connected, only collection and import requests are made |
| Extension.NoSecondProbe | src/sphinx_typesense/__init__.py:171-177 | the indexing after a positive check makes no health check and no sleep |
| Indexer.Category | src/sphinx_typesense/indexer.py:65-91 | the warning category by the first matching class, in the order the handler tests them |
| Indexer.CaughtIsCategorised | src/sphinx_typesense/indexer.py:134-144 | an exception is caught exactly when it is not from outside both hierarchies, and then gets a specific warning |
| Indexer.LegacyIndexDocuments | src/sphinx_typesense/indexer.py:94-145 | skipped, creating no backend, after a failed build, with indexing off or without an admin key; otherwise one fresh backend runs `index_all` once |
| Indexer.HandledNeverUnexpected | src/sphinx_typesense/indexer.py:127-145 | only an exception from outside the client and `OSError` hierarchies escapes, and no caught one is logged as unexpected |
| Indexer.UnreachableServerIndexesNothing | src/sphinx_typesense/indexer.py:127-133 | an unreachable server gives 0 documents and no warning |

## Left out

- HTML parsing, `get_text(strip=True)` and CSS selector syntax are not modelled. A page is an element tree whose text is already stripped, and selector matching is a parameter.
- SHA-256 is not modelled. The document id is a parameter function of the url and the first 100 characters of the content; only its truncation to 32 hex digits is dropped.
- `_get_relative_url` and path handling are not modelled. The page url and the build directory are inputs, and `build_dir / output_dir` is written as a `/`-joined string.
- `rglob` file order, file reading and decoding are not modelled. The files arrive as a sequence, and a file that cannot be read or parsed has no tree.
- The Typesense server and client library are not modelled. They are replaced by the answers a `Server` value gives, and the exception hierarchy is flattened into `ExcKind`. The model takes every exception of the Typesense client to derive from its base error, which derives from `IOError` (`OSError`), and `ConnectionError` and `TimeoutError` to be `OSError`s; only `OtherException` is outside both.
- "Already exists" is recognised by an ASCII-lowercased substring test. Unicode case folding is not modelled.
- Sleeping is recorded as a `Sleep` event with its duration; no time passes.
- The remote collection's contents are not modelled, so upsert overwriting is stated only through `Documents.IdIgnoresContentBeyond100`.
- `subprocess.run`, `shutil.which` and `importlib.util.find_spec` are inputs of `Host` and `Tools`. The 300-second timeout appears only as its outcome.
- `_check_python_pagefind` is a boolean input.
- Regular expressions are not modelled in general. Only the three page-count patterns are modelled: `\s` and `\d` as ASCII classes, and IGNORECASE as ASCII case folding.
- Text.ParseInt does not model the underscores, Unicode digits and Unicode whitespace that Python's `int()` accepts.
- JSON serialisation and the exact text of the scripts and the written file are not modelled; a script is its global name and its key/value entries.
- Typesense.Backend.JsFiles and Pagefind.PagefindBackend.JsFiles keep only the file names and priorities. The `defer` attribute of `pagefind-init.js` is dropped.
- Logging is not modelled, except for three effects: the identical-keys warning (a returned flag), the failed-line count (an event), and the warning category of the older handler.
- Settings are modelled as strings and tagged numbers. A port given as the integer `0` (falsy in the required-settings check) or as another non-string value cannot be written.
- A failure of `mkdir` or `write_text` while writing the config file is not modelled, nor a `UnicodeDecodeError` from decoding Pagefind's output, which escapes in the source.
- `ConfigError` messages are not modelled; errors carry the offending value or the list of missing names.
- `setup`, `setup_config` and the registration calls are not modelled; only the registered defaults appear, as `Config.DefaultSettings`.
- Reading the environment is replaced by an `Environment` input of the two variables.
- `get_content_selectors_for_app` is modelled as `Themes.ContentSelectorsForApp`, but the Typesense backend does not call it: the backend uses its own fallback list.
- The abstract `index_all`, `get_js_files` and `get_css_files` of `SearchBackend` have no behaviour to model.
- The `TypesenseIndexer` alias and the re-exported constants of `indexer.py` are names only.
- Sphinx's own handling of an exception escaping a handler is not modelled; it appears as the handler's ending.
- Concurrency is not modelled: the build runs the handlers one at a time.
