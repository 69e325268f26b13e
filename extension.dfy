/**
 * The extension's entry points: choosing a backend, the configuration file
 * written for the browser, the static assets registered per backend, and
 * the handler that runs when Sphinx has finished building.
 */
module Extension {
  import opened Wrappers
  import opened Text
  import opened Html
  import opened Config
  import opened Documents
  import opened Extraction
  import opened Scripts
  import opened Typesense
  import opened Pagefind

  /** The backend `get_backend` builds. */
  datatype Chosen = TypesenseChosen(t: Backend) | PagefindChosen(p: PagefindBackend)

  /** `get_backend`: a Typesense backend exactly when the effective backend is Typesense. */
  method GetBackend(s: Settings, env: Environment) returns (b: Chosen)
    ensures b.TypesenseChosen? <==> EffectiveBackend(s, env) == "typesense"
    ensures b.TypesenseChosen? ==> fresh(b.t) && b.t.app == s && b.t.name == "typesense" &&
                                   b.t.collectionName == s.collectionName &&
                                   b.t.serverAvailable.None? && b.t.client.None? && b.t.trace == []
    ensures b.PagefindChosen? ==> fresh(b.p) && b.p.app == s && b.p.name == "pagefind" &&
                                  b.p.outputDir == DefaultOutputDir && b.p.commands == []
  {
    if EffectiveBackend(s, env) == "typesense" {
      var t := new Backend(s);
      b := TypesenseChosen(t);
    } else {
      var p := new PagefindBackend(s);
      b := PagefindChosen(p);
    }
  }

  /** What `_write_config_js` does. */
  datatype ConfigFile =
    | NotWritten
    | Written(path: string, script: Script)
    | PortNotInteger(port: string)

  const ConfigJsPath := "_static/typesense-config.js"

  /**
   * `_write_config_js`: only for the Typesense backend; the port is
   * converted with `int()`, which raises when the setting is not an
   * integer.
   */
  function ConfigJs(s: Settings, env: Environment): (r: ConfigFile)
    ensures r.NotWritten? <==> EffectiveBackend(s, env) != "typesense"
    ensures r.PortNotInteger? <==> EffectiveBackend(s, env) == "typesense" && ParseInt(s.port).None?
    ensures r.Written? ==> r.path == ConfigJsPath && r.script.Assignment? &&
                           r.script.global == TypesenseGlobal && !r.script.tagged &&
                           r.script.entries == TypesenseEntries(s, JInt(ParseInt(s.port).value))
  {
    if EffectiveBackend(s, env) != "typesense" then NotWritten
    else
      var port := ParseInt(s.port);
      if port.None? then PortNotInteger(s.port)
      else Written(ConfigJsPath, Assignment(TypesenseGlobal, TypesenseEntries(s, JInt(port.value)), false))
  }

  /**
   * The file differs from the backend's own configuration script only in
   * writing the port as a number, and publishes the search key.
   */
  lemma ConfigJsAgreesWithBackend(s: Settings, env: Environment, b: Backend)
    requires b.app == s
    requires ConfigJs(s, env).Written?
    ensures var written := ConfigJs(s, env).script.entries;
            var own := b.ConfigScript().entries;
            |written| == |own| &&
            (forall i :: 0 <= i < |own| && i != 2 ==> written[i] == own[i]) &&
            written[2] == ("port", JInt(ParseInt(s.port).value)) && own[2] == ("port", JString(s.port)) &&
            written[4] == ("apiKey", JString(s.searchApiKey))
  {
  }

  /** An asset and its load priority. */
  type Asset = (string, int)

  const DocSearchCssUrl := "https://cdn.jsdelivr.net/npm/typesense-docsearch-css@0.4.1/dist/style.min.css"
  const DocSearchJsUrl := "https://cdn.jsdelivr.net/npm/typesense-docsearch.js@3.4.0/dist/umd/index.min.js"

  /** `_add_static_files`: the style sheets and scripts registered for the chosen backend. */
  function StaticAssets(s: Settings, env: Environment): (r: (seq<Asset>, seq<Asset>))
    ensures EffectiveBackend(s, env) == "typesense" ==>
              r.0 == [(DocSearchCssUrl, 400), ("typesense-docsearch.css", 401)] &&
              r.1 == [(DocSearchJsUrl, 500), ("typesense-config.js", 500), ("typesense-init.js", 501)]
    ensures EffectiveBackend(s, env) != "typesense" ==>
              r.0 == [("pagefind-ui.css", 400)] && r.1 == [("pagefind-init.js", 500)]
  {
    if EffectiveBackend(s, env) == "typesense" then
      ([(DocSearchCssUrl, 400), ("typesense-docsearch.css", 401)],
       [(DocSearchJsUrl, 500), ("typesense-config.js", 500), ("typesense-init.js", 501)])
    else ([("pagefind-ui.css", 400)], [("pagefind-init.js", 500)])
  }

  /**
   * Load order: with the Typesense backend the library and the written
   * configuration come no later than the script that reads them, and the
   * configuration file is exactly the one the build writes; the local
   * style sheet loads after the library's. With Pagefind the assets are
   * the backend's own.
   */
  lemma AssetsLoadInOrder(s: Settings, env: Environment, b: PagefindBackend)
    ensures var (css, js) := StaticAssets(s, env);
            EffectiveBackend(s, env) == "typesense" ==>
              (forall i :: 0 <= i < |js| - 1 ==> js[i].1 <= js[|js| - 1].1) &&
              js[|js| - 1].0 == "typesense-init.js" &&
              ConfigJsPath == "_static/" + js[1].0 &&
              css[0].1 < css[1].1
    ensures var (css, js) := StaticAssets(s, env);
            EffectiveBackend(s, env) != "typesense" ==>
              [css[0].0] == b.CssFiles() && js == b.JsFiles()
  {
  }

  /** What the host offers the build-finished handler. */
  datatype World = World(
    server: Server,
    files: seq<HtmlFile>,
    matches: (string, Element) -> bool,
    hash: string -> string,
    host: Host)

  /** The handler's observable steps. */
  datatype Action =
    | WriteFile(path: string, script: Script)
    | CheckAvailability(backend: string, available: bool)
    | IndexAll(backend: string, count: nat)

  /** How the handler ends: normally, or with an exception escaping to Sphinx. */
  datatype End = Finished | PortError(port: string) | Escaped(exc: Exc)

  /** The documents the Typesense backend extracts from the build output. */
  function SiteDocs(s: Settings, w: World): seq<SearchDocument>
  {
    SiteDocuments(w.files, ContentSelectors(s.contentSelectors), w.matches, BuildInfo(s.docVersion, s.language, w.hash))
  }

  /**
   * The handler after the indexing switch: ask the backend whether it can
   * run, and index only if it can. The Typesense backend remembers its
   * verdict, so `index_all` does not probe the server again.
   */
  function BackendSteps(s: Settings, env: Environment, w: World): (seq<Action>, End)
  {
    if EffectiveBackend(s, env) == "typesense" then
      var probe := ConnectionRun(None, w.server.health);
      if probe.result.Raised? then ([], Escaped(probe.result.exc))
      else if !probe.result.value then ([CheckAvailability("typesense", false)], Finished)
      else
        var run := IndexAllRun(s.dropExisting, s.collectionName, Some(true), w.server, SiteDocs(s, w));
        if run.result.Raised? then ([CheckAvailability("typesense", true)], Escaped(run.result.exc))
        else ([CheckAvailability("typesense", true), IndexAll("typesense", run.result.value)], Finished)
    else if FindCommand(w.host.tools).None? then ([CheckAvailability("pagefind", false)], Finished)
    else ([CheckAvailability("pagefind", true), IndexAll("pagefind", IndexCount(DefaultOutputDir, w.host))], Finished)
  }

  /** `index_documents`, the build-finished handler. */
  function HandlerSteps(s: Settings, env: Environment, buildFailed: bool, w: World): (seq<Action>, End)
  {
    if buildFailed then ([], Finished)
    else
      var config := ConfigJs(s, env);
      if config.PortNotInteger? then ([], PortError(s.port))
      else
        if !s.enableIndexing then (ConfigSteps(config), Finished)
        else
          var rest := BackendSteps(s, env, w);
          (ConfigSteps(config) + rest.0, rest.1)
  }

  /** The step of writing the configuration file, when there is one. */
  function ConfigSteps(config: ConfigFile): (steps: seq<Action>)
    ensures config.Written? ==> steps == [WriteFile(config.path, config.script)]
    ensures !config.Written? ==> steps == []
  {
    if config.Written? then [WriteFile(config.path, config.script)] else []
  }

  /** The handler's steps are the file write, then (with indexing on) the backend's steps. */
  lemma HandlerStepsSplit(s: Settings, env: Environment, buildFailed: bool, w: World)
    ensures var actions := HandlerSteps(s, env, buildFailed, w).0;
            actions == [] || actions == ConfigSteps(ConfigJs(s, env)) ||
            actions == ConfigSteps(ConfigJs(s, env)) + BackendSteps(s, env, w).0
  {
  }

  /** The handler after the indexing switch, run against fresh backends. */
  method RunBackend(s: Settings, env: Environment, w: World) returns (actions: seq<Action>, end: End)
    ensures (actions, end) == BackendSteps(s, env, w)
  {
    var chosen := GetBackend(s, env);
    match chosen
    case TypesenseChosen(t) =>
      var available := t.IsAvailable(w.server);
      assert available == ConnectionRun(None, w.server.health).result;
      if available.Raised? {
        return [], Escaped(available.exc);
      }
      actions := [CheckAvailability(t.name, available.value)];
      if !available.value {
        return actions, Finished;
      }
      assert t.serverAvailable == Some(true);
      var count := t.IndexAll(w.server, w.files, w.matches, w.hash);
      assert count == IndexAllRun(s.dropExisting, s.collectionName, Some(true), w.server, SiteDocs(s, w)).result;
      if count.Raised? {
        return actions, Escaped(count.exc);
      }
      assert BackendSteps(s, env, w) == ([CheckAvailability("typesense", true), IndexAll("typesense", count.value)], Finished);
      actions, end := actions + [IndexAll(t.name, count.value)], Finished;
      assert actions == [CheckAvailability("typesense", true), IndexAll("typesense", count.value)];
    case PagefindChosen(p) =>
      var available := p.IsAvailable(w.host.tools);
      actions := [CheckAvailability(p.name, available)];
      if !available {
        return actions, Finished;
      }
      var count := p.IndexAll(w.host);
      assert count == IndexCount(DefaultOutputDir, w.host);
      actions, end := actions + [IndexAll(p.name, count)], Finished;
      assert actions == [CheckAvailability("pagefind", true), IndexAll("pagefind", count)];
  }

  /** `index_documents`. */
  method IndexDocuments(s: Settings, env: Environment, buildFailed: bool, w: World) returns (actions: seq<Action>, end: End)
    ensures (actions, end) == HandlerSteps(s, env, buildFailed, w)
  {
    if buildFailed {
      return [], Finished;
    }
    var config := ConfigJs(s, env);
    if config.PortNotInteger? {
      return [], PortError(s.port);
    }
    actions := if config.Written? then [WriteFile(config.path, config.script)] else [];
    end := Finished;
    assert actions == ConfigSteps(config);
    if !s.enableIndexing {
      return;
    }
    var more, last := RunBackend(s, env, w);
    actions, end := actions + more, last;
  }

  /** A failed build is left alone: nothing is written, checked or indexed. */
  lemma FailedBuildUntouched(s: Settings, env: Environment, w: World)
    ensures HandlerSteps(s, env, true, w) == ([], Finished)
  {
  }

  /**
   * The configuration file is written before the indexing switch is
   * looked at: with indexing off, the Typesense backend still gets its
   * file and nothing else happens; a port that is not an integer stops
   * the handler before anything is written.
   */
  lemma ConfigWrittenBeforeSwitch(s: Settings, env: Environment, w: World)
    ensures var (actions, end) := HandlerSteps(s, env, false, w);
            ConfigJs(s, env).Written? ==>
              actions != [] && actions[0] == WriteFile(ConfigJsPath, ConfigJs(s, env).script)
    ensures var (actions, end) := HandlerSteps(s, env, false, w);
            !s.enableIndexing && !ConfigJs(s, env).PortNotInteger? ==>
              end == Finished && (actions == [] || actions == [WriteFile(ConfigJsPath, ConfigJs(s, env).script)])
    ensures ConfigJs(s, env).PortNotInteger? ==> HandlerSteps(s, env, false, w) == ([], PortError(s.port))
  {
  }

  /** The name of the backend `get_backend` builds. */
  function ChosenName(s: Settings, env: Environment): string
  {
    if EffectiveBackend(s, env) == "typesense" then "typesense" else "pagefind"
  }

  /**
   * A run that checks only with `name` and indexes at most once, as its
   * last step, right after `name` said it is available.
   */
  predicate IndexedAfterCheck(actions: seq<Action>, name: string)
  {
    (forall i :: 0 <= i < |actions| && actions[i].IndexAll? ==>
       i == |actions| - 1 && i > 0 && actions[i - 1] == CheckAvailability(name, true) && actions[i].backend == name) &&
    (forall i :: 0 <= i < |actions| && actions[i].CheckAvailability? ==> actions[i].backend == name)
  }

  /**
   * After the switch the handler asks the chosen backend once whether it
   * can run, and indexes with it once, only after a positive answer.
   */
  lemma BackendStepsShape(s: Settings, env: Environment, w: World)
    ensures var steps := BackendSteps(s, env, w).0;
            |steps| <= 2 &&
            (forall i :: 0 <= i < |steps| ==> !steps[i].WriteFile? && steps[i].backend == ChosenName(s, env)) &&
            (steps != [] ==> steps[0].CheckAvailability?) &&
            (|steps| == 2 ==> steps[0].available && steps[1].IndexAll?)
  {
  }

  lemma {:induction false} PrefixedByWrites(written: seq<Action>, rest: seq<Action>, name: string)
    requires forall i :: 0 <= i < |written| ==> written[i].WriteFile?
    requires |rest| <= 2 && forall i :: 0 <= i < |rest| ==> !rest[i].WriteFile? && rest[i].backend == name
    requires rest != [] ==> rest[0].CheckAvailability?
    requires |rest| == 2 ==> rest[0].available && rest[1].IndexAll?
    ensures IndexedAfterCheck(written, name) && IndexedAfterCheck(written + rest, name)
  {
    var actions := written + rest;
    forall i | 0 <= i < |actions| && !actions[i].WriteFile?
      ensures i >= |written| && actions[i] == rest[i - |written|]
    {
    }
  }

  /**
   * Indexing happens at most once, as the handler's last step, right after
   * the chosen backend said it is available.
   */
  lemma {:induction false} IndexOnlyWhenAvailable(s: Settings, env: Environment, buildFailed: bool, w: World)
    ensures IndexedAfterCheck(HandlerSteps(s, env, buildFailed, w).0, ChosenName(s, env))
  {
    HandlerStepsSplit(s, env, buildFailed, w);
    BackendStepsShape(s, env, w);
    PrefixedByWrites(ConfigSteps(ConfigJs(s, env)), BackendSteps(s, env, w).0, ChosenName(s, env));
  }

  lemma EnsureEventsOnCollection(dropExisting: bool, name: string, server: Server)
    ensures forall e :: e in EnsureRun(dropExisting, name, server).1 ==> e.DropCollection? || e.CreateCollection?
  {
  }

  lemma ImportEventsOnImport(collection: string, docs: seq<SearchDocument>, imported: ImportOutcome)
    ensures forall e :: e in ImportEvents(collection, docs, imported) ==> e.BulkImport? || e.ImportFailures?
  {
  }

  /** Once connected, `index_all` only talks to the collection and the import endpoint. */
  lemma {:induction false} ConnectedRunTouchesCollectionOnly(dropExisting: bool, collection: string, server: Server, docs: seq<SearchDocument>)
    ensures forall e :: e in ConnectedRun(dropExisting, collection, server, docs).events ==>
              e.DropCollection? || e.CreateCollection? || e.BulkImport? || e.ImportFailures?
  {
    var ensured := EnsureRun(dropExisting, collection, server);
    EnsureEventsOnCollection(dropExisting, collection, server);
    if ensured.0.Pass? && docs != [] {
      ImportEventsOnImport(collection, docs, server.bulkImport(collection, docs));
    }
  }

  /**
   * With the Typesense backend the indexing run after a healthy check
   * makes no health checks and no sleeps: only the collection and import
   * requests.
   */
  lemma {:induction false} NoSecondProbe(s: Settings, w: World)
    ensures var run := IndexAllRun(s.dropExisting, s.collectionName, Some(true), w.server, SiteDocs(s, w));
            forall e :: e in run.events ==> !e.HealthCheck? && !e.Sleep?
  {
    var docs := SiteDocs(s, w);
    CachedVerdictSkipsProbe(s.dropExisting, s.collectionName, w.server, docs);
    ConnectedRunTouchesCollectionOnly(s.dropExisting, s.collectionName, w.server, docs);
  }

  lemma CachedVerdictSkipsProbe(dropExisting: bool, collection: string, server: Server, docs: seq<SearchDocument>)
    ensures IndexAllRun(dropExisting, collection, Some(true), server, docs) == ConnectedRun(dropExisting, collection, server, docs)
  {
  }
}
