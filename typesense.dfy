/**
 * The Typesense backend: the connection check with retries and a cached
 * verdict, the collection set-up, the per-page extraction loop and the
 * bulk import with its graceful degradation.
 *
 * The server is not modelled; a `Server` value supplies the answer each
 * request gets (a health probe per attempt, the outcome of dropping and of
 * creating the collection, the outcome of the import). The requests the
 * backend makes, and its sleeps, are recorded in a ghost trace.
 */
module Typesense {
  import opened Wrappers
  import opened Text
  import opened Html
  import opened Config
  import opened Documents
  import opened Extraction
  import opened Scripts

  const MaxRetries: nat := 3
  const InitialBackoff: real := 1.0
  const BackoffMultiplier: real := 2.0
  const DefaultConnectionTimeout := 10

  /** The exceptions a request can raise, by the class the handlers tell apart. */
  datatype ExcKind =
    | RequestUnauthorized | ServiceUnavailable | Timeout | HTTPStatus0 | ObjectNotFound | OtherClientError
    | ConnectionError | TimeoutError | OtherOSError
    | OtherException

  datatype Exc = Exc(kind: ExcKind, message: string)

  /**
   * Whether an exception is an `OSError`. The Typesense client's base error
   * derives from Python's `IOError`, which is `OSError`, so every client
   * exception is one, as are `ConnectionError` and `TimeoutError`; only an
   * exception from outside both hierarchies is not. The `OSError` clauses
   * of the connection check and of the import therefore catch every client
   * exception no earlier clause handles.
   */
  predicate IsOSError(k: ExcKind)
  {
    k != OtherException
  }

  /** A failed create is harmless when its message says the collection is already there. */
  predicate AlreadyExists(e: Exc)
  {
    Contains(LowerString(e.message), "already exists")
  }

  /** The answer to a health check: healthy or not, or an exception. */
  datatype Probe = Healthy(ok: bool) | ProbeRaised(exc: Exc)

  /** One line of the import response; `success` is absent when the server left it out. */
  datatype ImportItem = ImportItem(success: Option<bool>, error: string)

  datatype ImportOutcome = Imported(items: seq<ImportItem>) | ImportRaised(exc: Exc)

  /** What the server answers to each request the backend makes. */
  datatype Server = Server(
    health: nat -> Probe,
    drop: string -> Outcome<Exc>,
    create: Schema -> Outcome<Exc>,
    bulkImport: (string, seq<SearchDocument>) -> ImportOutcome)

  /** A value, or the exception that escapes instead. */
  datatype Result<+T> = Returned(value: T) | Raised(exc: Exc)

  /** What the backend does to the outside world. */
  datatype Event =
    | HealthCheck(attempt: nat)
    | Sleep(seconds: real)
    | DropCollection(name: string)
    | CreateCollection(schema: Schema)
    | BulkImport(collection: string, count: nat)
    | ImportFailures(count: nat)

  /** The result of a sequence of requests together with the requests made. */
  datatype Run<+T> = Run(result: Result<T>, events: seq<Event>)

  /**
   * A probe after which the check tries again: not healthy, or an `OSError`
   * other than a rejected key (which the check catches first).
   */
  predicate Retryable(p: Probe)
  {
    p == Healthy(false) || (p.ProbeRaised? && p.exc.kind != RequestUnauthorized && IsOSError(p.exc.kind))
  }

  /**
   * The connection check from `attempt` on, with `backoff` seconds to wait
   * before the next attempt. Healthy ends it with true, a rejected key with
   * false, an exception that is not an `OSError` escapes; otherwise the backend
   * sleeps (except after the last attempt) and tries again with double the
   * backoff. After the last attempt the verdict is false.
   */
  function Probing(health: nat -> Probe, attempt: nat, backoff: real): Run<bool>
    requires 1 <= attempt
    decreases MaxRetries + 1 - attempt
  {
    if attempt > MaxRetries then Run(Returned(false), [])
    else
      var probe := health(attempt);
      var here := [HealthCheck(attempt)];
      if probe == Healthy(true) then Run(Returned(true), here)
      else if probe.ProbeRaised? && probe.exc.kind == RequestUnauthorized then Run(Returned(false), here)
      else if probe.ProbeRaised? && !IsOSError(probe.exc.kind) then Run(Raised(probe.exc), here)
      else
        var wait := if attempt < MaxRetries then [Sleep(backoff)] else [];
        var rest := Probing(health, attempt + 1, backoff * BackoffMultiplier);
        Run(rest.result, here + wait + rest.events)
  }

  /** After a retryable failure the check sleeps (unless this was the last attempt) and goes on. */
  lemma ProbingRetries(health: nat -> Probe, attempt: nat, backoff: real)
    requires 1 <= attempt <= MaxRetries && Retryable(health(attempt))
    ensures var next := if attempt < MaxRetries then backoff * BackoffMultiplier else backoff;
            var rest := Probing(health, attempt + 1, next);
            Probing(health, attempt, backoff) ==
              Run(rest.result, [HealthCheck(attempt)] + (if attempt < MaxRetries then [Sleep(backoff)] else []) + rest.events)
  {
  }

  /**
   * One retryable attempt in the loop of `_check_connection`: the requests
   * still to come from the next attempt on, after this check and its pause,
   * complete the same run.
   */
  lemma ProbingAdvances(health: nat -> Probe, attempt: nat, backoff: real, start: seq<Event>, now: seq<Event>, whole: Run<bool>)
    requires 1 <= attempt <= MaxRetries && Retryable(health(attempt))
    requires whole.result == Probing(health, attempt, backoff).result
    requires start + whole.events == now + Probing(health, attempt, backoff).events
    ensures attempt < MaxRetries ==>
              whole.result == Probing(health, attempt + 1, backoff * BackoffMultiplier).result &&
              start + whole.events == (now + [HealthCheck(attempt)] + [Sleep(backoff)]) + Probing(health, attempt + 1, backoff * BackoffMultiplier).events
    ensures attempt == MaxRetries ==>
              whole.result == Probing(health, attempt + 1, backoff).result &&
              start + whole.events == (now + [HealthCheck(attempt)]) + Probing(health, attempt + 1, backoff).events
  {
    ProbingRetries(health, attempt, backoff);
    if attempt < MaxRetries {
      Regroup(now, [HealthCheck(attempt)], [Sleep(backoff)], Probing(health, attempt + 1, backoff * BackoffMultiplier).events);
    } else {
      Regroup(now, [HealthCheck(attempt)], [], Probing(health, attempt + 1, backoff).events);
      assert now + [HealthCheck(attempt)] + [] == now + [HealthCheck(attempt)];
    }
  }

  /** A check that is not retried ends at this attempt. */
  lemma ProbingStops(health: nat -> Probe, attempt: nat, backoff: real)
    requires 1 <= attempt <= MaxRetries && !Retryable(health(attempt))
    ensures Probing(health, attempt, backoff).events == [HealthCheck(attempt)]
    ensures Probing(health, attempt, backoff).result ==
            if health(attempt) == Healthy(true) then Returned(true)
            else if health(attempt).exc.kind == RequestUnauthorized then Returned(false)
            else Raised(health(attempt).exc)
    ensures Probing(health, attempt, backoff).result.Raised? ==> health(attempt).exc.kind == OtherException
  {
  }

  lemma Assoc<T>(a: seq<T>, b: seq<T>, c: seq<T>)
    ensures (a + b) + c == a + (b + c)
  {
  }

  lemma Regroup<T>(a: seq<T>, b: seq<T>, c: seq<T>, d: seq<T>)
    ensures a + (b + c + d) == (a + b + c) + d
  {
  }

  /** The requests the check makes when every attempt fails in a retryable way. */
  function Schedule(attempt: nat, backoff: real): seq<Event>
    requires 1 <= attempt
    decreases MaxRetries + 1 - attempt
  {
    if attempt > MaxRetries then []
    else [HealthCheck(attempt)] + (if attempt < MaxRetries then [Sleep(backoff)] else []) + Schedule(attempt + 1, backoff * BackoffMultiplier)
  }

  /** The full schedule: three checks, one second and then two seconds apart. */
  lemma FullSchedule()
    ensures Schedule(1, InitialBackoff) ==
            [HealthCheck(1), Sleep(1.0), HealthCheck(2), Sleep(2.0), HealthCheck(3)]
  {
    assert Schedule(3, 4.0) == [HealthCheck(3)];
    assert Schedule(2, 2.0) == [HealthCheck(2), Sleep(2.0), HealthCheck(3)];
  }

  /**
   * Every run of the check follows the schedule and stops somewhere in it,
   * always right after a health check: the backend never sleeps after its
   * last attempt.
   */
  lemma {:induction false} ProbingFollowsSchedule(health: nat -> Probe, attempt: nat, backoff: real)
    requires 1 <= attempt <= MaxRetries
    ensures var events := Probing(health, attempt, backoff).events;
            events <= Schedule(attempt, backoff) && events != [] && events[|events| - 1].HealthCheck?
    decreases MaxRetries + 1 - attempt
  {
    var here := [HealthCheck(attempt)];
    var wait := if attempt < MaxRetries then [Sleep(backoff)] else [];
    var later := Schedule(attempt + 1, backoff * BackoffMultiplier);
    assert Schedule(attempt, backoff) == here + wait + later;
    if !Retryable(health(attempt)) {
      ProbingStops(health, attempt, backoff);
    } else if attempt < MaxRetries {
      ProbingRetries(health, attempt, backoff);
      var rest := Probing(health, attempt + 1, backoff * BackoffMultiplier).events;
      ProbingFollowsSchedule(health, attempt + 1, backoff * BackoffMultiplier);
      PrefixAfter(here + wait, rest, later);
    } else {
      ProbingRetries(health, attempt, backoff);
      assert Probing(health, attempt + 1, backoff).events == [];
    }
  }

  /** A common start keeps one sequence a prefix of another, and the last element is the tail's. */
  lemma PrefixAfter<T>(p: seq<T>, a: seq<T>, b: seq<T>)
    requires a <= b && a != []
    ensures p + a <= p + b && (p + a)[|p + a| - 1] == a[|a| - 1]
  {
    assert (p + b)[..|p + a|] == p + a;
  }

  /**
   * The check answers true exactly when some attempt is healthy and every
   * earlier one failed in a retryable way.
   */
  lemma {:induction false} ProbingTrueIff(health: nat -> Probe, attempt: nat, backoff: real)
    requires 1 <= attempt
    ensures Probing(health, attempt, backoff).result == Returned(true) <==>
            exists k :: attempt <= k <= MaxRetries && health(k) == Healthy(true) &&
                        forall j :: attempt <= j < k ==> Retryable(health(j))
    decreases MaxRetries + 1 - attempt
  {
    if attempt <= MaxRetries {
      ProbingTrueIff(health, attempt + 1, backoff * BackoffMultiplier);
      if Probing(health, attempt, backoff).result == Returned(true) && health(attempt) != Healthy(true) {
        var k :| attempt + 1 <= k <= MaxRetries && health(k) == Healthy(true) &&
                 forall j :: attempt + 1 <= j < k ==> Retryable(health(j));
        assert forall j :: attempt <= j < k ==> Retryable(health(j));
      }
    }
  }

  /**
   * An exception escapes the check exactly when some attempt raises one
   * that is not an `OSError` (so neither a client error nor a network
   * failure), after retryable failures only.
   */
  lemma {:induction false} ProbingRaisesIff(health: nat -> Probe, attempt: nat, backoff: real, e: Exc)
    requires 1 <= attempt
    ensures Probing(health, attempt, backoff).result == Raised(e) <==>
            exists k :: attempt <= k <= MaxRetries && health(k) == ProbeRaised(e) &&
                        e.kind == OtherException &&
                        forall j :: attempt <= j < k ==> Retryable(health(j))
    decreases MaxRetries + 1 - attempt
  {
    if attempt <= MaxRetries {
      ProbingRaisesIff(health, attempt + 1, backoff * BackoffMultiplier, e);
      if Probing(health, attempt, backoff).result == Raised(e) && health(attempt) != ProbeRaised(e) {
        var k :| attempt + 1 <= k <= MaxRetries && health(k) == ProbeRaised(e) &&
                 e.kind == OtherException &&
                 forall j :: attempt + 1 <= j < k ==> Retryable(health(j));
        assert forall j :: attempt <= j < k ==> Retryable(health(j));
      }
    }
  }

  /** A rejected key ends the check at once with false. */
  lemma UnauthorizedStopsAtOnce(health: nat -> Probe, attempt: nat, backoff: real)
    requires 1 <= attempt <= MaxRetries
    requires health(attempt).ProbeRaised? && health(attempt).exc.kind == RequestUnauthorized
    ensures Probing(health, attempt, backoff) == Run(Returned(false), [HealthCheck(attempt)])
  {
  }

  /** The connection verdict: the cached one if there is one, a fresh check otherwise. */
  function ConnectionRun(cached: Option<bool>, health: nat -> Probe): (r: Run<bool>)
    ensures cached.Some? ==> r == Run(Returned(cached.value), [])
  {
    if cached.Some? then Run(Returned(cached.value), []) else Probing(health, 1, InitialBackoff)
  }

  /**
   * A fresh check makes at most three health checks with sleeps of one and
   * then two seconds between them, and ends on a health check.
   */
  lemma FreshCheckBounded(health: nat -> Probe)
    ensures var events := ConnectionRun(None, health).events;
            events <= [HealthCheck(1), Sleep(1.0), HealthCheck(2), Sleep(2.0), HealthCheck(3)] &&
            events != [] && events[|events| - 1].HealthCheck?
  {
    ProbingFollowsSchedule(health, 1, InitialBackoff);
    FullSchedule();
  }

  /**
   * `_ensure_collection`: optionally drop the collection (a missing one is
   * fine, any other failure escapes), then create it from the schema (a
   * failure escapes unless it says the collection already exists).
   */
  function EnsureRun(dropExisting: bool, name: string, server: Server): (r: (Outcome<Exc>, seq<Event>))
    ensures dropExisting ==> |r.1| >= 1 && r.1[0] == DropCollection(name)
    ensures !dropExisting ==> r.1 == [CreateCollection(SchemaFor(name))]
    ensures r.1[|r.1| - 1].CreateCollection? <==> !(dropExisting && server.drop(name).Fail? && server.drop(name).error.kind != ObjectNotFound)
    ensures r.0.Fail? <==>
              (dropExisting && server.drop(name).Fail? && server.drop(name).error.kind != ObjectNotFound) ||
              (server.create(SchemaFor(name)).Fail? && !AlreadyExists(server.create(SchemaFor(name)).error))
  {
    var dropped := if dropExisting then server.drop(name) else Pass;
    var dropEvents := if dropExisting then [DropCollection(name)] else [];
    if dropped.Fail? && dropped.error.kind != ObjectNotFound then (Fail(dropped.error), dropEvents)
    else
      var created := server.create(SchemaFor(name));
      var events := dropEvents + [CreateCollection(SchemaFor(name))];
      if created.Fail? && !AlreadyExists(created.error) then (Fail(created.error), events)
      else (Pass, events)
  }

  /** How many import lines report a failure; a line without `success` counts as a success. */
  function FailedCount(items: seq<ImportItem>): (n: nat)
    ensures n <= |items|
    ensures n == 0 <==> forall i :: 0 <= i < |items| ==> items[i].success != Some(false)
  {
    if items == [] then 0
    else FailedCount(items[..|items| - 1]) + (if items[|items| - 1].success == Some(false) then 1 else 0)
  }

  /**
   * The value of `index_all` once the import has been attempted: the number
   * of documents sent whatever individual lines say, 0 when the server
   * became unreachable, and any other exception escapes.
   */
  function ImportResult(imported: ImportOutcome, count: nat): (r: Result<nat>)
    ensures imported.Imported? ==> r == Returned(count)
    ensures imported.ImportRaised? && IsOSError(imported.exc.kind) ==> r == Returned(0)
    ensures imported.ImportRaised? && !IsOSError(imported.exc.kind) ==> r == Raised(imported.exc)
  {
    match imported
    case Imported(_) => Returned(count)
    case ImportRaised(e) => if IsOSError(e.kind) then Returned(0) else Raised(e)
  }

  /** The requests of the import step. */
  function ImportEvents(collection: string, docs: seq<SearchDocument>, imported: ImportOutcome): seq<Event>
  {
    [BulkImport(collection, |docs|)] +
    (if imported.Imported? && FailedCount(imported.items) > 0 then [ImportFailures(FailedCount(imported.items))] else [])
  }

  /**
   * `index_all` over the documents extracted from the build output, given
   * the cached connection verdict and the server's answers.
   */
  function IndexAllRun(dropExisting: bool, collection: string, cached: Option<bool>, server: Server, docs: seq<SearchDocument>): Run<nat>
  {
    var conn := ConnectionRun(cached, server.health);
    if conn.result.Raised? then Run(Raised(conn.result.exc), conn.events)
    else if !conn.result.value then Run(Returned(0), conn.events)
    else
      var rest := ConnectedRun(dropExisting, collection, server, docs);
      Run(rest.result, conn.events + rest.events)
  }

  /** What `index_all` does once the server has answered healthy. */
  function ConnectedRun(dropExisting: bool, collection: string, server: Server, docs: seq<SearchDocument>): Run<nat>
  {
    var ensured := EnsureRun(dropExisting, collection, server);
    if ensured.0.Fail? then Run(Raised(ensured.0.error), ensured.1)
    else if docs == [] then Run(Returned(0), ensured.1)
    else
      var imported := server.bulkImport(collection, docs);
      Run(ImportResult(imported, |docs|), ensured.1 + ImportEvents(collection, docs, imported))
  }

  /**
   * Graceful degradation: when the server cannot be reached the build goes
   * on with 0 and the collection is never touched; a network failure during
   * the import gives 0; any other completed import gives the number of
   * documents, failed lines included.
   */
  lemma IndexAllDegrades(dropExisting: bool, collection: string, cached: Option<bool>, server: Server, docs: seq<SearchDocument>)
    ensures ConnectionRun(cached, server.health).result == Returned(false) ==>
              IndexAllRun(dropExisting, collection, cached, server, docs) == Run(Returned(0), ConnectionRun(cached, server.health).events) &&
              forall ev :: ev in IndexAllRun(dropExisting, collection, cached, server, docs).events ==> ev.HealthCheck? || ev.Sleep?
    ensures var r := IndexAllRun(dropExisting, collection, cached, server, docs).result;
            r.Returned? ==> r.value == 0 || r.value == |docs|
    ensures ConnectionRun(cached, server.health).result == Returned(true) && EnsureRun(dropExisting, collection, server).0.Pass? &&
            docs != [] && server.bulkImport(collection, docs).ImportRaised? &&
            IsOSError(server.bulkImport(collection, docs).exc.kind) ==>
              IndexAllRun(dropExisting, collection, cached, server, docs).result == Returned(0)
    ensures ConnectionRun(cached, server.health).result == Returned(true) && EnsureRun(dropExisting, collection, server).0.Pass? &&
            server.bulkImport(collection, docs).Imported? ==>
              IndexAllRun(dropExisting, collection, cached, server, docs).result == Returned(|docs|)
  {
    if cached.None? && ConnectionRun(cached, server.health).result == Returned(false) {
      var events := ConnectionRun(cached, server.health).events;
      ProbingFollowsSchedule(server.health, 1, InitialBackoff);
      FullSchedule();
      assert forall i :: 0 <= i < |events| ==> events[i] == [HealthCheck(1), Sleep(1.0), HealthCheck(2), Sleep(2.0), HealthCheck(3)][i];
    }
  }

  /** The client the backend talks to: the configured node and the admin key. */
  datatype ClientSettings = ClientSettings(
    host: string, port: string, protocol: string, apiKey: string,
    connectionTimeoutSeconds: int, numRetries: nat)

  /**
   * `_create_client`: the admin key authenticates the client, the timeout
   * defaults to ten seconds, and the library makes one try per request since
   * the backend retries on its own.
   */
  function ClientFor(s: Settings): (c: ClientSettings)
    ensures c.apiKey == s.apiKey && c.host == s.host && c.port == s.port && c.protocol == s.protocol
    ensures s.connectionTimeout.None? ==> c.connectionTimeoutSeconds == DefaultConnectionTimeout
    ensures s.connectionTimeout.Some? ==> c.connectionTimeoutSeconds == s.connectionTimeout.value
    ensures c.numRetries == 1
  {
    ClientSettings(s.host, s.port, s.protocol, s.apiKey,
      if s.connectionTimeout.Some? then s.connectionTimeout.value else DefaultConnectionTimeout, 1)
  }

  /** The client after it has been needed once: the existing one, or a new one. */
  function ClientAfter(client: Option<ClientSettings>, s: Settings): ClientSettings
  {
    if client.Some? then client.value else ClientFor(s)
  }

  /** One selector of `_get_content_element`: a match decides, otherwise the next selector is tried. */
  lemma ContentElementStep(root: Element, selectors: seq<string>, i: nat, matches: (string, Element) -> bool)
    requires i < |selectors|
    ensures var found := SelectOne(root, selectors[i], matches);
            ContentElement(root, selectors[i..], matches) ==
              if found.Some? then found else ContentElement(root, selectors[i + 1..], matches)
  {
    assert selectors[i..][0] == selectors[i];
    assert selectors[i..][1..] == selectors[i + 1..];
  }

  /** `TypesenseBackend`. */
  class Backend {
    const app: Settings
    const name: string
    const collectionName: string
    var client: Option<ClientSettings>
    var serverAvailable: Option<bool>
    ghost var trace: seq<Event>

    constructor(app: Settings)
      ensures this.app == app && name == "typesense" && collectionName == app.collectionName
      ensures client.None? && serverAvailable.None? && trace == []
    {
      this.app := app;
      name := "typesense";
      collectionName := app.collectionName;
      client := None;
      serverAvailable := None;
      trace := [];
    }

    /** The `client` property: built on first use, then reused. */
    method Client() returns (c: ClientSettings)
      modifies this
      ensures c == ClientAfter(old(client), app) && client == Some(c)
      ensures old(client).Some? ==> c == old(client).value
      ensures serverAvailable == old(serverAvailable) && trace == old(trace)
    {
      if client.None? {
        client := Some(ClientFor(app));
      }
      c := client.value;
    }

    /** One health check through the client. */
    method ProbeHealth(server: Server, attempt: nat) returns (probe: Probe)
      modifies this
      ensures probe == server.health(attempt) && trace == old(trace) + [HealthCheck(attempt)]
      ensures client == Some(ClientAfter(old(client), app)) && serverAvailable == old(serverAvailable)
    {
      var c := Client();
      probe := server.health(attempt);
      trace := trace + [HealthCheck(attempt)];
    }

    /**
     * `_check_connection`: the cached verdict if there is one; otherwise up
     * to three health checks with growing sleeps between them. A verdict is
     * cached; an escaping exception leaves the cache empty.
     */
    method CheckConnection(server: Server) returns (r: Result<bool>)
      modifies this
      ensures var run := ConnectionRun(old(serverAvailable), server.health);
              r == run.result && trace == old(trace) + run.events
      ensures r.Returned? ==> serverAvailable == Some(r.value)
      ensures r.Raised? ==> serverAvailable == old(serverAvailable)
      ensures old(serverAvailable).Some? ==> client == old(client)
      ensures old(serverAvailable).None? ==> client == Some(ClientAfter(old(client), app))
    {
      if serverAvailable.Some? {
        return Returned(serverAvailable.value);
      }
      r := ProbeWithRetries(server);
    }

    /** The retry loop of `_check_connection`, entered with nothing cached. */
    method ProbeWithRetries(server: Server) returns (r: Result<bool>)
      requires serverAvailable.None?
      modifies this
      ensures var run := Probing(server.health, 1, InitialBackoff);
              r == run.result && trace == old(trace) + run.events
      ensures r.Returned? ==> serverAvailable == Some(r.value)
      ensures r.Raised? ==> serverAvailable == None
      ensures client == Some(ClientAfter(old(client), app))
    {
      var backoff := InitialBackoff;
      var attempt: nat := 1;
      ghost var whole := Probing(server.health, attempt, backoff);
      while attempt <= MaxRetries
        invariant 1 <= attempt <= MaxRetries + 1
        invariant serverAvailable.None?
        invariant whole.result == Probing(server.health, attempt, backoff).result
        invariant old(trace) + whole.events == trace + Probing(server.health, attempt, backoff).events
        invariant client == if attempt == 1 then old(client) else Some(ClientAfter(old(client), app))
        decreases MaxRetries + 1 - attempt
      {
        ghost var before := trace;
        var probe := ProbeHealth(server, attempt);
        if !Retryable(probe) {
          // healthy: true; a rejected key: false; anything else escapes
          ProbingStops(server.health, attempt, backoff);
          r := if probe == Healthy(true) then Returned(true)
               else if probe.exc.kind == RequestUnauthorized then Returned(false)
               else Raised(probe.exc);
          if r.Returned? {
            serverAvailable := Some(r.value);
          }
          return;
        }
        ProbingAdvances(server.health, attempt, backoff, old(trace), before, whole);
        if attempt < MaxRetries {
          trace := trace + [Sleep(backoff)];
          backoff := backoff * BackoffMultiplier;
        }
        attempt := attempt + 1;
      }
      assert trace + [] == trace;
      serverAvailable := Some(false);
      return Returned(false);
    }

    /** `_ensure_collection`. */
    method EnsureCollection(server: Server) returns (r: Outcome<Exc>)
      modifies this
      ensures var run := EnsureRun(app.dropExisting, collectionName, server);
              r == run.0 && trace == old(trace) + run.1
      ensures serverAvailable == old(serverAvailable) && client == Some(ClientAfter(old(client), app))
    {
      var c := Client();
      if app.dropExisting {
        var dropped := server.drop(collectionName);
        trace := trace + [DropCollection(collectionName)];
        if dropped.Fail? && dropped.error.kind != ObjectNotFound {
          return Fail(dropped.error);
        }
      }
      var schema := SchemaFor(collectionName);
      var created := server.create(schema);
      trace := trace + [CreateCollection(schema)];
      if created.Fail? && !AlreadyExists(created.error) {
        return Fail(created.error);
      }
      return Pass;
    }

    /** `_get_content_element`: tries the configured selectors, or the fallback list, in order. */
    method GetContentElement(root: Element, matches: (string, Element) -> bool) returns (r: Option<Visit>)
      ensures r == ContentElement(root, ContentSelectors(app.contentSelectors), matches)
    {
      var selectors := if app.contentSelectors != [] then app.contentSelectors else FallbackSelectors;
      ghost var goal := ContentElement(root, selectors, matches);
      var i := 0;
      while i < |selectors|
        invariant 0 <= i <= |selectors|
        invariant ContentElement(root, selectors[i..], matches) == goal
      {
        var element := SelectOne(root, selectors[i], matches);
        ContentElementStep(root, selectors, i, matches);
        if element.Some? {
          return element;
        }
        i := i + 1;
      }
      assert selectors[i..] == [];
      return None;
    }

    /**
     * One step of the walk: the element's effect on the hierarchy, which is
     * updated in place, and the document it yields, if any.
     */
    method Walk(hierarchy: map<string, string>, v: Visit, urlBase: string, info: BuildInfo)
      returns (updated: map<string, string>, emitted: seq<SearchDocument>)
      requires LevelKeys <= hierarchy.Keys
      ensures updated == Update(hierarchy, v.elem)
      ensures emitted == Emitted(updated, v, urlBase, info)
    {
      var text := v.elem.text;
      var tag := v.elem.tag;
      updated := hierarchy;
      emitted := [];
      if text == "" {
        return;
      }
      if tag == "h1" {
        updated := updated["lvl0" := text]["lvl1" := ""]["lvl2" := ""]["lvl3" := ""];
        emitted := [CreateDocument(updated, "", urlBase, v, "lvl0", info)];
      } else if tag == "h2" {
        updated := updated["lvl1" := text]["lvl2" := ""]["lvl3" := ""];
        emitted := [CreateDocument(updated, "", urlBase, v, "lvl1", info)];
      } else if tag == "h3" {
        updated := updated["lvl2" := text]["lvl3" := ""];
        emitted := [CreateDocument(updated, "", urlBase, v, "lvl2", info)];
      } else if tag == "h4" {
        updated := updated["lvl3" := text];
        emitted := [CreateDocument(updated, "", urlBase, v, "lvl3", info)];
      } else if tag == "p" || tag == "li" {
        emitted := [CreateDocument(updated, text, urlBase, v, "content", info)];
      }
      EmittedByTag(updated, v, urlBase, info);
    }

    /**
     * `_extract_documents`: walks the content root keeping the heading
     * hierarchy in a dictionary it updates in place, and collects one
     * document per non-empty heading, paragraph or list item.
     */
    method ExtractDocuments(file: HtmlFile, matches: (string, Element) -> bool, info: BuildInfo)
      returns (docs: seq<SearchDocument>)
      ensures docs == PageDocuments(file, ContentSelectors(app.contentSelectors), matches, info)
    {
      if file.parsed.None? {
        return [];
      }
      var content := GetContentElement(file.parsed.value, matches);
      if content.None? {
        return [];
      }
      var urlBase := file.urlBase;
      var hierarchy := InitialHierarchy;
      var walked := FindAll(content.value.elem, content.value.ancestors, WalkedTags);
      assert walked == WalkedElements(file, ContentSelectors(app.contentSelectors), matches);
      docs := [];
      var i := 0;
      while i < |walked|
        invariant 0 <= i <= |walked|
        invariant hierarchy == HierarchyAfter(walked[..i])
        invariant docs == DocumentsOf(walked[..i], urlBase, info)
      {
        WalkStep(walked, i, urlBase, info);
        var emitted;
        hierarchy, emitted := Walk(hierarchy, walked[i], urlBase, info);
        docs := docs + emitted;
        i := i + 1;
      }
      assert walked[..i] == walked;
    }

    /** The `documents.extend(...)` loop of `index_all`: every file's documents, in file order. */
    method CollectDocuments(files: seq<HtmlFile>, matches: (string, Element) -> bool, info: BuildInfo)
      returns (documents: seq<SearchDocument>)
      ensures documents == SiteDocuments(files, ContentSelectors(app.contentSelectors), matches, info)
    {
      documents := [];
      var i := 0;
      while i < |files|
        invariant 0 <= i <= |files|
        invariant documents == SiteDocuments(files[..i], ContentSelectors(app.contentSelectors), matches, info)
      {
        var page := ExtractDocuments(files[i], matches, info);
        assert files[..i + 1][..i] == files[..i];
        documents := documents + page;
        i := i + 1;
      }
      assert files[..i] == files;
    }

    /** The `error_count` loop of `index_all`. */
    method CountFailures(items: seq<ImportItem>) returns (errorCount: nat)
      ensures errorCount == FailedCount(items)
    {
      errorCount := 0;
      var j := 0;
      while j < |items|
        invariant 0 <= j <= |items|
        invariant errorCount == FailedCount(items[..j])
      {
        assert items[..j + 1][..j] == items[..j];
        if items[j].success == Some(false) {
          errorCount := errorCount + 1;
        }
        j := j + 1;
      }
      assert items[..j] == items;
    }

    /** The bulk import of `index_all`, with its handling of a failed request. */
    method Import(server: Server, documents: seq<SearchDocument>) returns (r: Result<nat>)
      modifies this
      ensures var imported := server.bulkImport(collectionName, documents);
              r == ImportResult(imported, |documents|) && trace == old(trace) + ImportEvents(collectionName, documents, imported)
      ensures serverAvailable == old(serverAvailable) && client == Some(ClientAfter(old(client), app))
    {
      var c := Client();
      var imported := server.bulkImport(collectionName, documents);
      trace := trace + [BulkImport(collectionName, |documents|)];
      if imported.ImportRaised? {
        if IsOSError(imported.exc.kind) {
          return Returned(0);
        }
        return Raised(imported.exc);
      }
      var errorCount := CountFailures(imported.items);
      if errorCount > 0 {
        trace := trace + [ImportFailures(errorCount)];
      }
      return Returned(|documents|);
    }

    /**
     * `index_all`: checks the connection, sets up the collection, extracts
     * the documents of every file in order, and imports them all at once.
     */
    method IndexAll(server: Server, files: seq<HtmlFile>, matches: (string, Element) -> bool, hash: string -> string)
      returns (r: Result<nat>)
      modifies this
      ensures var docs := SiteDocuments(files, ContentSelectors(app.contentSelectors), matches,
                                        BuildInfo(app.docVersion, app.language, hash));
              var run := IndexAllRun(app.dropExisting, collectionName, old(serverAvailable), server, docs);
              r == run.result && trace == old(trace) + run.events
      ensures var verdict := ConnectionRun(old(serverAvailable), server.health).result;
              (verdict.Returned? ==> serverAvailable == Some(verdict.value)) &&
              (verdict.Raised? ==> serverAvailable == old(serverAvailable))
      ensures old(serverAvailable) == Some(false) ==> client == old(client)
      ensures old(serverAvailable) != Some(false) ==> client == Some(ClientAfter(old(client), app))
    {
      var connected := CheckConnection(server);
      if connected.Raised? {
        return Raised(connected.exc);
      }
      if !connected.value {
        return Returned(0);
      }
      ghost var conn := ConnectionRun(old(serverAvailable), server.health);
      assert trace == old(trace) + conn.events;
      var info := BuildInfo(app.docVersion, app.language, hash);
      ghost var docs := SiteDocuments(files, ContentSelectors(app.contentSelectors), matches, info);
      ghost var rest := ConnectedRun(app.dropExisting, collectionName, server, docs);
      assert IndexAllRun(app.dropExisting, collectionName, old(serverAvailable), server, docs) ==
             Run(rest.result, conn.events + rest.events);
      r := IndexConnected(server, files, matches, info);
      Assoc(old(trace), conn.events, rest.events);
    }

    /** The part of `index_all` after a healthy connection check. */
    method IndexConnected(server: Server, files: seq<HtmlFile>, matches: (string, Element) -> bool, info: BuildInfo)
      returns (r: Result<nat>)
      modifies this
      ensures var docs := SiteDocuments(files, ContentSelectors(app.contentSelectors), matches, info);
              var run := ConnectedRun(app.dropExisting, collectionName, server, docs);
              r == run.result && trace == old(trace) + run.events
      ensures serverAvailable == old(serverAvailable) && client == Some(ClientAfter(old(client), app))
    {
      ghost var setUp := EnsureRun(app.dropExisting, collectionName, server);
      var ensured := EnsureCollection(server);
      if ensured.Fail? {
        return Raised(ensured.error);
      }
      var documents := CollectDocuments(files, matches, info);
      if documents == [] {
        return Returned(0);
      }
      r := Import(server, documents);
      Assoc(old(trace), setUp.1, ImportEvents(collectionName, documents, server.bulkImport(collectionName, documents)));
    }

    /** `is_available`: the connection check itself. */
    method IsAvailable(server: Server) returns (r: Result<bool>)
      modifies this
      ensures var run := ConnectionRun(old(serverAvailable), server.health);
              r == run.result && trace == old(trace) + run.events
      ensures r.Returned? ==> serverAvailable == Some(r.value)
      ensures r.Raised? ==> serverAvailable == old(serverAvailable)
      ensures old(serverAvailable).Some? ==> client == old(client)
      ensures old(serverAvailable).None? ==> client == Some(ClientAfter(old(client), app))
    {
      r := CheckConnection(server);
    }

    /** The browser assets the backend ships, with their load priorities. */
    function JsFiles(): (files: seq<(string, int)>)
      ensures files == [("typesense-docsearch.js", 500), ("typesense-init.js", 501)]
    {
      [("typesense-docsearch.js", 500), ("typesense-init.js", 501)]
    }

    function CssFiles(): (files: seq<string>)
      ensures files == ["typesense-docsearch.css"]
    {
      ["typesense-docsearch.css"]
    }

    /**
     * `get_config_script`: the same ten entries as the page template
     * writes, without the `<script>` wrapper; the key it publishes is the
     * search key.
     */
    function ConfigScript(): (r: Script)
      ensures r.Assignment? && r.global == TypesenseGlobal && !r.tagged
      ensures r.entries == TypesenseEntries(app, JString(app.port))
      ensures r.entries[4] == ("apiKey", JString(app.searchApiKey))
    {
      Assignment(TypesenseGlobal, TypesenseEntries(app, JString(app.port)), false)
    }
  }
}
