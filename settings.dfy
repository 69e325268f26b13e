/**
 * The extension's configuration values (the `typesense_*` settings of a
 * Sphinx project), the rule that resolves the `auto` backend, and the
 * validation run when the configuration is initialised.
 */
module Config {
  import opened Wrappers

  /**
   * A numeric setting as a project may write it. Python's `bool` is a
   * subclass of `int`, so `True` and `False` pass an `isinstance(_, int)`
   * test as 1 and 0; any other value is not an integer.
   */
  datatype NumSetting = IntValue(n: int) | BoolValue(b: bool) | OtherValue(repr: string)

  predicate IsInteger(v: NumSetting)
  {
    !v.OtherValue?
  }

  function IntegerOf(v: NumSetting): int
    requires IsInteger(v)
  {
    if v.IntValue? then v.n else if v.b then 1 else 0
  }

  /**
   * The settings the extension reads. Strings are "" where the project
   * leaves a value empty; `language` is Sphinx's own setting ("" for none).
   */
  datatype Settings = Settings(
    backend: string,
    host: string,
    port: string,
    protocol: string,
    apiKey: string,
    searchApiKey: string,
    collectionName: string,
    docVersion: string,
    placeholder: string,
    numTypos: NumSetting,
    perPage: NumSetting,
    container: string,
    filterBy: string,
    contentSelectors: seq<string>,
    enableIndexing: bool,
    dropExisting: bool,
    connectionTimeout: Option<int>,
    language: string,
    htmlTheme: Option<string>,
    replaceSearch: Option<bool>)

  /** The two environment variables the extension consults ("" when unset). */
  datatype Environment = Environment(apiKey: string, searchApiKey: string)

  const ValidBackends: set<string> := {"auto", "typesense", "pagefind"}
  const ValidProtocols: set<string> := {"http", "https"}
  const MinNumTypos := 0
  const MaxNumTypos := 2

  const DefaultContentSelectors: seq<string> :=
    [".wy-nav-content-wrap", "article.bd-article", ".body", "article[role=main]", "main"]

  /** The registered defaults of every setting the extension declares. */
  const DefaultSettings := Settings(
    "auto", "localhost", "8108", "http", "", "",
    "sphinx_docs", "", "Search documentation...", IntValue(2), IntValue(10),
    "#typesense-search", "", DefaultContentSelectors, true, false,
    None, "", None, None)

  /**
   * `get_effective_backend`: `auto` becomes `typesense` when an admin key is
   * configured or present in the environment and `pagefind` otherwise; any
   * other value is passed through unchanged, valid or not.
   */
  function EffectiveBackend(s: Settings, env: Environment): (r: string)
    ensures s.backend == "auto" ==> (r == "typesense" <==> s.apiKey != "" || env.apiKey != "")
    ensures s.backend == "auto" ==> r in {"typesense", "pagefind"}
    ensures s.backend != "auto" ==> r == s.backend
  {
    if s.backend == "auto" then
      if s.apiKey != "" || env.apiKey != "" then "typesense" else "pagefind"
    else s.backend
  }

  /** The errors validation raises, each with the offending value. */
  datatype ConfigError =
    | InvalidBackend(backend: string)
    | MissingRequired(missing: seq<Required>)
    | InvalidProtocol(protocol: string)
    | InvalidNumTypos(numTypos: NumSetting)
    | InvalidPerPage(perPage: NumSetting)

  /** The first failure of two checks run in order. */
  function Then(first: Outcome<ConfigError>, second: Outcome<ConfigError>): (r: Outcome<ConfigError>)
    ensures r.Pass? <==> first.Pass? && second.Pass?
    ensures first.Fail? ==> r == first
  {
    if first.Fail? then first else second
  }

  /** `_validate_backend`. */
  function ValidateBackend(s: Settings): (r: Outcome<ConfigError>)
    ensures r.Fail? <==> s.backend !in ValidBackends
    ensures r.Fail? ==> r.error == InvalidBackend(s.backend)
  {
    if s.backend !in ValidBackends then Fail(InvalidBackend(s.backend)) else Pass
  }

  /** `_validate_protocol`. */
  function ValidateProtocol(s: Settings): (r: Outcome<ConfigError>)
    ensures r.Fail? <==> s.protocol !in ValidProtocols
    ensures r.Fail? ==> r.error == InvalidProtocol(s.protocol)
  {
    if s.protocol !in ValidProtocols then Fail(InvalidProtocol(s.protocol)) else Pass
  }

  predicate NumTyposValid(v: NumSetting)
  {
    IsInteger(v) && MinNumTypos <= IntegerOf(v) <= MaxNumTypos
  }

  predicate PerPageValid(v: NumSetting)
  {
    IsInteger(v) && IntegerOf(v) >= 1
  }

  /** `_validate_numeric_settings`: typo tolerance is checked before page size. */
  function ValidateNumericSettings(s: Settings): (r: Outcome<ConfigError>)
    ensures r.Pass? <==> NumTyposValid(s.numTypos) && PerPageValid(s.perPage)
    ensures !NumTyposValid(s.numTypos) ==> r == Fail(InvalidNumTypos(s.numTypos))
    ensures NumTyposValid(s.numTypos) && !PerPageValid(s.perPage) ==> r == Fail(InvalidPerPage(s.perPage))
  {
    if !NumTyposValid(s.numTypos) then Fail(InvalidNumTypos(s.numTypos))
    else if !PerPageValid(s.perPage) then Fail(InvalidPerPage(s.perPage))
    else Pass
  }

  /** `_check_key_security`: whether the identical-keys warning is logged (it never raises). */
  function KeySecurityWarning(apiKey: string, searchApiKey: string): (warn: bool)
    ensures warn <==> apiKey != "" && apiKey == searchApiKey
  {
    apiKey != "" && searchApiKey != "" && apiKey == searchApiKey
  }

  /** `configured or os.environ.get(NAME, "")`. */
  function ResolveKey(configured: string, fromEnv: string): (r: string)
    ensures configured != "" ==> r == configured
    ensures configured == "" ==> r == fromEnv
  {
    if configured != "" then configured else fromEnv
  }

  /** The configuration after validation has written the resolved keys back. */
  function Resolved(s: Settings, env: Environment): (r: Settings)
    ensures r == s.(apiKey := r.apiKey, searchApiKey := r.searchApiKey)
    ensures r.apiKey == ResolveKey(s.apiKey, env.apiKey)
    ensures r.searchApiKey == ResolveKey(s.searchApiKey, env.searchApiKey)
  {
    s.(apiKey := ResolveKey(s.apiKey, env.apiKey), searchApiKey := ResolveKey(s.searchApiKey, env.searchApiKey))
  }

  /** The values `_validate_required_settings` insists on. */
  datatype Required = Host | Port | Protocol | AdminKey | SearchKey

  /** How the error message names each missing value. */
  function RequiredLabel(r: Required): string
  {
    match r
    case Host => "typesense_host"
    case Port => "typesense_port"
    case Protocol => "typesense_protocol"
    case AdminKey => "typesense_api_key (or TYPESENSE_API_KEY environment variable)"
    case SearchKey => "typesense_search_api_key (or TYPESENSE_SEARCH_API_KEY environment variable)"
  }

  /** The order in which the values are checked and reported. */
  const RequiredNames: seq<Required> := [Host, Port, Protocol, AdminKey, SearchKey]

  /** Which of the required values are present, position by position with `RequiredNames`. */
  function PresentFlags(s: Settings, apiKey: string, searchApiKey: string): (r: seq<bool>)
    ensures |r| == |RequiredNames|
  {
    [s.host != "", s.port != "", s.protocol != "", apiKey != "", searchApiKey != ""]
  }

  /** The first `k` names whose flag is false, in their original order. */
  function Absentees<T>(names: seq<T>, present: seq<bool>, k: nat): (r: seq<T>)
    requires k <= |names| == |present|
    ensures |r| <= k
  {
    if k == 0 then []
    else Absentees(names, present, k - 1) + (if present[k - 1] then [] else [names[k - 1]])
  }

  /** `a` is `b` with some elements left out (order kept). */
  predicate IsSubsequence<T(==)>(a: seq<T>, b: seq<T>)
  {
    if a == [] then true
    else if b == [] then false
    else if a[|a| - 1] == b[|b| - 1] then IsSubsequence(a[..|a| - 1], b[..|b| - 1])
    else IsSubsequence(a, b[..|b| - 1])
  }

  function MissingSettings(s: Settings, apiKey: string, searchApiKey: string): seq<Required>
  {
    Absentees(RequiredNames, PresentFlags(s, apiKey, searchApiKey), |RequiredNames|)
  }

  /** What `_validate_required_settings` decides. */
  function RequiredCheck(s: Settings, apiKey: string, searchApiKey: string): Outcome<ConfigError>
  {
    var missing := MissingSettings(s, apiKey, searchApiKey);
    if missing == [] then Pass else Fail(MissingRequired(missing))
  }

  /** Every name whose value is empty is reported. */
  lemma {:induction false} AbsenteesComplete<T>(names: seq<T>, present: seq<bool>, k: nat)
    requires k <= |names| == |present|
    ensures forall i :: 0 <= i < k && !present[i] ==> names[i] in Absentees(names, present, k)
  {
    if k > 0 {
      AbsenteesComplete(names, present, k - 1);
    }
  }

  /** Only names whose value is empty are reported. */
  lemma {:induction false} AbsenteesSound<T>(names: seq<T>, present: seq<bool>, k: nat)
    requires k <= |names| == |present|
    ensures forall x :: x in Absentees(names, present, k) ==> exists i :: 0 <= i < k && names[i] == x && !present[i]
  {
    if k > 0 {
      AbsenteesSound(names, present, k - 1);
      var prev := Absentees(names, present, k - 1);
      forall x | x in Absentees(names, present, k)
        ensures exists i :: 0 <= i < k && names[i] == x && !present[i]
      {
        if x !in prev {
          assert names[k - 1] == x && !present[k - 1];
        }
      }
    }
  }

  /** The reported names keep the order in which the names are listed. */
  lemma {:induction false} AbsenteesOrdered<T>(names: seq<T>, present: seq<bool>, k: nat)
    requires k <= |names| == |present|
    ensures IsSubsequence(Absentees(names, present, k), names[..k])
  {
    if k > 0 {
      AbsenteesOrdered(names, present, k - 1);
      var prev := Absentees(names, present, k - 1);
      var r := Absentees(names, present, k);
      assert names[..k][..k - 1] == names[..k - 1];
      if present[k - 1] {
        assert r == prev;
        SubsequenceExtend(prev, names[..k - 1], names[k - 1]);
        assert names[..k - 1] + [names[k - 1]] == names[..k];
      } else {
        assert r[..|r| - 1] == prev;
      }
    }
  }

  /** Appending to the longer sequence keeps a subsequence a subsequence. */
  lemma {:induction false} SubsequenceExtend<T>(a: seq<T>, b: seq<T>, y: T)
    requires IsSubsequence(a, b)
    ensures IsSubsequence(a, b + [y])
    decreases |b|, 1
  {
    var b1 := b + [y];
    assert b1[..|b1| - 1] == b;
    if a != [] && a[|a| - 1] == y {
      SubsequenceDrop(a, b);
    }
  }

  /** Dropping the last element of a subsequence keeps it a subsequence. */
  lemma {:induction false} SubsequenceDrop<T>(a: seq<T>, b: seq<T>)
    requires a != [] && IsSubsequence(a, b)
    ensures IsSubsequence(a[..|a| - 1], b)
    decreases |b|, 0
  {
    var a' := a[..|a| - 1];
    var b' := b[..|b| - 1];
    assert b' + [b[|b| - 1]] == b;
    if a[|a| - 1] == b[|b| - 1] {
      SubsequenceExtend(a', b', b[|b| - 1]);
    } else {
      SubsequenceDrop(a, b');
      SubsequenceExtend(a', b', b[|b| - 1]);
    }
  }

  /**
   * The required-settings check fails exactly when one of the five values
   * is empty.
   */
  lemma RequiredCheckFailsIffEmpty(s: Settings, apiKey: string, searchApiKey: string)
    ensures RequiredCheck(s, apiKey, searchApiKey).Fail? <==>
              s.host == "" || s.port == "" || s.protocol == "" || apiKey == "" || searchApiKey == ""
  {
    var flags := PresentFlags(s, apiKey, searchApiKey);
    var m := MissingSettings(s, apiKey, searchApiKey);
    AbsenteesComplete(RequiredNames, flags, 5);
    AbsenteesSound(RequiredNames, flags, 5);
    if m != [] {
      assert m[0] in m;
    }
    if s.host == "" || s.port == "" || s.protocol == "" || apiKey == "" || searchApiKey == "" {
      var i := if s.host == "" then 0 else if s.port == "" then 1 else if s.protocol == "" then 2
               else if apiKey == "" then 3 else 4;
      assert !flags[i];
    }
  }

  /**
   * The error names exactly the empty values, in the order in which they
   * are checked.
   */
  lemma MissingSettingsExact(s: Settings, apiKey: string, searchApiKey: string)
    ensures forall i :: 0 <= i < |RequiredNames| ==>
              (RequiredNames[i] in MissingSettings(s, apiKey, searchApiKey) <==> !PresentFlags(s, apiKey, searchApiKey)[i])
    ensures IsSubsequence(MissingSettings(s, apiKey, searchApiKey), RequiredNames)
  {
    var flags := PresentFlags(s, apiKey, searchApiKey);
    AbsenteesComplete(RequiredNames, flags, 5);
    AbsenteesSound(RequiredNames, flags, 5);
    AbsenteesOrdered(RequiredNames, flags, 5);
    assert RequiredNames[..5] == RequiredNames;
    var m := MissingSettings(s, apiKey, searchApiKey);
    forall i | 0 <= i < 5 && RequiredNames[i] in m
      ensures !flags[i]
    {
      var j :| 0 <= j < 5 && RequiredNames[j] == RequiredNames[i] && !flags[j];
      assert i == j;
    }
  }

  /** `_validate_required_settings`: collects the missing names one check at a time. */
  method ValidateRequiredSettings(s: Settings, apiKey: string, searchApiKey: string) returns (r: Outcome<ConfigError>)
    ensures r == RequiredCheck(s, apiKey, searchApiKey)
  {
    ghost var flags := PresentFlags(s, apiKey, searchApiKey);
    var missing: seq<Required> := [];
    if s.host == "" {
      missing := missing + [Host];
    }
    assert missing == Absentees(RequiredNames, flags, 1);
    if s.port == "" {
      missing := missing + [Port];
    }
    assert missing == Absentees(RequiredNames, flags, 2);
    if s.protocol == "" {
      missing := missing + [Protocol];
    }
    assert missing == Absentees(RequiredNames, flags, 3);
    if apiKey == "" {
      missing := missing + [AdminKey];
    }
    assert missing == Absentees(RequiredNames, flags, 4);
    if searchApiKey == "" {
      missing := missing + [SearchKey];
    }
    assert missing == Absentees(RequiredNames, flags, 5);
    if missing != [] {
      return Fail(MissingRequired(missing));
    }
    return Pass;
  }

  /** What `validate_config` decides for a configuration and environment. */
  function ValidationVerdict(s: Settings, env: Environment): Outcome<ConfigError>
  {
    if ValidateBackend(s).Fail? then ValidateBackend(s)
    else
      var rs := Resolved(s, env);
      if !rs.enableIndexing then Pass
      else if EffectiveBackend(rs, env) == "pagefind" then
        Then(ValidateProtocol(rs), ValidateNumericSettings(rs))
      else
        Then(RequiredCheck(rs, rs.apiKey, rs.searchApiKey), Then(ValidateProtocol(rs), ValidateNumericSettings(rs)))
  }

  /** Writing the resolved keys back does not change which backend is chosen, with or without the environment. */
  lemma ResolvedBackendAgrees(s: Settings, env: Environment)
    ensures EffectiveBackend(Resolved(s, env), env) == EffectiveBackend(s, env)
    ensures EffectiveBackend(Resolved(s, env), Environment("", "")) == EffectiveBackend(s, env)
  {
  }

  /** With indexing disabled only the backend name is checked. */
  lemma DisabledIndexingChecksOnlyBackend(s: Settings, env: Environment)
    requires !s.enableIndexing
    ensures ValidationVerdict(s, env) == ValidateBackend(s)
  {
  }

  /**
   * With the Pagefind backend the keys are never required, but the
   * protocol and numeric settings still are checked.
   */
  lemma PagefindChecksProtocolAndNumbers(s: Settings, env: Environment)
    requires s.backend == "pagefind" && s.enableIndexing
    ensures ValidationVerdict(s, env).Pass? <==> s.protocol in ValidProtocols && NumTyposValid(s.numTypos) && PerPageValid(s.perPage)
    ensures ValidationVerdict(s, env).Fail? ==> !ValidationVerdict(s, env).error.MissingRequired?
  {
  }

  /** With Typesense chosen, an empty search key (in the project and the environment) is a configuration error. */
  lemma TypesenseRequiresSearchKey(s: Settings, env: Environment)
    requires s.backend in ValidBackends && s.enableIndexing
    requires EffectiveBackend(s, env) == "typesense"
    requires s.searchApiKey == "" && env.searchApiKey == ""
    ensures ValidationVerdict(s, env).Fail? && ValidationVerdict(s, env).error.MissingRequired?
  {
    var rs := Resolved(s, env);
    ResolvedBackendAgrees(s, env);
    RequiredCheckFailsIffEmpty(rs, rs.apiKey, rs.searchApiKey);
  }

  /** A configuration that validates with indexing on has a usable protocol and numeric settings. */
  lemma AcceptedMeansUsable(s: Settings, env: Environment)
    requires s.enableIndexing && ValidationVerdict(s, env).Pass?
    ensures s.backend in ValidBackends && s.protocol in ValidProtocols
    ensures NumTyposValid(s.numTypos) && PerPageValid(s.perPage)
    ensures EffectiveBackend(s, env) == "typesense" ==>
              ResolveKey(s.apiKey, env.apiKey) != "" && ResolveKey(s.searchApiKey, env.searchApiKey) != ""
  {
    var rs := Resolved(s, env);
    ResolvedBackendAgrees(s, env);
    if EffectiveBackend(s, env) == "typesense" {
      RequiredCheckFailsIffEmpty(rs, rs.apiKey, rs.searchApiKey);
    }
  }

  /** The registered defaults pass validation when no key is set anywhere (they select Pagefind). */
  lemma DefaultsValidate()
    ensures EffectiveBackend(DefaultSettings, Environment("", "")) == "pagefind"
    ensures ValidationVerdict(DefaultSettings, Environment("", "")) == Pass
  {
  }

  /** The Sphinx configuration object, which validation updates in place. */
  class SphinxConfig {
    var settings: Settings

    constructor(s: Settings)
      ensures settings == s
    {
      settings := s;
    }

    /**
     * `validate_config`: checks the backend, writes the resolved keys back,
     * then applies the checks the chosen backend needs. `warned` says
     * whether the identical-keys warning was logged.
     */
    method ValidateConfig(env: Environment) returns (r: Outcome<ConfigError>, warned: bool)
      modifies this
      ensures r == ValidationVerdict(old(settings), env)
      ensures settings == if ValidateBackend(old(settings)).Fail? then old(settings) else Resolved(old(settings), env)
      ensures warned ==> r.Pass? || r.error.InvalidNumTypos? || r.error.InvalidPerPage?
      ensures warned ==> KeySecurityWarning(settings.apiKey, settings.searchApiKey)
      ensures warned <==>
                ValidateBackend(old(settings)).Pass? && settings.enableIndexing && EffectiveBackend(settings, env) == "typesense" &&
                RequiredCheck(settings, settings.apiKey, settings.searchApiKey).Pass? && ValidateProtocol(settings).Pass? &&
                KeySecurityWarning(settings.apiKey, settings.searchApiKey)
    {
      warned := false;
      r := ValidateBackend(settings);
      if r.Fail? {
        return;
      }
      var apiKey := ResolveKey(settings.apiKey, env.apiKey);
      var searchApiKey := ResolveKey(settings.searchApiKey, env.searchApiKey);
      settings := settings.(apiKey := apiKey, searchApiKey := searchApiKey);
      var effective := EffectiveBackend(settings, env);
      if !settings.enableIndexing {
        return Pass, false;
      }
      if effective == "pagefind" {
        r := ValidateProtocol(settings);
        if r.Fail? {
          return;
        }
        r := ValidateNumericSettings(settings);
        return;
      }
      r := ValidateRequiredSettings(settings, apiKey, searchApiKey);
      if r.Fail? {
        return;
      }
      r := ValidateProtocol(settings);
      if r.Fail? {
        return;
      }
      warned := KeySecurityWarning(apiKey, searchApiKey);
      r := ValidateNumericSettings(settings);
    }
  }
}
