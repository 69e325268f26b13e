/**
 * The configuration objects the extension hands to the browser, as the
 * key/value pairs they contain. The exact JSON text (indentation, escaping)
 * is not modelled; a script is the global it assigns and its entries.
 */
module Scripts {
  import opened Wrappers
  import opened Text
  import opened Config

  /** A JSON value as `json.dumps` would write it for the settings involved. */
  datatype JsonValue = JString(s: string) | JInt(i: int) | JBool(b: bool) | JRaw(repr: string)

  type Entry = (string, JsonValue)

  /**
   * An inline configuration script: `NoScript` is the empty string, an
   * `Assignment` is `<global> = {entries};`, wrapped in a `<script>` tag when
   * `tagged`.
   */
  datatype Script = NoScript | Assignment(global: string, entries: seq<Entry>, tagged: bool)

  const TypesenseGlobal := "window.TYPESENSE_CONFIG"
  const PagefindGlobal := "window.PAGEFIND_CONFIG"

  /** How a numeric setting is serialised to JSON. */
  function NumJson(v: NumSetting): JsonValue
  {
    match v
    case IntValue(n) => JInt(n)
    case BoolValue(b) => JBool(b)
    case OtherValue(repr) => JRaw(repr)
  }

  /** Python's `str()` of a numeric setting. */
  function NumText(v: NumSetting): string
  {
    match v
    case IntValue(n) => IntToString(n)
    case BoolValue(b) => if b then "True" else "False"
    case OtherValue(repr) => repr
  }

  function EntryKeys(entries: seq<Entry>): (keys: seq<string>)
    ensures |keys| == |entries| && forall i :: 0 <= i < |entries| ==> keys[i] == entries[i].0
  {
    if entries == [] then [] else [entries[0].0] + EntryKeys(entries[1..])
  }


  /**
   * The Typesense search configuration: ten entries in a fixed order. The
   * `port` value is passed in because the three places that build this
   * object write it differently (as a string or as an integer).
   */
  function TypesenseEntries(s: Settings, port: JsonValue): (entries: seq<Entry>)
    ensures EntryKeys(entries) == ["collectionName", "host", "port", "protocol", "apiKey",
                                   "placeholder", "numTypos", "perPage", "filterBy", "container"]
  {
    [("collectionName", JString(s.collectionName)),
     ("host", JString(s.host)),
     ("port", port),
     ("protocol", JString(s.protocol)),
     ("apiKey", JString(s.searchApiKey)),
     ("placeholder", JString(s.placeholder)),
     ("numTypos", NumJson(s.numTypos)),
     ("perPage", NumJson(s.perPage)),
     ("filterBy", JString(s.filterBy)),
     ("container", JString(s.container))]
  }

  /** The Pagefind UI configuration: container, placeholder and the index location. */
  function PagefindEntries(s: Settings, basePath: string): (entries: seq<Entry>)
    ensures EntryKeys(entries) == ["container", "placeholder", "basePath"]
  {
    [("container", JString(s.container)),
     ("placeholder", JString(s.placeholder)),
     ("basePath", JString(basePath))]
  }

  /**
   * The browser-facing Typesense configuration carries the search-only key
   * and is the same whatever the admin key is: the admin key never reaches
   * a page.
   */
  lemma AdminKeyNeverPublished(s: Settings, port: JsonValue, adminKey: string)
    ensures TypesenseEntries(s, port)[4] == ("apiKey", JString(s.searchApiKey))
    ensures TypesenseEntries(s.(apiKey := adminKey), port) == TypesenseEntries(s, port)
  {
  }
}
