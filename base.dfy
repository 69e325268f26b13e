/** The behaviour every search backend inherits unless it overrides it. */
module Base {
  import opened Config
  import opened Scripts

  /** `SearchBackend`: holds the application's configuration and a name. */
  class SearchBackend {
    const app: Settings
    const name: string := "base"

    constructor(app: Settings)
      ensures this.app == app && name == "base"
    {
      this.app := app;
    }

    /** By default a backend injects no inline configuration. */
    function ConfigScript(): (r: Script)
      ensures r == NoScript
    {
      NoScript
    }

    /** By default a backend is always ready. */
    function IsAvailable(): (r: bool)
      ensures r
    {
      true
    }
  }
}
