/**
 * The host application, seen from the plugin: an object whose `settings`
 * mapping the plugin reads and updates in place.
 */
module Framework {
  import opened Settings

  class Application {
    var settings: map<string, Value>

    constructor (settings: map<string, Value>)
      ensures this.settings == settings
    {
      this.settings := settings;
    }
  }
}
