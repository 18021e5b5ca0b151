/** The main plugin file: the plugin's single instance, its Settings link on the Plugins
    screen, and the activation hook. */
module Plugin {
  import opened Php
  import opened WordPress
  import opened AuthSpec
  import ShipkiaAuth

  const SETTINGS_LINK := "<a href=\"admin.php?page=shipkia-settings\">Settings</a>"

  /** Shipkia_Shipment_Tracking; its constructor only registers hooks and loads files. */
  class ShipmentTracking {
    constructor ()
    {
    }

    /** add_plugin_settings_link($links): array_unshift puts the Settings link in front. */
    method AddPluginSettingsLink(links: seq<string>) returns (r: seq<string>)
      ensures |r| == |links| + 1
      ensures r[0] == SETTINGS_LINK
      ensures r[1..] == links
    {
      r := links;
      r := [SETTINGS_LINK] + r;
    }
  }

  /** The class's static `$instance`, which get_instance fills on first use. */
  class Singleton {
    var instance: ShipmentTracking?

    constructor ()
      ensures instance == null
    {
      instance := null;
    }

    /** get_instance(): a new instance on the first call, that same instance on every later one. */
    method GetInstance() returns (p: ShipmentTracking)
      modifies this
      ensures old(instance) == null ==> fresh(p)
      ensures old(instance) != null ==> p == old(instance)
      ensures instance == p
    {
      if instance == null {
        instance := new ShipmentTracking();
      }
      p := instance;
    }

    /** Two calls in a row return one object. */
    method GetInstanceTwice() returns (a: ShipmentTracking, b: ShipmentTracking)
      modifies this
      ensures a == b && instance == a
      ensures old(instance) != null ==> a == old(instance)
    {
      a := GetInstance();
      b := GetInstance();
    }
  }

  /** shipkia_plugin_activated(): auto-sync; when that does not connect, drop the checked mark
      and ask auto_connect_check for a forced check within the next sixty seconds. */
  method PluginActivated(auth: ShipkiaAuth.Auth, clock: Clock)
    modifies auth, auth.wp
    ensures auth.Snapshot() == ActivatedStep(old(auth.Snapshot()), auth.env, clock)
  {
    var synced := auth.AutoSyncOnActivate(clock);
    if !synced {
      auth.wp.DeleteTransient(CHECKED);
      auth.wp.SetTransient(TRIGGER, Bool(true), TRIGGER_TTL, clock.now);
    }
  }
}
