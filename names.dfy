/** The options and transients the plugin keeps in WordPress, each with the name it is stored
    under. The models below index the option and transient stores by these names. */
module Names {

  /** The plugin's options. */
  datatype OptionName =
    | Connected | AccessToken | RefreshToken | StoreId | TokenExpiry | Platform | PlatformUrl
    | ShipkiaUrl | ConnectedDomain | AppUrl | PluginSecret
    | TrackingEnabled | ButtonText | NewTab

  /** The option's name in the options table. */
  function OptionKey(n: OptionName): string
  {
    match n
    case Connected => "shipkia_connected"
    case AccessToken => "shipkia_access_token"
    case RefreshToken => "shipkia_refresh_token"
    case StoreId => "shipkia_store_id"
    case TokenExpiry => "shipkia_token_expiry"
    case Platform => "shipkia_platform"
    case PlatformUrl => "shipkia_platform_url"
    case ShipkiaUrl => "shipkia_shipkia_url"
    case ConnectedDomain => "shipkia_connected_domain"
    case AppUrl => "shipkia_app_url"
    case PluginSecret => "shipkia_plugin_secret"
    case TrackingEnabled => "shipkia_tracking_enabled"
    case ButtonText => "shipkia_tracking_button_text"
    case NewTab => "shipkia_tracking_new_tab"
  }

  /** The plugin's transients. */
  datatype TransientName =
    | AutoConnectChecked | AutoConnectCheckedSettings | ConnectionVerified | TriggerAutoConnect
    | ConnectionError

  /** The transient's name. */
  function TransientKey(n: TransientName): string
  {
    match n
    case AutoConnectChecked => "shipkia_auto_connect_checked"
    case AutoConnectCheckedSettings => "shipkia_auto_connect_checked_settings"
    case ConnectionVerified => "shipkia_connection_verified"
    case TriggerAutoConnect => "shipkia_trigger_auto_connect"
    case ConnectionError => "shipkia_connection_error"
  }
}
