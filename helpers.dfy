/** Shipkia_Helpers: settings read with their defaults, and an order's tracking URL. */
module Helpers {
  import opened Php
  import opened WordPress
  import Names

  const TRACKING_ENABLED := Names.TrackingEnabled
  const BUTTON_TEXT := Names.ButtonText
  const NEW_TAB := Names.NewTab
  const DEFAULT_BUTTON_TEXT := "Track"

  const TRACKING_URL_META := "shipkia_tracking_url"
  const AWB_META := "shipkia_awb_number"
  const STATUS_META := "shipkia_delivery_status"

  /** get_tracking_url: the order's `shipkia_tracking_url` meta when it is not empty(), else "". */
  function GetTrackingUrl(orders: map<int, Order>, orderId: int): (url: string)
    ensures orderId !in orders ==> url == ""
    ensures orderId in orders && !EmptyString(GetMeta(orders[orderId], TRACKING_URL_META)) ==>
              url == GetMeta(orders[orderId], TRACKING_URL_META)
    ensures orderId in orders && EmptyString(GetMeta(orders[orderId], TRACKING_URL_META)) ==> url == ""
    ensures url == "" || !EmptyString(url)
  {
    match FindOrder(orders, orderId)
    case None => ""
    case Some(order) =>
      var u := GetMeta(order, TRACKING_URL_META);
      if !EmptyString(u) then u else ""
  }

  /** is_tracking_enabled: the option is exactly 'yes'; an absent option counts as 'yes'. */
  function IsTrackingEnabled(options: Options): (enabled: bool)
    ensures enabled <==> TRACKING_ENABLED !in options || options[TRACKING_ENABLED] == Str("yes")
  {
    Str("yes") == GetOption(options, TRACKING_ENABLED, Str("yes"))
  }

  /** get_button_text: the stored text when it is not empty(), otherwise 'Track'; never empty. */
  function GetButtonText(options: Options): (text: Value)
    ensures Truthy(text)
    ensures BUTTON_TEXT in options && Truthy(options[BUTTON_TEXT]) ==> text == options[BUTTON_TEXT]
    ensures !(BUTTON_TEXT in options && Truthy(options[BUTTON_TEXT])) ==> text == Str(DEFAULT_BUTTON_TEXT)
  {
    var t := GetOption(options, BUTTON_TEXT, Str(DEFAULT_BUTTON_TEXT));
    if Truthy(t) then t else Str(DEFAULT_BUTTON_TEXT)
  }

  /** open_in_new_tab: the option is exactly 'yes'; an absent option counts as 'yes'. */
  function OpenInNewTab(options: Options): (newTab: bool)
    ensures newTab <==> NEW_TAB !in options || options[NEW_TAB] == Str("yes")
  {
    Str("yes") == GetOption(options, NEW_TAB, Str("yes"))
  }
}
