/** Shipkia_My_Account_Actions: the tracking details on a customer's order page and the Track
    action in the customer's list of orders. */
module MyAccountActions {
  import opened Php
  import opened WordPress
  import opened OrderedArray
  import opened Helpers

  const TRACK_ACTION := "shipkia_track"

  /** One entry of the order actions array: `array('url' => …, 'name' => …)`. */
  datatype Action = Action(url: string, name: Value)

  /** add_track_button($actions, $order): when tracking is enabled and the order has a tracking
      URL, the `shipkia_track` action is added, or overwritten in place, with that URL and the
      button text; otherwise the actions come back as they were. */
  method AddTrackButton(options: Options, orders: map<int, Order>, actions: Entries<Action>, order: Order)
    returns (r: Entries<Action>)
    requires UniqueKeys(actions)
    ensures !IsTrackingEnabled(options) ==> r == actions
    ensures GetTrackingUrl(orders, order.id) == "" ==> r == actions
    ensures IsTrackingEnabled(options) && GetTrackingUrl(orders, order.id) != "" ==>
              var url := GetTrackingUrl(orders, order.id);
              && UniqueKeys(r)
              && IndexOf(r, TRACK_ACTION) >= 0
              && r[IndexOf(r, TRACK_ACTION)] == (TRACK_ACTION, Action(url, GetButtonText(options)))
              && Without(r, TRACK_ACTION) == Without(actions, TRACK_ACTION)
              && (HasKey(actions, TRACK_ACTION) ==> IndexOf(r, TRACK_ACTION) == IndexOf(actions, TRACK_ACTION) && |r| == |actions|)
              && (!HasKey(actions, TRACK_ACTION) ==> IndexOf(r, TRACK_ACTION) == |actions| && |r| == |actions| + 1)
  {
    r := actions;
    if !IsTrackingEnabled(options) {
      return;
    }
    var url := GetTrackingUrl(orders, order.id);
    if !EmptyString(url) {
      var action := Action(url, GetButtonText(options));
      PutProperties(actions, TRACK_ACTION, action);
      r := Put(r, TRACK_ACTION, action);
    }
  }

  /** What the order details page shows about the shipment (markup and escaping left out). */
  datatype InfoLine =
    | Heading                    // the details box and its "Shipment Tracking" heading
    | StatusLine(status: string) // "Status: …"
    | AwbNumberLine(awb: string) // "AWB Number: …"

  /** display_tracking_info($order). */
  function DisplayTrackingInfo(options: Options, orders: map<int, Order>, order: Order): (r: seq<InfoLine>)
    ensures !IsTrackingEnabled(options) || GetTrackingUrl(orders, order.id) == "" ==> r == []
  {
    if !IsTrackingEnabled(options) then []
    else
      var url := GetTrackingUrl(orders, order.id);
      if EmptyString(url) then []
      else
        var awb := GetMeta(order, AWB_META);
        var status := GetMeta(order, STATUS_META);
        [Heading]
        + (if !EmptyString(status) then [StatusLine(status)] else [])
        + (if !EmptyString(awb) then [AwbNumberLine(awb)] else [])
  }

  /** With tracking enabled and a tracking URL, the page shows the heading first, then the
      status line exactly when the status is not empty, then the AWB line exactly when the AWB
      number is not empty; nothing else. */
  lemma DisplayTrackingInfoShows(options: Options, orders: map<int, Order>, order: Order)
    requires IsTrackingEnabled(options) && GetTrackingUrl(orders, order.id) != ""
    ensures var status := GetMeta(order, STATUS_META);
      var awb := GetMeta(order, AWB_META);
      var r := DisplayTrackingInfo(options, orders, order);
      && |r| >= 1 && r[0] == Heading
      && (StatusLine(status) in r <==> !EmptyString(status))
      && (AwbNumberLine(awb) in r <==> !EmptyString(awb))
      && (forall i :: 0 <= i < |r| && r[i].StatusLine? ==> i == 1 && r[i] == StatusLine(status))
      && (forall i :: 0 <= i < |r| && r[i].AwbNumberLine? ==> i == |r| - 1 && r[i] == AwbNumberLine(awb))
      && |r| == 1 + (if EmptyString(status) then 0 else 1) + (if EmptyString(awb) then 0 else 1)
  {
    var status := GetMeta(order, STATUS_META);
    var awb := GetMeta(order, AWB_META);
    var a := if !EmptyString(status) then [StatusLine(status)] else [];
    var b := if !EmptyString(awb) then [AwbNumberLine(awb)] else [];
    var r := DisplayTrackingInfo(options, orders, order);
    assert r == [Heading] + a + b;
    assert forall f :: f in r <==> f == Heading || f in a || f in b;
  }
}
