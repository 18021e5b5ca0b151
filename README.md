# Shipkia Shipment Tracking: a Dafny model of the plugin's core

Shipkia Shipment Tracking is a WooCommerce plugin. It connects a store to the Shipkia shipping
platform and shows shipment tracking to the shop owner and to customers. This project models
the plugin's core and proves properties of it:

- **Connection logic** (`Shipkia_Auth`). This covers:
  - the cached API base URL and plugin secret;
  - HMAC signatures over the normalized store domain;
  - storing, reading and clearing the connection options;
  - refreshing the access token;
  - the token exchange;
  - the auto-sync done on activation;
  - the signed verification request;
  - manual connect, manual sync and disconnect;
  - the throttled `auto_connect_check`, which runs on admin pages.
- **Orders-list column** (`Shipkia_Tracking_Meta`). This covers:
  - where the "Shipment Status" column is put in the orders list;
  - what each cell shows.
- **Customer's order pages** (`Shipkia_My_Account_Actions`). This covers:
  - the tracking box on the order page;
  - the Track action in the customer's list of orders.
- **Settings readers** (`Shipkia_Helpers`). These read the plugin's settings, with their
  defaults, and an order's tracking URL.
- **Main plugin file**: the singleton instance, the Settings link and the activation hook.

Modules, one per concern:

| module | file | contents |
|---|---|---|
| `Php` | `php.dfy` | PHP values, truthiness and `empty()`, `trim`/`rtrim`, and integer strings |
| `Names` | `names.dfy` | the option and transient names the plugin uses |
| `WordPress` | `wordpress.dfy` | options with defaults, expiring transients and order meta; `Site` is a class updated in place by `update_option`, `delete_option`, `set_transient`, `delete_transient` and `wp_remote_post` |
| `Backend` | `backend.dfy` | the platform's endpoints, and the replies as a queue that `wp_remote_post` consumes |
| `OrderedArray` | `ordered_array.dfy` | PHP's ordered string-keyed arrays, as sequences of pairs with unique keys |
| `AuthSpec` | `auth_spec.dfy` | every `Shipkia_Auth` operation as a step function on the whole state, with lemmas saying what each step does |
| `AuthProperties` | `auth_properties.dfy` | properties that relate several auth operations: frames, throttling, the activation fallback, domain normalization |
| `ShipkiaAuth` | `auth.dfy` | the class `Auth`, whose fields are the class's two static caches; each method updates the `Site` step by step and is proved equal to its `AuthSpec` step function |
| `TrackingMeta` | `tracking_meta.dfy` | the column filter as a loop over the columns, proved equal to a closed form, plus the cell renderers |
| `MyAccountActions` | `my_account_actions.dfy` | the order-details box and the Track action |
| `Helpers` | `helpers.dfy` | the settings readers and the order's tracking URL |
| `Plugin` | `plugin.dfy` | the Settings link, the singleton instance and `shipkia_plugin_activated` |

How the outside world is modelled:

- **Platform.** Every `wp_remote_post` records its request in `outbox`. It also takes the next
  reply from `inbox`. A reply is one of three things:
  - a transport error (`is_wp_error`); an empty queue behaves as one;
  - a body that does not decode;
  - a decoded `message` object.
- **Inputs from outside** come in as an `Env` value:
  - the site URL;
  - the WooCommerce consumer secret found by the database lookup;
  - the password that `wp_generate_password` would return;
  - `filter_var(…, FILTER_VALIDATE_URL)`;
  - `hash_hmac('sha256', …)`.
- **Clock.** `time()` and the timestamp string come in as a `Clock`.

Where the code and the plugin's own description of `get_access_token` disagree, the model follows
the code. The one exception is the unbounded recursion under "## Findings": the model has both the
code as written and the corrected version. The rest of the model uses the corrected one.

## Model

| member | source | states |
|---|---|---|
| Helpers.GetTrackingUrl | shipkia-shipment-tracking/includes/core/class-helpers.php:21-47 | missing order gives ""; the `shipkia_tracking_url` meta when it is not empty(), otherwise ""; never an empty()-but-non-"" string such as "0" |
| Helpers.IsTrackingEnabled | shipkia-shipment-tracking/includes/core/class-helpers.php:54-58 | enabled exactly when the option is absent (default 'yes') or is exactly 'yes' |
| Helpers.GetButtonText | shipkia-shipment-tracking/includes/core/class-helpers.php:65-69 | the stored text when set and not empty(), otherwise 'Track'; never empty |
| Helpers.OpenInNewTab | shipkia-shipment-tracking/includes/core/class-helpers.php:76-79 | true exactly when the option is absent or exactly 'yes' |
| MyAccountActions.AddTrackButton | shipkia-shipment-tracking/includes/frontend/class-my-account-actions.php:60-76 | actions unchanged when tracking is disabled or there is no URL; otherwise `shipkia_track` holds the URL and the button text, is overwritten in place when present or appended when absent, keys stay unique, and every other action is kept in order |
| MyAccountActions.DisplayTrackingInfo | shipkia-shipment-tracking/includes/frontend/class-my-account-actions.php:28-55 | nothing is shown when tracking is disabled or the order has no tracking URL |
| MyAccountActions.DisplayTrackingInfoShows | shipkia-shipment-tracking/includes/frontend/class-my-account-actions.php:28-55 | otherwise the heading comes first; the status line appears iff the status is not empty, in second place; the AWB line appears iff the AWB is not empty, last; nothing else is shown |
| TrackingMeta.AddTrackingColumn | shipkia-shipment-tracking/includes/core/class-tracking-meta.php:146-162 | the foreach loop returns exactly the closed form WithTrackingColumn |
| TrackingMeta.CopyColumnsPlaced | shipkia-shipment-tracking/includes/core/class-tracking-meta.php:148-155 | for a PHP array (unique keys), copying the columns one pass at a time builds the placed closed form |
| TrackingMeta.TrackingColumnKeepsOthers | shipkia-shipment-tracking/includes/core/class-tracking-meta.php:146-162 | every column other than the tracking column is kept, in order and with its label |
| TrackingMeta.TrackingColumnPresent | shipkia-shipment-tracking/includes/core/class-tracking-meta.php:146-162 | the result always has the tracking column, and keys stay unique |
| TrackingMeta.TrackingColumnAfterOrderStatus | shipkia-shipment-tracking/includes/core/class-tracking-meta.php:150-155 | with `order_status` and no tracking column, the new column sits right after `order_status`, with the columns before and after it unchanged and one more column in total |
| TrackingMeta.TrackingColumnAppended | shipkia-shipment-tracking/includes/core/class-tracking-meta.php:157-159 | without `order_status`, the column is appended when missing, and nothing changes when it is present |
| TrackingMeta.TrackingColumnNotAdded | shipkia-shipment-tracking/includes/core/class-tracking-meta.php:146-162 | columns that already have the tracking column keep their count |
| TrackingMeta.TrackingColumnIdempotent | shipkia-shipment-tracking/includes/core/class-tracking-meta.php:146-162 | applying the filter twice gives what applying it once gives |
| TrackingMeta.ColumnContent | shipkia-shipment-tracking/includes/core/class-tracking-meta.php:192-196 | an order that does not exist shows a dash and nothing else |
| TrackingMeta.ColumnContentShows | shipkia-shipment-tracking/includes/core/class-tracking-meta.php:190-216 | for an existing order, piece by piece: first the status when it is not empty, followed by the AWB line when the AWB is not empty; with an empty status, the bare AWB when it is not empty, else a dash; then a Track link to this URL exactly when the URL is not empty; nothing else, so one to three pieces |
| TrackingMeta.TrackLinkIndependent | shipkia-shipment-tracking/includes/core/class-tracking-meta.php:213-215 | the Track link depends on the tracking URL alone |
| TrackingMeta.ColumnContentNonEmpty | shipkia-shipment-tracking/includes/core/class-tracking-meta.php:190-216 | every cell shows something |
| TrackingMeta.RenderTrackingColumn | shipkia-shipment-tracking/includes/core/class-tracking-meta.php:167-172 | other columns get nothing; the tracking column gets the (non-empty) cell of that post id |
| TrackingMeta.RenderTrackingColumnHpos | shipkia-shipment-tracking/includes/core/class-tracking-meta.php:180-185 | the HPOS renderer shows what the post renderer shows for the order's id |
| Plugin.ShipmentTracking.AddPluginSettingsLink | shipkia-shipment-tracking/shipkia-shipment-tracking.php:104-109 | the Settings link is put in front, and the old links follow unchanged |
| Plugin.Singleton.constructor | shipkia-shipment-tracking/shipkia-shipment-tracking.php:31 | no instance exists before the first call |
| Plugin.Singleton.GetInstance | shipkia-shipment-tracking/shipkia-shipment-tracking.php:38-44 | the first call creates a fresh instance; every later call returns the stored one |
| Plugin.Singleton.GetInstanceTwice | shipkia-shipment-tracking/shipkia-shipment-tracking.php:38-44 | two calls return the same object |
| Plugin.PluginActivated | shipkia-shipment-tracking/shipkia-shipment-tracking.php:141-151 | the activation hook does exactly ActivatedStep to the site |
| AuthSpec.ApiBaseUrl | shipkia-shipment-tracking/includes/core/class-auth.php:736-746 | the returned URL is cached, and nothing else changes |
| AuthSpec.ApiBaseUrlOutcome | shipkia-shipment-tracking/includes/core/class-auth.php:736-746 | a cached URL that is true to PHP is returned whatever the options hold (a later `shipkia_app_url` is not seen); otherwise the option is read, https://app.shipkia.com when absent, and the result never ends in '/'; a true result is returned unchanged by the next call |
| AuthSpec.PluginSecret | shipkia-shipment-tracking/includes/core/class-auth.php:701-708 | the returned secret is cached; apart from options, nothing else changes |
| AuthSpec.PluginSecretSettles | shipkia-shipment-tracking/includes/core/class-auth.php:651-666 | order of preference: the cached secret, then the consumer secret, then the stored secret, then a generated one; only the generated secret is written; a second call returns the same secret and changes nothing |
| AuthSpec.GenerateSignature | shipkia-shipment-tracking/includes/core/class-auth.php:636-646 | the HMAC of the signature message, under the secret get_plugin_secret settles on, with that call's state change |
| AuthSpec.StoreDomainNoTrailingSlash | shipkia-shipment-tracking/includes/core/class-auth.php:713-717 | the store domain never ends in '/' |
| AuthSpec.StripSchemeDrops | shipkia-shipment-tracking/includes/core/class-auth.php:728 | exactly a leading http:// or https:// is removed, or nothing |
| AuthSpec.NormalizeDomainNoTrailingSlash | shipkia-shipment-tracking/includes/core/class-auth.php:722-731 | a normalized domain never ends in '/' |
| AuthProperties.NormalizeDomainFindsHost | shipkia-shipment-tracking/includes/core/class-auth.php:722-731 | a host is normalized to itself, with or without http:// or https:// in front and followed by any number of slashes |
| AuthProperties.TrimSlashesDropsSlashes | shipkia-shipment-tracking/includes/core/class-auth.php:725 | rtrim(…, '/') removes exactly the trailing slashes |
| AuthProperties.SignedTimestampsDiffer | shipkia-shipment-tracking/includes/core/class-auth.php:641-643 | different timestamps give different signed messages for the same domain |
| AuthSpec.DisconnectLocallyClears | shipkia-shipment-tracking/includes/core/class-auth.php:447-461 | disconnected afterwards; exactly the nine connection options are removed, and the checked and verified transients; every other option and transient is kept with its value |
| AuthSpec.StoreConnectionStores | shipkia-shipment-tracking/includes/core/class-auth.php:604-623 | connected; tokens, store id, absolute expiry now+expires_in, platform 'woocommerce'; platform URLs only when truthy; the given domain when truthy, else the store's |
| AuthSpec.StoreConnectionKeepsOthers | shipkia-shipment-tracking/includes/core/class-auth.php:604-623 | no option outside the connection changes |
| AuthProperties.StoreConnectionFrame | shipkia-shipment-tracking/includes/core/class-auth.php:604-623 | store_connection_data writes only connection options |
| AuthSpec.StatusReports | shipkia-shipment-tracking/includes/core/class-auth.php:751-783 | disconnected: the all-null status; connected: store id, platform (default woocommerce), platform URL, domain and Shipkia URL as stored, the expiry when it is truthy (else null), and the token is valid iff the expiry is truthy and now is before it |
| AuthProperties.StatusAfterStore | shipkia-shipment-tracking/includes/core/class-auth.php:604-623 | the status read right after storing reports the stored store id, platform, domain and URLs; the token is valid exactly until the stored expiry |
| AuthProperties.RefreshWindowCoversInvalidTokens | shipkia-shipment-tracking/includes/core/class-auth.php:484 | a token outside the 300 s refresh window is valid in the status, so a token that is no longer valid is always refreshed first |
| AuthSpec.RefreshOutcome | shipkia-shipment-tracking/includes/core/class-auth.php:553-599 | succeeds iff there is a refresh token, an API URL and a `success` reply; only then do the access token and expiry change; without a refresh token or API URL nothing is sent and no reply used; otherwise exactly one request, with the refresh token and the store domain, goes to the API |
| AuthSpec.ClearConnectionAfterRefresh | shipkia-shipment-tracking/includes/core/class-auth.php:553-599 | a refresh touches only connection options (clearing afterwards equals clearing before) and no transient |
| AuthSpec.NotifyAndClearEffect | shipkia-shipment-tracking/includes/core/class-auth.php:415-434 | always "Disconnected"; the platform is notified iff there is a token and an API URL; the connection is cleared either way |
| AuthSpec.AccessTokenOutcome | shipkia-shipment-tracking/includes/core/class-auth.php:474-496 | null when not connected; the stored token, unchanged, outside the refresh window; the new token after a successful refresh; null, with the store disconnected, after a failed refresh |
| AuthSpec.DisconnectClears | shipkia-shipment-tracking/includes/core/class-auth.php:411-442 | always succeeds with "Disconnected"; the connection and the checked and verified marks are gone; the secret is kept |
| AuthProperties.DisconnectRemovesOnlyTheConnection | shipkia-shipment-tracking/includes/core/class-auth.php:411-442 | no other option changes, and the status afterwards is the disconnected one |
| AuthSpec.AsWrittenNeverReturns | shipkia-shipment-tracking/includes/core/class-auth.php:474-496 | as written, get_access_token/disconnect never return once the token needs refreshing and no refresh succeeds, whatever bound is put on the nesting |
| AuthSpec.AsWrittenNeverReturnsWithoutRefreshToken | shipkia-shipment-tracking/includes/core/class-auth.php:474-496 | concrete case: connected, expiry = now, no refresh token |
| AuthSpec.AsWrittenAgreesWhenRefreshSucceeds | shipkia-shipment-tracking/includes/core/class-auth.php:474-496 | wherever the written version returns a token without failing a refresh, it agrees with the corrected one |
| AuthProperties.CorrectedReturnsWhereWrittenDoesNot | shipkia-shipment-tracking/includes/core/class-auth.php:474-496 | on those same inputs, the corrected version returns null and leaves the store disconnected |
| AuthSpec.SyncOutcome | shipkia-shipment-tracking/includes/core/class-auth.php:501-548 | false and no change when disconnected; true iff there is an API URL, a valid token and any HTTP reply; in that case exactly one settings request is sent |
| AuthSpec.SyncKeepsFreshConnection | shipkia-shipment-tracking/includes/core/class-auth.php:501-548 | a sync from a connected store with a token outside the refresh window changes no option |
| AuthProperties.SyncFrame | shipkia-shipment-tracking/includes/core/class-auth.php:501-548 | sync keeps non-connection options and sets no checked/verified transient |
| AuthProperties.AccessTokenFrame | shipkia-shipment-tracking/includes/core/class-auth.php:474-496 | get_access_token keeps non-connection options and sets no checked/verified transient |
| AuthSpec.ExchangeOutcome | shipkia-shipment-tracking/includes/core/class-auth.php:259-314 | succeeds iff the reply is `success`; then the connection is stored (given store id, the store's domain) and settings synced; otherwise no option changes, and a reply message is the connection error for an hour |
| AuthProperties.ExchangeConnects | shipkia-shipment-tracking/includes/core/class-auth.php:259-314 | a successful exchange whose token outlives the refresh margin leaves exactly the stored connection |
| AuthProperties.ExchangeFrame | shipkia-shipment-tracking/includes/core/class-auth.php:259-314 | the exchange keeps non-connection options and sets no checked/verified transient |
| AuthSpec.AutoSyncOutcome | shipkia-shipment-tracking/includes/core/class-auth.php:115-170 | exactly one request, with domain, platform, slug, version and secret; true iff the reply says connected, and the reply's connection is stored; no transient changes |
| AuthProperties.AutoSyncFrame | shipkia-shipment-tracking/includes/core/class-auth.php:115-170 | the auto-sync keeps non-connection options and transients |
| AuthSpec.VerifyRequestSends | shipkia-shipment-tracking/includes/core/class-auth.php:184-197 | the request carries the domain, the timestamp and the HMAC over both; at most the plugin secret option changes, and no transient |
| AuthProperties.VerifyRequestKeeps | shipkia-shipment-tracking/includes/core/class-auth.php:184-197 | every option other than the plugin secret is kept |
| AuthSpec.AttemptReplyOutcome | shipkia-shipment-tracking/includes/core/class-auth.php:199-226 | an undecoded reply changes nothing; connected with a temporary token is exchanged; connected without one changes nothing; any other decoded reply disconnects locally exactly when the store was connected and otherwise changes nothing |
| AuthSpec.AttemptOutcome | shipkia-shipment-tracking/includes/core/class-auth.php:175-230 | nothing is sent without an API URL; otherwise the verification reply is answered |
| AuthProperties.AttemptReplyFrame | shipkia-shipment-tracking/includes/core/class-auth.php:199-226 | answering the reply keeps non-connection options and transients apart from the error and the clears |
| AuthProperties.AttemptFrame | shipkia-shipment-tracking/includes/core/class-auth.php:175-230 | attempt_auto_connect keeps the same frame |
| AuthSpec.ManualConnectOutcome | shipkia-shipment-tracking/includes/core/class-auth.php:319-406 | an invalid URL fails and changes nothing; a valid one is stored, and the verification request goes to that URL, whose reply decides |
| AuthSpec.ConnectReplyOutcome | shipkia-shipment-tracking/includes/core/class-auth.php:347-398 | transport error and undecodable reply are reported; `connected` succeeds iff the exchange does, clearing the error; otherwise it fails with the platform's message, recorded for an hour, except `not_found`, which succeeds iff the auto-sync connects |
| AuthProperties.ConnectReplyFrame | shipkia-shipment-tracking/includes/core/class-auth.php:347-398 | answering keeps every non-connection option |
| AuthProperties.ConnectReplyKeeps | shipkia-shipment-tracking/includes/core/class-auth.php:347-398 | any single non-connection, non-secret option is kept with its value |
| AuthProperties.ManualConnectKeepsAppUrl | shipkia-shipment-tracking/includes/core/class-auth.php:319-406 | a valid app URL is remembered whatever the platform replies |
| AuthSpec.ManualSyncOutcome | shipkia-shipment-tracking/includes/core/class-auth.php:235-254 | succeeds iff the auto-sync does; then connected and verified for the next hour |
| AuthSpec.CheckPlanQuiet | shipkia-shipment-tracking/includes/core/class-auth.php:68-99 | the check does nothing iff a connected store is verified, or a disconnected one has no activation request and was checked (on the settings page within five minutes too) |
| AuthProperties.ThrottledByMarks | shipkia-shipment-tracking/includes/core/class-auth.php:93-104 | the marks a probe sets throttle every later check until they expire, while the store is disconnected |
| AuthProperties.ThrottledAfterProbe | shipkia-shipment-tracking/includes/core/class-auth.php:62-109 | after a probe, checks for an hour (five minutes on the settings page) do nothing, given that the store is still disconnected and still has its checked marks afterwards; a probe that exchanges a token can lose the mark, when the sync after the exchange fails to refresh a short-lived token and disconnects locally |
| AuthProperties.ThrottledAfterQuietProbe | shipkia-shipment-tracking/includes/core/class-auth.php:93-108 | a probe whose reply offers no temporary token for a connected store keeps the store throttled: every check for the next hour (five minutes on the settings page) does nothing, with no assumption about the state afterwards |
| AuthProperties.QuietAttempt | shipkia-shipment-tracking/includes/core/class-auth.php:175-230 | attempt_auto_connect on a disconnected store, with a reply that offers no temporary token for a connected store, leaves it disconnected and changes no transient |
| AuthProperties.VerifiedMarkQuiets | shipkia-shipment-tracking/includes/core/class-auth.php:68-76 | the verified mark keeps a connected store quiet for its interval |
| AuthProperties.ReverifiedStaysQuiet | shipkia-shipment-tracking/includes/core/class-auth.php:68-76 | a connected store that is re-verified is quiet for 1 h on the settings page, 12 h elsewhere |
| AuthProperties.ForcedCheckClearsRequest | shipkia-shipment-tracking/includes/core/class-auth.php:80-87 | a forced check consumes the activation request |
| AuthProperties.ActivationForcesNextCheck | shipkia-shipment-tracking/shipkia-shipment-tracking.php:141-151 | when activation does not connect, any check within sixty seconds is forced, and the checked mark is gone |
| AuthProperties.ActivationOutcome | shipkia-shipment-tracking/shipkia-shipment-tracking.php:141-151 | transients are untouched when the auto-sync connects; otherwise only the checked mark is dropped and the 60 s trigger set |
| ShipkiaAuth.Auth.constructor | shipkia-shipment-tracking/includes/core/class-auth.php:19-27 | both static caches start null |
| ShipkiaAuth.Auth.GetApiBaseUrl | shipkia-shipment-tracking/includes/core/class-auth.php:736-746 | does exactly AuthSpec.ApiBaseUrl, whose behaviour ApiBaseUrlOutcome states |
| ShipkiaAuth.Auth.EnsurePluginSecret | shipkia-shipment-tracking/includes/core/class-auth.php:651-666 | does exactly AuthSpec.EnsurePluginSecret |
| ShipkiaAuth.Auth.Init | shipkia-shipment-tracking/includes/core/class-auth.php:32-36 | settles the plugin secret |
| ShipkiaAuth.Auth.GetPluginSecret | shipkia-shipment-tracking/includes/core/class-auth.php:701-708 | does exactly AuthSpec.PluginSecret |
| ShipkiaAuth.Auth.GenerateSignature | shipkia-shipment-tracking/includes/core/class-auth.php:636-646 | does exactly AuthSpec.GenerateSignature |
| ShipkiaAuth.Auth.IsConnected | shipkia-shipment-tracking/includes/core/class-auth.php:466-469 | true iff the connected option is truthy |
| ShipkiaAuth.Auth.DisconnectLocally | shipkia-shipment-tracking/includes/core/class-auth.php:447-461 | options become ClearConnection of the old ones; the checked and verified transients are removed |
| ShipkiaAuth.Auth.StoreConnectionData | shipkia-shipment-tracking/includes/core/class-auth.php:604-623 | options become StoreConnection of the old ones; nothing else changes |
| ShipkiaAuth.Auth.StoreTokens | shipkia-shipment-tracking/includes/core/class-auth.php:628-631 | store_connection_data without a domain |
| ShipkiaAuth.Auth.GetConnectionStatus | shipkia-shipment-tracking/includes/core/class-auth.php:751-783 | returns AuthSpec.Status of the options |
| ShipkiaAuth.Auth.RefreshToken | shipkia-shipment-tracking/includes/core/class-auth.php:553-599 | does exactly AuthSpec.RefreshStep |
| ShipkiaAuth.Auth.NotifyAndClear | shipkia-shipment-tracking/includes/core/class-auth.php:415-429 | does exactly AuthSpec.NotifyAndClear |
| ShipkiaAuth.Auth.GetAccessToken | shipkia-shipment-tracking/includes/core/class-auth.php:474-496 | does exactly the corrected AuthSpec.AccessTokenStep |
| ShipkiaAuth.Auth.Disconnect | shipkia-shipment-tracking/includes/core/class-auth.php:411-442 | does exactly AuthSpec.DisconnectStep |
| ShipkiaAuth.Auth.SyncSettings | shipkia-shipment-tracking/includes/core/class-auth.php:501-548 | does exactly AuthSpec.SyncStep |
| ShipkiaAuth.Auth.ExchangeToken | shipkia-shipment-tracking/includes/core/class-auth.php:259-314 | does exactly AuthSpec.ExchangeStep |
| ShipkiaAuth.Auth.AutoSyncOnActivate | shipkia-shipment-tracking/includes/core/class-auth.php:115-170 | does exactly AuthSpec.AutoSyncStep |
| ShipkiaAuth.Auth.PostVerification | shipkia-shipment-tracking/includes/core/class-auth.php:184-197 | does exactly AuthSpec.VerifyRequest |
| ShipkiaAuth.Auth.AttemptAutoConnect | shipkia-shipment-tracking/includes/core/class-auth.php:175-230 | does exactly AuthSpec.AttemptStep |
| ShipkiaAuth.Auth.ManualSync | shipkia-shipment-tracking/includes/core/class-auth.php:235-254 | does exactly AuthSpec.ManualSyncStep |
| ShipkiaAuth.Auth.AnswerConnectReply | shipkia-shipment-tracking/includes/core/class-auth.php:347-398 | does exactly AuthSpec.ConnectReply |
| ShipkiaAuth.Auth.ManualConnect | shipkia-shipment-tracking/includes/core/class-auth.php:319-406 | does exactly AuthSpec.ManualConnectStep |
| ShipkiaAuth.Auth.AutoConnectCheck | shipkia-shipment-tracking/includes/core/class-auth.php:62-109 | does exactly AuthSpec.CheckStep |

## Left out

- HTTP transport. Timeouts, headers and the JSON encoding of requests are not modelled. A reply
  is a queued value: a transport error, an undecodable body, or decoded fields.
- A decoded `expires_in` that is not an integer is not modelled. An integer is assumed, and
  `time() + expires_in` is exact integer arithmetic.
- Outside values are inputs. `get_site_url`, `wp_generate_password`, `filter_var` and `hash_hmac`
  are fields of `Env`. The consumer-secret lookup in the `woocommerce_api_keys` table
  (class-auth.php:671-696) is one `Env` value, so the SQL is not modelled.
- `try`/`catch` blocks are not modelled. They catch exceptions that none of the modelled calls
  throw.
- Logging (`log`) and `error_log` are not modelled, and neither are the `is_admin()`/AJAX guards.
- Translation and escaping are not modelled. `__()` returns its argument, and markup is a list of
  fragments.
- `get_connection_status` formats the expiry with `date('Y-m-d H:i:s', …)`. The model does not:
  `tokenExpiresAt` is the stored expiry itself. Options are read from one map with no separate
  object cache, so there is no stale cached option to model.
- The action links passed to `plugin_action_links_…` are a plain list. WordPress gives them string
  keys such as `deactivate`, which `array_unshift` keeps; the model does not keep them.
- The meta box (its save handler is commented out in the source), hook registration and asset enqueueing are not modelled,
  and neither are the admin menu, the settings page or the orders tracking page. They are outside
  this core.
- AuthSpec.AccessTokenAsWritten: records only whether the code as written has returned within
  `fuel` nested calls, not what an infinite stack would do.
- Plugin.Singleton.GetInstance: the object is freshly allocated and registers hooks, but the
  constructor's hook registration and file loading are not modelled.
- The column cell and the order-details box: the exact HTML is not modelled, only which pieces
  appear and in what order.

## Findings

| source | as written | input that shows it | evidently intended | confidence | as-written member | corrected member |
|---|---|---|---|---|---|---|
| shipkia-shipment-tracking/includes/core/class-auth.php:474-496 | when the refresh fails, `get_access_token` calls `disconnect()`. `disconnect()` (411-442) first calls `get_access_token` again, on a state that is still connected with the same expiry, so the two call each other without end | connected, `shipkia_token_expiry` = now (non-zero), no refresh token: `refresh_token()` returns false before sending anything | after a failed refresh, tell the platform, clear the connection locally and return null | not executed | AuthSpec.AsWrittenNeverReturns | AuthSpec.AccessTokenOutcome |
