/** The connection and token lifecycle of Shipkia_Auth, stated as functions from the state before
    a call to the call's result and the state after it. The class in module Auth runs the same
    operations step by step and is proved to end in these states. */
module AuthSpec {
  import opened Php
  import opened Backend
  import opened WordPress
  import Helpers
  import Names

  // ---------------------------------------------------------------- keys and constants

  const CONNECTED := Names.Connected
  const ACCESS_TOKEN := Names.AccessToken
  const REFRESH_TOKEN := Names.RefreshToken
  const STORE_ID := Names.StoreId
  const TOKEN_EXPIRY := Names.TokenExpiry
  const PLATFORM := Names.Platform
  const PLATFORM_URL := Names.PlatformUrl
  const SHIPKIA_URL := Names.ShipkiaUrl
  const CONNECTED_DOMAIN := Names.ConnectedDomain
  const APP_URL := Names.AppUrl
  const PLUGIN_SECRET := Names.PluginSecret

  /** The nine options that make up a connection. */
  const CONNECTION_KEYS: set<Names.OptionName> :=
    {CONNECTED, ACCESS_TOKEN, REFRESH_TOKEN, STORE_ID, TOKEN_EXPIRY, PLATFORM, PLATFORM_URL,
     SHIPKIA_URL, CONNECTED_DOMAIN}

  const CHECKED := Names.AutoConnectChecked
  const CHECKED_SETTINGS := Names.AutoConnectCheckedSettings
  const VERIFIED := Names.ConnectionVerified
  const TRIGGER := Names.TriggerAutoConnect
  const CONNECTION_ERROR := Names.ConnectionError

  const HOUR_IN_SECONDS := 3600
  /** A token is refreshed this many seconds before it expires. */
  const REFRESH_MARGIN := 300
  /** How long the settings page waits between two auto-connect checks. */
  const SETTINGS_CHECK_INTERVAL := 300
  /** How long the activation hook's request for an auto-connect check lives. */
  const TRIGGER_TTL := 60

  const DEFAULT_API_URL := "https://app.shipkia.com"
  const PLATFORM_NAME := "woocommerce"
  const PLUGIN_SLUG := "shipkia-shipment-tracking"
  const PLUGIN_VERSION := "1.0.0"

  const MSG_INVALID_URL := "Invalid Shipkia URL"
  const MSG_TRANSPORT_PREFIX := "Connection failed: "
  const MSG_INVALID_RESPONSE := "Invalid response from Shipkia"
  const MSG_CONNECTED := "Connected to Shipkia successfully!"
  const MSG_REGISTERED := "Store registered and connected to Shipkia successfully!"
  const MSG_NOT_FOUND := "Store not found in Shipkia. Please register it first."
  const MSG_CONNECTION_FAILED := "Connection failed"
  const MSG_DISCONNECTED := "Disconnected from Shipkia"
  const MSG_SYNC_OK := "Sync successful! Connection and data updated."
  const MSG_SYNC_FAILED := "Sync failed. Please check your connection to Shipkia."

  // ---------------------------------------------------------------- state and environment

  /** The current time (epoch seconds) and its gmdate('Y-m-d\TH:i:s\Z') rendering. */
  datatype Clock = Clock(now: int, stamp: string)

  /** What the plugin reads from outside and does not control: the site URL, the WooCommerce
      consumer secret found in the database (or null), the password wp_generate_password would
      return, filter_var's URL check, and HMAC-SHA256 (message, key). */
  datatype Env = Env(
    siteUrl: string,
    consumerSecret: Value,
    generatedSecret: string,
    validUrl: string -> bool,
    hmac: (string, string) -> string)

  /** Everything the auth operations read and write: the options and transients, the two static
      caches of Shipkia_Auth, and the HTTP transport. */
  datatype State = State(
    options: Options,
    transients: Transients,
    apiBaseUrl: Option<string>,
    pluginSecret: Value,
    inbox: seq<Reply>,
    outbox: seq<Request>)

  /** The array('success' => ..., 'message' => ...) the public operations return. */
  datatype Outcome = Outcome(success: bool, message: Value)

  /** wp_remote_post as seen by the state: the request is recorded and one reply is used up. */
  function Sent(st: State, req: Request): State
  {
    st.(inbox := Remaining(st.inbox), outbox := st.outbox + [req])
  }

  /** True iff `o2` agrees with `o1` on every option outside the connection and the plugin secret. */
  predicate SameOtherOptions(o1: Options, o2: Options)
  {
    o1 - (CONNECTION_KEYS + {PLUGIN_SECRET}) == o2 - (CONNECTION_KEYS + {PLUGIN_SECRET})
  }

  /** True iff `t2` agrees with `t1` on every transient except those named in `changed`. */
  predicate SameOtherTransients(t1: Transients, t2: Transients, changed: set<Names.TransientName>)
  {
    t1 - changed == t2 - changed
  }

  // ---------------------------------------------------------------- domains and signatures

  /** get_store_domain: the site URL, trimmed, without trailing slashes. */
  function StoreDomain(siteUrl: string): string
  {
    TrimSlashes(Trim(siteUrl))
  }

  /** The store's domain never ends in a slash. */
  lemma StoreDomainNoTrailingSlash(siteUrl: string)
    ensures var d := StoreDomain(siteUrl);
      d == [] || d[|d| - 1] != '/'
  {
    TrimSlashesEnds(Trim(siteUrl));
  }

  /** preg_replace('#^https?://#', '', $s): drops one leading http:// or https://. */
  function StripScheme(s: string): string
  {
    if |s| >= 8 && s[..8] == "https://" then s[8..]
    else if |s| >= 7 && s[..7] == "http://" then s[7..]
    else s
  }

  /** What StripScheme removes is exactly a leading http:// or https://, or nothing. */
  lemma StripSchemeDrops(s: string)
    ensures var r := StripScheme(s);
      && (s == r || s == "http://" + r || s == "https://" + r)
      && |r| <= |s| && r == s[|s| - |r|..]
  {
    if |s| >= 8 && s[..8] == "https://" {
      assert s == s[..8] + s[8..];
    } else if |s| >= 7 && s[..7] == "http://" {
      assert s == s[..7] + s[7..];
    }
  }

  /** normalize_domain: trim, strip trailing slashes, then drop at most one leading scheme. */
  function NormalizeDomain(url: string): string
  {
    StripScheme(TrimSlashes(Trim(url)))
  }

  /** A normalized domain never ends in a slash, whatever the scheme it lost. */
  lemma NormalizeDomainNoTrailingSlash(url: string)
    ensures var d := NormalizeDomain(url);
      d == [] || d[|d| - 1] != '/'
  {
    var t := TrimSlashes(Trim(url));
    var d := StripScheme(t);
    TrimSlashesEnds(Trim(url));
    StripSchemeDrops(t);
    SuffixEnd(t, d);
    SlashFree(t, d);
  }

  lemma SlashFree(t: string, d: string)
    requires t == [] || t[|t| - 1] != '/'
    requires d != [] ==> |t| > 0 && d[|d| - 1] == t[|t| - 1]
    ensures d == [] || d[|d| - 1] != '/'
  {
  }

  /** A suffix ends where the whole text ends. */
  lemma SuffixEnd(t: string, d: string)
    requires |d| <= |t| && d == t[|t| - |d|..]
    ensures d != [] ==> d[|d| - 1] == t[|t| - 1]
  {
    if d != [] {
      assert d[|d| - 1] == t[|t| - |d|..][|d| - 1];
    }
  }

  /** The text generate_signature signs: the normalized domain, then ':' and the timestamp when
      one is given (a timestamp that PHP considers false is left out). */
  function SignatureMessage(domain: string, timestamp: Option<string>): string
  {
    if TruthyString(timestamp) then NormalizeDomain(domain) + ":" + timestamp.value
    else NormalizeDomain(domain)
  }

  // ---------------------------------------------------------------- static caches

  /** True iff the cached API base URL is used (it is set and not false to PHP). */
  predicate CacheHit(cache: Option<string>)
  {
    TruthyString(cache)
  }

  /** get_api_base_url: the cached URL, or else the `shipkia_app_url` option (default
      https://app.shipkia.com) without trailing slashes; either way the URL is cached. */
  function ApiBaseUrl(st: State): (r: (string, State))
    ensures r.1 == st.(apiBaseUrl := Some(r.0))
  {
    var url := if CacheHit(st.apiBaseUrl) then st.apiBaseUrl.value
               else TrimSlashes(ToStr(GetOption(st.options, APP_URL, Str(DEFAULT_API_URL))));
    (url, st.(apiBaseUrl := Some(url)))
  }

  /** A cached URL that PHP considers true wins over whatever the options say (so an app URL
      stored later by manual_connect is not seen); otherwise the `shipkia_app_url` option is read,
      https://app.shipkia.com when it is absent, and the URL never ends in '/'. A URL that PHP
      considers true is returned again by the next call, which changes nothing. */
  lemma ApiBaseUrlOutcome(st: State, o: Options)
    ensures CacheHit(st.apiBaseUrl) ==> ApiBaseUrl(st.(options := o)).0 == st.apiBaseUrl.value
    ensures !CacheHit(st.apiBaseUrl) && APP_URL !in st.options ==> ApiBaseUrl(st).0 == DEFAULT_API_URL
    ensures var u := ApiBaseUrl(st).0; !CacheHit(st.apiBaseUrl) ==> u == [] || u[|u| - 1] != '/'
    ensures var (u, st1) := ApiBaseUrl(st); CacheHit(Some(u)) ==> ApiBaseUrl(st1) == (u, st1)
  {
    if !CacheHit(st.apiBaseUrl) {
      TrimSlashesEnds(ToStr(GetOption(st.options, APP_URL, Str(DEFAULT_API_URL))));
      if APP_URL !in st.options {
        assert TrimSlashes(DEFAULT_API_URL) == DEFAULT_API_URL by {
          assert TrimEnd(DEFAULT_API_URL, IsSlash) == DEFAULT_API_URL;
        }
      }
    }
  }

  /** The secret ensure_plugin_secret settles on, and the options afterwards: the WooCommerce
      consumer secret if there is one, else the stored plugin secret, else the generated one,
      which is then stored. */
  function SecretChoice(options: Options, env: Env): (Value, Options)
  {
    var stored := GetOption(options, PLUGIN_SECRET, Bool(false));
    if Truthy(env.consumerSecret) then (env.consumerSecret, options)
    else if Truthy(stored) then (stored, options)
    else (Str(env.generatedSecret), options[PLUGIN_SECRET := Str(env.generatedSecret)])
  }

  /** ensure_plugin_secret: settles the secret and caches it. */
  function EnsurePluginSecret(st: State, env: Env): State
  {
    var (secret, options) := SecretChoice(st.options, env);
    st.(options := options, pluginSecret := secret)
  }

  /** get_plugin_secret: the cached secret, settled first when PHP considers it false. */
  function PluginSecret(st: State, env: Env): (r: (Value, State))
    ensures r.1 == st.(options := r.1.options, pluginSecret := r.0)
  {
    var (secret, options) := if Truthy(st.pluginSecret) then (st.pluginSecret, st.options)
                             else SecretChoice(st.options, env);
    (secret, st.(options := options, pluginSecret := secret))
  }

  /** get_plugin_secret prefers the cached secret, then the consumer secret, then the stored one,
      and writes at most the plugin-secret option, with the generated secret. It settles: asking
      again returns the same secret and changes nothing. */
  lemma PluginSecretSettles(st: State, env: Env)
    ensures var (secret, st1) := PluginSecret(st, env);
      && (st1.options == st.options || st1.options == st.options[PLUGIN_SECRET := Str(env.generatedSecret)])
      && (Truthy(st.pluginSecret) ==> secret == st.pluginSecret && st1 == st)
      && (!Truthy(st.pluginSecret) && Truthy(env.consumerSecret) ==> secret == env.consumerSecret && st1.options == st.options)
      && (!Truthy(st.pluginSecret) && !Truthy(env.consumerSecret) ==>
            secret == (if Truthy(GetOption(st.options, PLUGIN_SECRET, Bool(false)))
                       then st.options[PLUGIN_SECRET] else Str(env.generatedSecret)))
      && PluginSecret(st1, env) == (secret, st1)
  {
    var (secret, st1) := PluginSecret(st, env);
    if !Truthy(secret) {
      assert st1.options == st.options[PLUGIN_SECRET := Str(env.generatedSecret)];
      assert st1.options[PLUGIN_SECRET := Str(env.generatedSecret)] == st1.options;
    }
  }

  /** generate_signature: HMAC-SHA256 of the signature message under the plugin secret. */
  function GenerateSignature(st: State, env: Env, domain: string, timestamp: Option<string>): (r: (string, State))
    ensures r.1 == PluginSecret(st, env).1
    ensures r.0 == env.hmac(SignatureMessage(domain, timestamp), ToStr(r.1.pluginSecret))
  {
    var (secret, st1) := PluginSecret(st, env);
    (env.hmac(SignatureMessage(domain, timestamp), ToStr(secret)), st1)
  }

  // ---------------------------------------------------------------- stored connection

  /** is_connected: the `shipkia_connected` option, cast to bool (absent means false). */
  predicate Connected(options: Options)
  {
    Truthy(GetOption(options, CONNECTED, Bool(false)))
  }

  /** The option value of the token expiry (false when absent). */
  function Expiry(options: Options): Value
  {
    GetOption(options, TOKEN_EXPIRY, Bool(false))
  }

  /** The refresh rule of get_access_token: an expiry is set and lies no more than 300 seconds
      ahead (or has passed). */
  predicate NeedsRefresh(options: Options, now: int)
  {
    Truthy(Expiry(options)) && now + REFRESH_MARGIN >= AsInt(Expiry(options))
  }

  /** disconnect_locally on the options: deletes exactly the nine connection options. */
  function ClearConnection(options: Options): Options
  {
    options - CONNECTION_KEYS
  }

  /** disconnect_locally: clears the connection options and the transients
      `shipkia_auto_connect_checked` and `shipkia_connection_verified`. */
  function DisconnectLocally(st: State): State
  {
    st.(options := ClearConnection(st.options), transients := st.transients - {CHECKED, VERIFIED})
  }

  /** disconnect_locally leaves the store disconnected and keeps every option outside the
      connection; of the transients it deletes only the checked and verified marks (the last
      connection error, the activation request and the settings-page mark stay). */
  lemma DisconnectLocallyClears(st: State)
    ensures var r := DisconnectLocally(st);
      && !Connected(r.options)
      && r.options.Keys == st.options.Keys - CONNECTION_KEYS
      && (forall k :: k in r.options ==> r.options[k] == st.options[k])
      && r.transients.Keys == st.transients.Keys - {CHECKED, VERIFIED}
      && (forall k :: k in r.transients ==> r.transients[k] == st.transients[k])
      && r == st.(options := r.options, transients := r.transients)
  {
  }

  /** store_connection_data on the options. */
  function StoreConnection(options: Options, accessToken: Value, refreshToken: Value, storeId: Value,
                           expiresIn: int, platformUrl: Value, domain: Option<string>,
                           storeDomain: string, now: int): Options
  {
    var o := options[CONNECTED := Bool(true)][ACCESS_TOKEN := accessToken][REFRESH_TOKEN := refreshToken]
                    [STORE_ID := storeId][TOKEN_EXPIRY := Int(now + expiresIn)][PLATFORM := Str(PLATFORM_NAME)];
    var o' := if Truthy(platformUrl) then o[PLATFORM_URL := platformUrl][SHIPKIA_URL := platformUrl] else o;
    o'[CONNECTED_DOMAIN := Str(if TruthyString(domain) then domain.value else storeDomain)]
  }

  /** store_connection_data marks the store connected and stores the tokens, the store id, the
      absolute expiry and the platform; the platform URL only when it is not false to PHP (else
      the old one stays); the given domain, or else the store's own. No other option changes. */
  lemma StoreConnectionStores(options: Options, accessToken: Value, refreshToken: Value, storeId: Value,
                              expiresIn: int, platformUrl: Value, domain: Option<string>,
                              storeDomain: string, now: int)
    ensures var r := StoreConnection(options, accessToken, refreshToken, storeId, expiresIn, platformUrl,
                                     domain, storeDomain, now);
      && CONNECTION_KEYS - {PLATFORM_URL, SHIPKIA_URL} <= r.Keys
      && Connected(r) && r[CONNECTED] == Bool(true)
      && r[ACCESS_TOKEN] == accessToken && r[REFRESH_TOKEN] == refreshToken && r[STORE_ID] == storeId
      && r[TOKEN_EXPIRY] == Int(now + expiresIn) && r[PLATFORM] == Str(PLATFORM_NAME)
      && (Truthy(platformUrl) ==> PLATFORM_URL in r && SHIPKIA_URL in r &&
                                  r[PLATFORM_URL] == platformUrl && r[SHIPKIA_URL] == platformUrl)
      && r[CONNECTED_DOMAIN] == Str(if TruthyString(domain) then domain.value else storeDomain)
  {
  }

  /** store_connection_data changes no option outside the connection, and without a platform URL
      it keeps the stored platform URLs as well. */
  lemma StoreConnectionKeepsOthers(options: Options, accessToken: Value, refreshToken: Value, storeId: Value,
                                   expiresIn: int, platformUrl: Value, domain: Option<string>,
                                   storeDomain: string, now: int)
    ensures var r := StoreConnection(options, accessToken, refreshToken, storeId, expiresIn, platformUrl,
                                     domain, storeDomain, now);
      && r - CONNECTION_KEYS == options - CONNECTION_KEYS
      && (!Truthy(platformUrl) ==> r - (CONNECTION_KEYS - {PLATFORM_URL, SHIPKIA_URL}) ==
                                   options - (CONNECTION_KEYS - {PLATFORM_URL, SHIPKIA_URL}))
  {
    var r := StoreConnection(options, accessToken, refreshToken, storeId, expiresIn, platformUrl,
                             domain, storeDomain, now);
    assert (r - CONNECTION_KEYS).Keys == (options - CONNECTION_KEYS).Keys;
    if !Truthy(platformUrl) {
      var ks := CONNECTION_KEYS - {PLATFORM_URL, SHIPKIA_URL};
      assert (r - ks).Keys == (options - ks).Keys;
    }
  }

  /** The array get_connection_status returns. `tokenExpiresAt` is the expiry itself (the source
      formats it as a date), null when there is none. */
  datatype ConnectionStatus = ConnectionStatus(
    connected: bool,
    storeId: Value,
    platform: Value,
    platformUrl: Value,
    connectedDomain: Value,
    shipkiaUrl: Value,
    tokenValid: bool,
    tokenExpiresAt: Value)

  /** get_connection_status. */
  function Status(options: Options, now: int): ConnectionStatus
  {
    if !Connected(options) then ConnectionStatus(false, Null, Null, Null, Null, Null, false, Null)
    else
      var expiry := Expiry(options);
      ConnectionStatus(
        true,
        GetOption(options, STORE_ID, Bool(false)),
        GetOption(options, PLATFORM, Str(PLATFORM_NAME)),
        GetOption(options, PLATFORM_URL, Bool(false)),
        GetOption(options, CONNECTED_DOMAIN, Bool(false)),
        GetOption(options, SHIPKIA_URL, Bool(false)),
        Truthy(expiry) && now < AsInt(expiry),
        if Truthy(expiry) then expiry else Null)
  }

  /** A disconnected store reports nothing but that; a connected one reports its stored fields
      (the platform defaulting to WooCommerce) and a token that is valid exactly while the stored
      expiry lies ahead. */
  lemma StatusReports(options: Options, now: int)
    ensures var s := Status(options, now);
      && (s.connected <==> Connected(options))
      && (!Connected(options) ==> s == ConnectionStatus(false, Null, Null, Null, Null, Null, false, Null))
      && (Connected(options) ==>
            && s.storeId == GetOption(options, STORE_ID, Bool(false))
            && s.platform == GetOption(options, PLATFORM, Str(PLATFORM_NAME))
            && s.connectedDomain == GetOption(options, CONNECTED_DOMAIN, Bool(false))
            && s.platformUrl == GetOption(options, PLATFORM_URL, Bool(false))
            && s.shipkiaUrl == GetOption(options, SHIPKIA_URL, Bool(false))
            && s.tokenExpiresAt == (if Truthy(Expiry(options)) then Expiry(options) else Null)
            && (s.tokenValid <==> Truthy(Expiry(options)) && now < AsInt(Expiry(options))))
  {
  }

  // ---------------------------------------------------------------- tokens

  /** refresh_token: with a refresh token and an API URL, asks the platform for a new access token;
      on a `success` reply stores the new token and its expiry. The result says whether it did. */
  function RefreshStep(st: State, env: Env, clock: Clock): (bool, State)
  {
    var refresh := GetOption(st.options, REFRESH_TOKEN, Bool(false));
    var domain := StoreDomain(env.siteUrl);
    var (api, st1) := ApiBaseUrl(st);
    if !Truthy(refresh) || EmptyString(api) then (false, st1)
    else
      var reply := NextReply(st1.inbox);
      var st2 := Sent(st1, Request(api, RefreshToken(refresh, domain)));
      if HasStatus(reply, "success") then
        (true, st2.(options := st2.options[ACCESS_TOKEN := reply.data.accessToken]
                                         [TOKEN_EXPIRY := Int(clock.now + reply.data.expiresIn)]))
      else (false, st2)
  }

  /** A refresh succeeds exactly when there is a refresh token and an API URL and the platform
      answers `success`; only then do the access token and expiry change, and at most one request
      goes out. */
  lemma RefreshOutcome(st: State, env: Env, clock: Clock)
    ensures var (ok, r) := RefreshStep(st, env, clock);
      && r.transients == st.transients && r.pluginSecret == st.pluginSecret
      && (ok <==> Truthy(GetOption(st.options, REFRESH_TOKEN, Bool(false))) &&
                  !EmptyString(ApiBaseUrl(st).0) && HasStatus(NextReply(st.inbox), "success"))
      && (!ok ==> r.options == st.options)
      && (ok ==> r.options == st.options[ACCESS_TOKEN := NextReply(st.inbox).data.accessToken]
                                        [TOKEN_EXPIRY := Int(clock.now + NextReply(st.inbox).data.expiresIn)])
      && var refresh := GetOption(st.options, REFRESH_TOKEN, Bool(false));
         var api := ApiBaseUrl(st).0;
         if !Truthy(refresh) || EmptyString(api) then r.outbox == st.outbox && r.inbox == st.inbox
         else r.outbox == st.outbox + [Request(api, RefreshToken(refresh, StoreDomain(env.siteUrl)))]
              && r.inbox == Remaining(st.inbox)
  {
  }

  /** A refresh changes only connection options, so clearing the connection afterwards clears
      the same options as clearing it before. */
  lemma ClearConnectionAfterRefresh(st: State, env: Env, clock: Clock)
    ensures ClearConnection(RefreshStep(st, env, clock).1.options) == ClearConnection(st.options)
    ensures RefreshStep(st, env, clock).1.transients == st.transients
  {
    RefreshOutcome(st, env, clock);
    var o := RefreshStep(st, env, clock).1.options;
    assert o.Keys - CONNECTION_KEYS == st.options.Keys - CONNECTION_KEYS;
  }

  /** The rest of disconnect() once it holds an access token: tell the platform (when there is a
      token and an API URL; the reply is ignored), then disconnect locally. */
  function NotifyAndClear(st: State, env: Env, token: Value): (Outcome, State)
  {
    var domain := StoreDomain(env.siteUrl);
    var (api, st1) := ApiBaseUrl(st);
    var st2 := if Truthy(token) && !EmptyString(api) then Sent(st1, Request(api, DisconnectPlugin(domain, token))) else st1;
    (Outcome(true, Str(MSG_DISCONNECTED)), DisconnectLocally(st2))
  }

  /** The platform hears of the disconnection exactly when there is a token and an API URL; the
      store ends disconnected either way. */
  lemma NotifyAndClearEffect(st: State, env: Env, token: Value)
    ensures var (out, r) := NotifyAndClear(st, env, token);
      && out == Outcome(true, Str(MSG_DISCONNECTED))
      && r.options == ClearConnection(st.options) && !Connected(r.options)
      && r.transients == st.transients - {CHECKED, VERIFIED}
      && r.pluginSecret == st.pluginSecret
      && var api := ApiBaseUrl(st).0;
         if Truthy(token) && !EmptyString(api) then
           r.outbox == st.outbox + [Request(api, DisconnectPlugin(StoreDomain(env.siteUrl), token))]
         else r.outbox == st.outbox
  {
  }

  /** get_access_token, as the plugin evidently intends it: null when not connected; the stored token
      when it is not about to expire; otherwise a refreshed token, or, when the refresh fails, null
      after disconnecting with the token at hand. */
  function AccessTokenStep(st: State, env: Env, clock: Clock): (Value, State)
  {
    if !Connected(st.options) then (Null, st)
    else
      var token := GetOption(st.options, ACCESS_TOKEN, Bool(false));
      if NeedsRefresh(st.options, clock.now) then
        var (ok, st1) := RefreshStep(st, env, clock);
        if ok then (GetOption(st1.options, ACCESS_TOKEN, Bool(false)), st1)
        else (Null, NotifyAndClear(st1, env, token).1)
      else (token, st)
  }

  /** The corrected get_access_token returns the stored token untouched outside the refresh window,
      the new token after a successful refresh, and null with the store disconnected after a
      failed one. */
  lemma AccessTokenOutcome(st: State, env: Env, clock: Clock)
    ensures var (token, r) := AccessTokenStep(st, env, clock);
      && (!Connected(st.options) ==> token == Null && r == st)
      && (Connected(st.options) && !NeedsRefresh(st.options, clock.now) ==>
            token == GetOption(st.options, ACCESS_TOKEN, Bool(false)) && r == st)
      && (Connected(st.options) && NeedsRefresh(st.options, clock.now) ==>
            var (ok, st1) := RefreshStep(st, env, clock);
            if ok then token == GetOption(st1.options, ACCESS_TOKEN, Bool(false)) && r == st1
            else token == Null && !Connected(r.options) && r.options == ClearConnection(st.options))
      && r.pluginSecret == st.pluginSecret
  {
    var (ok, st1) := RefreshStep(st, env, clock);
    RefreshOutcome(st, env, clock);
    ClearConnectionAfterRefresh(st, env, clock);
    NotifyAndClearEffect(st1, env, GetOption(st.options, ACCESS_TOKEN, Bool(false)));
  }

  /** disconnect(): fetch the access token (which may refresh it), notify the platform, disconnect
      locally. */
  function DisconnectStep(st: State, env: Env, clock: Clock): (Outcome, State)
  {
    var (token, st1) := AccessTokenStep(st, env, clock);
    NotifyAndClear(st1, env, token)
  }

  /** disconnect() always succeeds and always leaves the store disconnected, having removed the
      connection options and the checked and verified marks. */
  lemma DisconnectClears(st: State, env: Env, clock: Clock)
    ensures var (out, r) := DisconnectStep(st, env, clock);
      && out == Outcome(true, Str(MSG_DISCONNECTED))
      && !Connected(r.options) && r.options == ClearConnection(st.options)
      && r.transients == st.transients - {CHECKED, VERIFIED}
      && r.pluginSecret == st.pluginSecret
  {
    var (token, st1) := AccessTokenStep(st, env, clock);
    AccessTokenOutcome(st, env, clock);
    ClearConnectionAfterRefresh(st, env, clock);
    NotifyAndClearEffect(st1, env, token);
    var (ok, st0) := RefreshStep(st, env, clock);
    NotifyAndClearEffect(st0, env, GetOption(st.options, ACCESS_TOKEN, Bool(false)));
    assert st1.transients - {CHECKED, VERIFIED} == st.transients - {CHECKED, VERIFIED};
  }

  /** get_access_token as written: when the refresh fails it calls disconnect(), which calls
      get_access_token again on a state that is still connected with the same expiry. `fuel`
      bounds the nesting of these calls; None means the call had not returned when it ran out. */
  function AccessTokenAsWritten(st: State, env: Env, clock: Clock, fuel: nat): Option<(Value, State)>
    decreases fuel, 1
  {
    if !Connected(st.options) then Some((Null, st))
    else
      var token := GetOption(st.options, ACCESS_TOKEN, Bool(false));
      if NeedsRefresh(st.options, clock.now) then
        var (ok, st1) := RefreshStep(st, env, clock);
        if ok then Some((GetOption(st1.options, ACCESS_TOKEN, Bool(false)), st1))
        else if fuel == 0 then None
        else
          match DisconnectAsWritten(st1, env, clock, fuel - 1)
          case None => None
          case Some((_, st2)) => Some((Null, st2))
      else Some((token, st))
  }

  /** disconnect() as written, over AccessTokenAsWritten. */
  function DisconnectAsWritten(st: State, env: Env, clock: Clock, fuel: nat): Option<(Outcome, State)>
    decreases fuel, 2
  {
    match AccessTokenAsWritten(st, env, clock, fuel)
    case None => None
    case Some((token, st1)) => Some(NotifyAndClear(st1, env, token))
  }

  /** True iff no reply in the queue reports `success`: the platform refuses every refresh. */
  predicate RefusesAll(inbox: seq<Reply>)
  {
    forall i :: 0 <= i < |inbox| ==> !HasStatus(inbox[i], "success")
  }

  /** The written get_access_token never returns once the token is in its refresh window and no
      refresh can succeed: however deep the call stack may grow, the recursion is still going. */
  lemma {:induction false} AsWrittenNeverReturns(st: State, env: Env, clock: Clock, fuel: nat)
    requires Connected(st.options) && NeedsRefresh(st.options, clock.now)
    requires RefusesAll(st.inbox)
    ensures AccessTokenAsWritten(st, env, clock, fuel) == None
    ensures DisconnectAsWritten(st, env, clock, fuel) == None
    decreases fuel
  {
    var (ok, st1) := RefreshStep(st, env, clock);
    RefreshOutcome(st, env, clock);
    assert !ok;
    assert st1.options == st.options;
    assert RefusesAll(st1.inbox) by {
      assert st1.inbox == st.inbox || st1.inbox == st.inbox[1..];
    }
    if fuel > 0 {
      AsWrittenNeverReturns(st1, env, clock, fuel - 1);
    }
  }

  /** A concrete case: connected, the token expiring now, no refresh token and no reply queued (the
      refresh returns false before sending anything). */
  lemma AsWrittenNeverReturnsWithoutRefreshToken(env: Env, clock: Clock, fuel: nat)
    ensures var st := State(map[CONNECTED := Bool(true), TOKEN_EXPIRY := Int(clock.now)], map[], None, Null, [], []);
      clock.now != 0 ==> AccessTokenAsWritten(st, env, clock, fuel) == None
  {
    var st := State(map[CONNECTED := Bool(true), TOKEN_EXPIRY := Int(clock.now)], map[], None, Null, [], []);
    if clock.now != 0 {
      AsWrittenNeverReturns(st, env, clock, fuel);
    }
  }

  /** Where the written get_access_token does return (no refresh needed, or a refresh that succeeds),
      it returns what the corrected AccessTokenStep returns. */
  lemma AsWrittenAgreesWhenRefreshSucceeds(st: State, env: Env, clock: Clock, fuel: nat)
    requires !Connected(st.options) || !NeedsRefresh(st.options, clock.now) || RefreshStep(st, env, clock).0
    ensures AccessTokenAsWritten(st, env, clock, fuel) == Some(AccessTokenStep(st, env, clock))
  {
  }

  // ---------------------------------------------------------------- platform calls

  /** The settings sync_settings pushes, read with the defaults the source gives them. */
  function SettingsCall(options: Options, token: Value, domain: string): Call
  {
    SyncSettings(token, domain,
                 GetOption(options, Helpers.TRACKING_ENABLED, Str("yes")),
                 GetOption(options, Helpers.BUTTON_TEXT, Str(Helpers.DEFAULT_BUTTON_TEXT)),
                 GetOption(options, Helpers.NEW_TAB, Str("yes")),
                 PLUGIN_VERSION)
  }

  /** sync_settings: pushes the tracking settings with a valid access token. */
  function SyncStep(st: State, env: Env, clock: Clock): (bool, State)
  {
    if !Connected(st.options) then (false, st)
    else
      var (api, st1) := ApiBaseUrl(st);
      var (token, st2) := AccessTokenStep(st1, env, clock);
      var domain := StoreDomain(env.siteUrl);
      if EmptyString(api) || !Truthy(token) then (false, st2)
      else
        var reply := NextReply(st2.inbox);
        (!reply.TransportError?, Sent(st2, Request(api, SettingsCall(st2.options, token, domain))))
  }

  /** sync_settings is true exactly when the store is connected, has an API URL and a valid access
      token, and the settings request got any HTTP reply (its content is not read). It sends
      nothing when disconnected or without URL or token. */
  lemma SyncOutcome(st: State, env: Env, clock: Clock)
    ensures var (ok, r) := SyncStep(st, env, clock);
      && (!Connected(st.options) ==> !ok && r == st)
      && (Connected(st.options) ==>
            var (api, st1) := ApiBaseUrl(st);
            var (token, st2) := AccessTokenStep(st1, env, clock);
            && (ok <==> !EmptyString(api) && Truthy(token) && !NextReply(st2.inbox).TransportError?)
            && (EmptyString(api) || !Truthy(token) ==> r == st2)
            && (!EmptyString(api) && Truthy(token) ==>
                  r.outbox == st2.outbox + [Request(api, SettingsCall(st2.options, token, StoreDomain(env.siteUrl)))]
                  && r.options == st2.options))
  {
  }

  /** A sync from a connected store whose token is outside the refresh window changes no option. */
  lemma SyncKeepsFreshConnection(st: State, env: Env, clock: Clock)
    requires Connected(st.options) && !NeedsRefresh(st.options, clock.now)
    ensures SyncStep(st, env, clock).1.options == st.options
  {
    var (api, st1) := ApiBaseUrl(st);
    AccessTokenOutcome(st1, env, clock);
  }

  /** exchange_token: trades a temporary token for access and refresh tokens. */
  function ExchangeStep(st: State, env: Env, clock: Clock, tempToken: Value, storeId: Value, platformUrl: Value): (bool, State)
  {
    var domain := StoreDomain(env.siteUrl);
    var (api, st1) := ApiBaseUrl(st);
    var reply := NextReply(st1.inbox);
    var st2 := Sent(st1, Request(api, ExchangeToken(tempToken, domain, storeId)));
    match reply
    case TransportError(_) => (false, st2)
    case Undecodable => (false, st2)
    case Message(d) =>
      if d.status == Str("success") then
        var st3 := st2.(options := StoreConnection(st2.options, d.accessToken, d.refreshToken, storeId,
                                                   d.expiresIn, platformUrl, None, domain, clock.now));
        (true, SyncStep(st3, env, clock).1)
      else if d.message != Null then
        (false, st2.(transients := WithTransient(st2.transients, CONNECTION_ERROR, d.message, HOUR_IN_SECONDS, clock.now)))
      else (false, st2)
  }

  /** The exchange succeeds exactly on a `success` reply: the connection is then stored under the
      store id it was given, with the store's own domain, and the settings synced. Otherwise no
      option changes, and a reply message becomes the connection error for the next hour. */
  lemma ExchangeOutcome(st: State, env: Env, clock: Clock, tempToken: Value, storeId: Value, platformUrl: Value)
    ensures var (ok, r) := ExchangeStep(st, env, clock, tempToken, storeId, platformUrl);
      var (api, st1) := ApiBaseUrl(st);
      var reply := NextReply(st1.inbox);
      var domain := StoreDomain(env.siteUrl);
      var st2 := Sent(st1, Request(api, ExchangeToken(tempToken, domain, storeId)));
      && (ok <==> HasStatus(reply, "success"))
      && (ok ==> r == SyncStep(st2.(options := StoreConnection(st2.options, reply.data.accessToken,
                                       reply.data.refreshToken, storeId, reply.data.expiresIn,
                                       platformUrl, None, domain, clock.now)), env, clock).1)
      && (!ok ==> r.options == st.options && r.pluginSecret == st.pluginSecret)
      && (!ok && reply.Message? && reply.data.message != Null ==>
            forall t :: clock.now <= t < clock.now + HOUR_IN_SECONDS ==>
              GetTransient(r.transients, CONNECTION_ERROR, t) == reply.data.message)
  {
  }

  /** auto_sync_on_activate: registers the store with the platform by its domain and plugin secret. */
  function AutoSyncStep(st: State, env: Env, clock: Clock): (bool, State)
  {
    var domain := StoreDomain(env.siteUrl);
    var (api, st1) := ApiBaseUrl(st);
    var (secret, st2) := PluginSecret(st1, env);
    var reply := NextReply(st2.inbox);
    var st3 := Sent(st2, Request(api, AutoSync(domain, PLATFORM_NAME, PLUGIN_SLUG, PLUGIN_VERSION, secret)));
    if SaysConnected(reply) then
      var d := reply.data;
      (true, st3.(options := StoreConnection(st3.options, d.accessToken, d.refreshToken, d.storeId,
                                             d.expiresIn, d.platformUrl, Some(domain), domain, clock.now)))
    else (false, st3)
  }

  /** The auto-sync sends exactly one request, with the store's domain and plugin secret; it is
      true exactly when the reply says `connected: true`, and then the connection in the reply is
      stored as it came. Transients are untouched. */
  lemma AutoSyncOutcome(st: State, env: Env, clock: Clock)
    ensures var (ok, r) := AutoSyncStep(st, env, clock);
      var (api, st1) := ApiBaseUrl(st);
      var (secret, st2) := PluginSecret(st1, env);
      var reply := NextReply(st2.inbox);
      var domain := StoreDomain(env.siteUrl);
      && (ok <==> SaysConnected(reply))
      && (ok ==> r.options == StoreConnection(st2.options, reply.data.accessToken, reply.data.refreshToken,
                                              reply.data.storeId, reply.data.expiresIn, reply.data.platformUrl,
                                              Some(domain), domain, clock.now))
      && (!ok ==> r.options == st2.options)
      && r.outbox == st.outbox + [Request(api, AutoSync(domain, PLATFORM_NAME, PLUGIN_SLUG, PLUGIN_VERSION, secret))]
      && r.transients == st.transients
  {
  }

  /** The verification request of attempt_auto_connect and manual_connect: the store's domain
      with a signature over it and the current timestamp, posted to `api`. */
  function VerifyRequest(st: State, env: Env, clock: Clock, api: string): (Reply, State)
  {
    var domain := StoreDomain(env.siteUrl);
    var (signature, st1) := GenerateSignature(st, env, domain, Some(clock.stamp));
    (NextReply(st1.inbox), Sent(st1, Request(api, VerifyConnection(domain, signature, clock.stamp))))
  }

  /** The verification request signs the domain and the timestamp it sends; of the options only
      the plugin secret may change, and no transient does. */
  lemma VerifyRequestSends(st: State, env: Env, clock: Clock, api: string)
    ensures var (reply, r) := VerifyRequest(st, env, clock, api);
      var domain := StoreDomain(env.siteUrl);
      var (secret, st1) := PluginSecret(st, env);
      && reply == NextReply(st.inbox)
      && r.outbox == st.outbox + [Request(api, VerifyConnection(domain,
                                    env.hmac(SignatureMessage(domain, Some(clock.stamp)), ToStr(secret)), clock.stamp))]
      && (r.options == st.options || r.options == st.options[PLUGIN_SECRET := Str(env.generatedSecret)])
      && r.transients == st.transients
  {
    PluginSecretSettles(st, env);
  }

  /** attempt_auto_connect: asks the platform, with a signed timestamp, whether the store is
      connected, and acts on the answer. */
  function AttemptStep(st: State, env: Env, clock: Clock): State
  {
    var (api, st1) := ApiBaseUrl(st);
    if EmptyString(api) then st1
    else
      var (reply, st2) := VerifyRequest(st1, env, clock, api);
      AttemptReply(st2, env, clock, reply)
  }

  /** How attempt_auto_connect answers the platform's reply to its verification request. */
  function AttemptReply(st: State, env: Env, clock: Clock, reply: Reply): State
  {
    match reply
    case TransportError(_) => st
    case Undecodable => st
    case Message(d) =>
      if d.connected == Bool(true) then
        if d.tempToken != Null then ExchangeStep(st, env, clock, d.tempToken, d.storeId, d.platformUrl).1
        else st
      else if Connected(st.options) then DisconnectLocally(st)
      else st
  }

  /** An undecoded reply changes nothing; `connected: true` with a temporary token is exchanged
      for tokens (without one nothing happens); any other decoded reply leaves the store
      disconnected. */
  lemma AttemptReplyOutcome(st: State, env: Env, clock: Clock, reply: Reply)
    ensures var r := AttemptReply(st, env, clock, reply);
      && (!reply.Message? ==> r == st)
      && (SaysConnected(reply) && reply.data.tempToken != Null ==>
            r == ExchangeStep(st, env, clock, reply.data.tempToken, reply.data.storeId, reply.data.platformUrl).1)
      && (SaysConnected(reply) && reply.data.tempToken == Null ==> r == st)
      && (reply.Message? && !SaysConnected(reply) ==> !Connected(r.options))
      && (reply.Message? && !SaysConnected(reply) && Connected(st.options) ==> r == DisconnectLocally(st))
      && (reply.Message? && !SaysConnected(reply) && !Connected(st.options) ==> r == st)
  {
  }

  /** Without an API URL nothing is sent; otherwise the verification request goes to the API and
      its reply is answered. */
  lemma AttemptOutcome(st: State, env: Env, clock: Clock)
    ensures var (api, st1) := ApiBaseUrl(st);
      && (EmptyString(api) ==> AttemptStep(st, env, clock) == st1)
      && (!EmptyString(api) ==>
            var (reply, st2) := VerifyRequest(st1, env, clock, api);
            && reply == NextReply(st.inbox)
            && AttemptStep(st, env, clock) == AttemptReply(st2, env, clock, reply))
  {
  }

  // ---------------------------------------------------------------- public operations

  /** The failure of manual_connect when the platform does not report the store connected: the
      reply's message, or "Store not found ...", becomes the result and the connection error. */
  function NotConnected(st: State, clock: Clock, d: ReplyData): (Outcome, State)
  {
    var msg := if d.message != Null then d.message else Str(MSG_NOT_FOUND);
    (Outcome(false, msg), st.(transients := WithTransient(st.transients, CONNECTION_ERROR, msg, HOUR_IN_SECONDS, clock.now)))
  }

  /** manual_connect($app_url): with a valid URL, remembers it and asks the platform whether the
      store is connected; the reply decides the outcome. */
  function ManualConnectStep(st: State, env: Env, clock: Clock, appUrl: string): (Outcome, State)
  {
    if !env.validUrl(appUrl) then (Outcome(false, Str(MSG_INVALID_URL)), st)
    else
      var (reply, st1) := VerifyRequest(st.(options := st.options[APP_URL := Str(appUrl)]), env, clock, appUrl);
      ConnectReply(st1, env, clock, reply)
  }

  /** An invalid URL fails at once and changes nothing; a valid one is stored, and the platform's
      reply to a verification request posted to that URL (not to the cached API URL) decides. */
  lemma ManualConnectOutcome(st: State, env: Env, clock: Clock, appUrl: string)
    ensures !env.validUrl(appUrl) ==>
              ManualConnectStep(st, env, clock, appUrl) == (Outcome(false, Str(MSG_INVALID_URL)), st)
    ensures env.validUrl(appUrl) ==>
              var (reply, st1) := VerifyRequest(st.(options := st.options[APP_URL := Str(appUrl)]), env, clock, appUrl);
              && ManualConnectStep(st, env, clock, appUrl) == ConnectReply(st1, env, clock, reply)
              && st1.outbox == st.outbox + [Request(appUrl, st1.outbox[|st.outbox|].call)]
  {
    if env.validUrl(appUrl) {
      VerifyRequestSends(st.(options := st.options[APP_URL := Str(appUrl)]), env, clock, appUrl);
    }
  }

  /** How manual_connect answers the platform's reply to its verification request. */
  function ConnectReply(st: State, env: Env, clock: Clock, reply: Reply): (Outcome, State)
  {
    match reply
    case TransportError(e) => (Outcome(false, Str(MSG_TRANSPORT_PREFIX + e)), st)
    case Undecodable => (Outcome(false, Str(MSG_INVALID_RESPONSE)), st)
    case Message(d) =>
      if d.connected == Bool(true) then
        var (ok, st1) := ExchangeStep(st, env, clock, d.tempToken, d.storeId, d.platformUrl);
        if ok then (Outcome(true, Str(MSG_CONNECTED)), st1.(transients := WithoutTransient(st1.transients, CONNECTION_ERROR)))
        else (Outcome(false, Str(MSG_CONNECTION_FAILED)), st1)
      else if d.status == Str("not_found") then
        var (ok, st1) := AutoSyncStep(st, env, clock);
        if ok then (Outcome(true, Str(MSG_REGISTERED)), st1)
        else NotConnected(st1, clock, d)
      else NotConnected(st, clock, d)
  }

  /** A transport error or an undecodable reply fails with a message and changes nothing more;
      `connected: true` succeeds exactly when the token exchange does, and then clears the
      connection error; any other reply fails with (and records for an hour) the platform's
      message, except that `not_found` first tries to register the store by auto-sync and
      succeeds when that connects. */
  lemma ConnectReplyOutcome(st: State, env: Env, clock: Clock, reply: Reply)
    ensures var (out, r) := ConnectReply(st, env, clock, reply);
      && (reply.TransportError? ==> out == Outcome(false, Str(MSG_TRANSPORT_PREFIX + reply.error)) && r == st)
      && (reply.Undecodable? ==> out == Outcome(false, Str(MSG_INVALID_RESPONSE)) && r == st)
      && (reply.Message? && reply.data.connected == Bool(true) ==>
            var (ok, st1) := ExchangeStep(st, env, clock, reply.data.tempToken, reply.data.storeId, reply.data.platformUrl);
            && (out.success <==> ok)
            && out.message == Str(if ok then MSG_CONNECTED else MSG_CONNECTION_FAILED)
            && r.options == st1.options
            && (ok ==> CONNECTION_ERROR !in r.transients))
      && (reply.Message? && reply.data.connected != Bool(true) ==>
            (out.success <==> reply.data.status == Str("not_found") && AutoSyncStep(st, env, clock).0))
      && (reply.Message? && reply.data.connected != Bool(true) && !out.success ==>
            var msg := if reply.data.message != Null then reply.data.message else Str(MSG_NOT_FOUND);
            && out.message == msg
            && forall t :: clock.now <= t < clock.now + HOUR_IN_SECONDS ==>
                 GetTransient(r.transients, CONNECTION_ERROR, t) == msg)
  {
  }

  /** manual_sync: runs the auto-sync; on success marks the connection verified for an hour. */
  function ManualSyncStep(st: State, env: Env, clock: Clock): (Outcome, State)
  {
    var (ok, st1) := AutoSyncStep(st, env, clock);
    if ok then (Outcome(true, Str(MSG_SYNC_OK)), st1.(transients := WithTransient(st1.transients, VERIFIED, Bool(true), HOUR_IN_SECONDS, clock.now)))
    else (Outcome(false, Str(MSG_SYNC_FAILED)), st1)
  }

  /** A manual sync succeeds exactly when the auto-sync does; it then leaves the store connected
      and verified for the next hour. */
  lemma ManualSyncOutcome(st: State, env: Env, clock: Clock)
    ensures var (out, r) := ManualSyncStep(st, env, clock);
      && (out.success <==> AutoSyncStep(st, env, clock).0)
      && out.message == Str(if out.success then MSG_SYNC_OK else MSG_SYNC_FAILED)
      && (out.success ==>
            && Connected(r.options)
            && forall t :: clock.now <= t < clock.now + HOUR_IN_SECONDS ==> Live(r.transients, VERIFIED, t))
      && (!out.success ==> r == AutoSyncStep(st, env, clock).1)
  {
    var (ok, st1) := AutoSyncStep(st, env, clock);
    if ok {
      AutoSyncOutcome(st, env, clock);
      var (api, s1) := ApiBaseUrl(st);
      var (secret, s2) := PluginSecret(s1, env);
      var d := NextReply(s2.inbox).data;
      var domain := StoreDomain(env.siteUrl);
      StoreConnectionStores(s2.options, d.accessToken, d.refreshToken, d.storeId, d.expiresIn, d.platformUrl,
                            Some(domain), domain, clock.now);
    }
  }

  // ---------------------------------------------------------------- auto-connect throttling

  /** What auto_connect_check decides to do. */
  datatype Plan =
    | AlreadyVerified         // connected and verified recently: nothing
    | Reverify(interval: int) // connected, not verified recently: attempt, then mark verified
    | Forced                  // the activation hook asked for a check: clear the request, attempt
    | Throttled               // checked recently: nothing
    | Probe                   // mark checked, attempt

  function CheckPlan(st: State, now: int, onSettingsPage: bool): Plan
  {
    if Connected(st.options) then
      if Live(st.transients, VERIFIED, now) then AlreadyVerified
      else Reverify(if onSettingsPage then HOUR_IN_SECONDS else 12 * HOUR_IN_SECONDS)
    else if Live(st.transients, TRIGGER, now) then Forced
    else if Live(st.transients, CHECKED, now) && (!onSettingsPage || Live(st.transients, CHECKED_SETTINGS, now)) then Throttled
    else Probe
  }

  /** The check does nothing exactly when a connected store was verified recently, or a
      disconnected one, with no activation request, was checked recently (on the settings page:
      within the last five minutes as well). */
  lemma CheckPlanQuiet(st: State, now: int, onSettingsPage: bool)
    ensures var p := CheckPlan(st, now, onSettingsPage);
      (p == AlreadyVerified || p == Throttled) <==>
        if Connected(st.options) then Live(st.transients, VERIFIED, now)
        else !Live(st.transients, TRIGGER, now) && Live(st.transients, CHECKED, now) &&
             (!onSettingsPage || Live(st.transients, CHECKED_SETTINGS, now))
  {
  }

  /** The marks auto_connect_check sets before a probe: checked for an hour, and on the settings
      page also for five minutes. */
  function MarkChecked(ts: Transients, now: int, onSettingsPage: bool): Transients
  {
    var t1 := WithTransient(ts, CHECKED, Bool(true), HOUR_IN_SECONDS, now);
    if onSettingsPage then WithTransient(t1, CHECKED_SETTINGS, Bool(true), SETTINGS_CHECK_INTERVAL, now) else t1
  }

  /** The transients auto_connect_check changes before it attempts a connection: a forced check
      consumes the activation request, a probe sets the checked marks. */
  function BeforeAttempt(ts: Transients, plan: Plan, now: int, onSettingsPage: bool): Transients
  {
    match plan
    case Forced => WithoutTransient(ts, TRIGGER)
    case Probe => MarkChecked(ts, now, onSettingsPage)
    case _ => ts
  }

  /** The transients it changes after the attempt: a re-verification sets the verified mark for
      its interval, whatever the attempt did. */
  function AfterAttempt(ts: Transients, plan: Plan, now: int): Transients
  {
    if plan.Reverify? then WithTransient(ts, VERIFIED, Bool(true), plan.interval, now) else ts
  }

  /** auto_connect_check on an admin page; `onSettingsPage` is whether it is the plugin's settings
      screen. */
  function CheckStep(st: State, env: Env, clock: Clock, onSettingsPage: bool): State
  {
    var plan := CheckPlan(st, clock.now, onSettingsPage);
    if plan.AlreadyVerified? || plan.Throttled? then st
    else
      var st1 := AttemptStep(st.(transients := BeforeAttempt(st.transients, plan, clock.now, onSettingsPage)), env, clock);
      st1.(transients := AfterAttempt(st1.transients, plan, clock.now))
  }

  /** The fallback of shipkia_plugin_activated when the auto-sync did not connect: forget the last
      check and ask for a forced one during the next minute. */
  function ActivationFallback(ts: Transients, now: int): Transients
  {
    WithTransient(WithoutTransient(ts, CHECKED), TRIGGER, Bool(true), TRIGGER_TTL, now)
  }

  /** shipkia_plugin_activated: auto-sync; if that did not connect, the fallback. */
  function ActivatedStep(st: State, env: Env, clock: Clock): State
  {
    var (ok, st1) := AutoSyncStep(st, env, clock);
    if ok then st1 else st1.(transients := ActivationFallback(st1.transients, clock.now))
  }
}
