/** Shipkia_Auth as the plugin runs it: static caches and WordPress stores updated step by step.
    Each method is proved to do what the matching step function of AuthSpec describes, so every
    property proved there holds of the running object. */
module ShipkiaAuth {
  import opened Php
  import opened Backend
  import opened WordPress
  import opened AuthSpec
  import Names

  /** One object stands for the class: its fields are the static caches `$api_base_url` and
      `$plugin_secret`; `wp` is the WordPress site whose options, transients and HTTP transport
      the class uses; `env` is what it reads from outside. */
  class Auth {
    var apiBaseUrl: Option<string>
    var pluginSecret: Value
    const wp: Site
    const env: Env

    /** The caches start empty (PHP's `null`). */
    constructor (wp: Site, env: Env)
      ensures this.wp == wp && this.env == env
      ensures apiBaseUrl == None && pluginSecret == Null
    {
      this.wp := wp;
      this.env := env;
      apiBaseUrl := None;
      pluginSecret := Null;
    }

    /** The state the step functions of AuthSpec speak about. */
    function Snapshot(): State
      reads this, wp
    {
      State(wp.options, wp.transients, apiBaseUrl, pluginSecret, wp.inbox, wp.outbox)
    }

    // ------------------------------------------------------------ caches and signatures

    method GetApiBaseUrl() returns (url: string)
      modifies this
      ensures (url, Snapshot()) == ApiBaseUrl(old(Snapshot()))
    {
      if CacheHit(apiBaseUrl) {
        url := apiBaseUrl.value;
        return;
      }
      var stored := GetOption(wp.options, APP_URL, Str(DEFAULT_API_URL));
      apiBaseUrl := Some(TrimSlashes(ToStr(stored)));
      url := apiBaseUrl.value;
    }

    method EnsurePluginSecret()
      modifies this, wp
      ensures Snapshot() == AuthSpec.EnsurePluginSecret(old(Snapshot()), env)
    {
      var secret := env.consumerSecret;
      if !Truthy(secret) {
        secret := GetOption(wp.options, PLUGIN_SECRET, Bool(false));
        if !Truthy(secret) {
          secret := Str(env.generatedSecret);
          wp.UpdateOption(PLUGIN_SECRET, secret);
        }
      }
      pluginSecret := secret;
    }

    /** Shipkia_Auth::init. */
    method Init()
      modifies this, wp
      ensures Snapshot() == AuthSpec.EnsurePluginSecret(old(Snapshot()), env)
    {
      EnsurePluginSecret();
    }

    method GetPluginSecret() returns (secret: Value)
      modifies this, wp
      ensures (secret, Snapshot()) == PluginSecret(old(Snapshot()), env)
    {
      if !Truthy(pluginSecret) {
        EnsurePluginSecret();
      }
      secret := pluginSecret;
    }

    method GenerateSignature(domain: string, timestamp: Option<string>) returns (signature: string)
      modifies this, wp
      ensures (signature, Snapshot()) == AuthSpec.GenerateSignature(old(Snapshot()), env, domain, timestamp)
    {
      var secret := GetPluginSecret();
      signature := env.hmac(SignatureMessage(domain, timestamp), ToStr(secret));
    }

    // ------------------------------------------------------------ the stored connection

    method IsConnected() returns (connected: bool)
      ensures connected <==> Connected(wp.options)
    {
      connected := Truthy(GetOption(wp.options, CONNECTED, Bool(false)));
    }

    method DisconnectLocally()
      modifies wp
      ensures wp.options == ClearConnection(old(wp.options))
      ensures wp.transients == old(wp.transients) - {CHECKED, VERIFIED}
      ensures wp.inbox == old(wp.inbox) && wp.outbox == old(wp.outbox)
    {
      ghost var o0 := wp.options;
      wp.DeleteOption(CONNECTED);
      ghost var o1 := wp.options;
      wp.DeleteOption(ACCESS_TOKEN);
      ghost var o2 := wp.options;
      wp.DeleteOption(REFRESH_TOKEN);
      ghost var o3 := wp.options;
      wp.DeleteOption(STORE_ID);
      ghost var o4 := wp.options;
      wp.DeleteOption(TOKEN_EXPIRY);
      ghost var o5 := wp.options;
      wp.DeleteOption(PLATFORM);
      ghost var o6 := wp.options;
      wp.DeleteOption(PLATFORM_URL);
      ghost var o7 := wp.options;
      wp.DeleteOption(SHIPKIA_URL);
      ghost var o8 := wp.options;
      wp.DeleteOption(CONNECTED_DOMAIN);
      ghost var o9 := wp.options;
      ClearedStepwise(o0, o1, o2, o3, o4, o5, o6, o7, o8, o9);
      wp.DeleteTransient(CHECKED);
      wp.DeleteTransient(VERIFIED);
    }

    method StoreConnectionData(accessToken: Value, refreshToken: Value, storeId: Value, expiresIn: int,
                               platformUrl: Value, domain: Option<string>, clock: Clock)
      modifies wp
      ensures wp.options == StoreConnection(old(wp.options), accessToken, refreshToken,
                              storeId, expiresIn, platformUrl, domain, StoreDomain(env.siteUrl), clock.now)
      ensures wp.transients == old(wp.transients) && wp.inbox == old(wp.inbox) && wp.outbox == old(wp.outbox)
    {
      ghost var o0 := wp.options;
      wp.UpdateOption(CONNECTED, Bool(true));
      ghost var o1 := wp.options;
      wp.UpdateOption(ACCESS_TOKEN, accessToken);
      ghost var o2 := wp.options;
      wp.UpdateOption(REFRESH_TOKEN, refreshToken);
      ghost var o3 := wp.options;
      wp.UpdateOption(STORE_ID, storeId);
      ghost var o4 := wp.options;
      wp.UpdateOption(TOKEN_EXPIRY, Int(clock.now + expiresIn));
      ghost var o5 := wp.options;
      wp.UpdateOption(PLATFORM, Str(PLATFORM_NAME));
      ghost var o6 := wp.options;
      if Truthy(platformUrl) {
        wp.UpdateOption(PLATFORM_URL, platformUrl);
        wp.UpdateOption(SHIPKIA_URL, platformUrl);
      }
      ghost var o7 := wp.options;
      var connectedDomain := if TruthyString(domain) then domain.value else StoreDomain(env.siteUrl);
      wp.UpdateOption(CONNECTED_DOMAIN, Str(connectedDomain));
      StoredStepwise(o0, o1, o2, o3, o4, o5, o6, o7, wp.options, accessToken, refreshToken, storeId,
                     expiresIn, platformUrl, domain, StoreDomain(env.siteUrl), clock.now);
    }

    method StoreTokens(accessToken: Value, refreshToken: Value, storeId: Value, expiresIn: int,
                       platformUrl: Value, clock: Clock)
      modifies wp
      ensures wp.options == StoreConnection(old(wp.options), accessToken, refreshToken,
                              storeId, expiresIn, platformUrl, None, StoreDomain(env.siteUrl), clock.now)
      ensures wp.transients == old(wp.transients) && wp.inbox == old(wp.inbox) && wp.outbox == old(wp.outbox)
    {
      StoreConnectionData(accessToken, refreshToken, storeId, expiresIn, platformUrl, None, clock);
    }

    method GetConnectionStatus(clock: Clock) returns (status: ConnectionStatus)
      ensures status == Status(wp.options, clock.now)
    {
      var connected := IsConnected();
      if !connected {
        return ConnectionStatus(false, Null, Null, Null, Null, Null, false, Null);
      }
      var expiry := GetOption(wp.options, TOKEN_EXPIRY, Bool(false));
      status := ConnectionStatus(
        true,
        GetOption(wp.options, STORE_ID, Bool(false)),
        GetOption(wp.options, PLATFORM, Str(PLATFORM_NAME)),
        GetOption(wp.options, PLATFORM_URL, Bool(false)),
        GetOption(wp.options, CONNECTED_DOMAIN, Bool(false)),
        GetOption(wp.options, SHIPKIA_URL, Bool(false)),
        Truthy(expiry) && clock.now < AsInt(expiry),
        if Truthy(expiry) then expiry else Null);
    }

    // ------------------------------------------------------------ tokens

    method RefreshToken(clock: Clock) returns (ok: bool)
      modifies this, wp
      ensures (ok, Snapshot()) == RefreshStep(old(Snapshot()), env, clock)
    {
      var refresh := GetOption(wp.options, REFRESH_TOKEN, Bool(false));
      var domain := StoreDomain(env.siteUrl);
      var api := GetApiBaseUrl();
      if !Truthy(refresh) || EmptyString(api) {
        return false;
      }
      var reply := wp.Post(Request(api, Call.RefreshToken(refresh, domain)));
      if HasStatus(reply, "success") {
        wp.UpdateOption(ACCESS_TOKEN, reply.data.accessToken);
        wp.UpdateOption(TOKEN_EXPIRY, Int(clock.now + reply.data.expiresIn));
        return true;
      }
      return false;
    }

    /** The tail of disconnect(): notify the platform when there is a token and an API URL, then
        disconnect locally. */
    method NotifyAndClear(token: Value) returns (out: Outcome)
      modifies this, wp
      ensures (out, Snapshot()) == AuthSpec.NotifyAndClear(old(Snapshot()), env, token)
    {
      var domain := StoreDomain(env.siteUrl);
      var api := GetApiBaseUrl();
      if Truthy(token) && !EmptyString(api) {
        var _ := wp.Post(Request(api, DisconnectPlugin(domain, token)));
      }
      DisconnectLocally();
      out := Outcome(true, Str(MSG_DISCONNECTED));
    }

    /** get_access_token, corrected: a failed refresh disconnects with the token at hand instead of
        calling disconnect(), which would call get_access_token again. */
    method GetAccessToken(clock: Clock) returns (token: Value)
      modifies this, wp
      ensures (token, Snapshot()) == AccessTokenStep(old(Snapshot()), env, clock)
    {
      var connected := IsConnected();
      if !connected {
        return Null;
      }
      token := GetOption(wp.options, ACCESS_TOKEN, Bool(false));
      var expiry := GetOption(wp.options, TOKEN_EXPIRY, Bool(false));
      if Truthy(expiry) && clock.now + REFRESH_MARGIN >= AsInt(expiry) {
        var ok := RefreshToken(clock);
        if ok {
          token := GetOption(wp.options, ACCESS_TOKEN, Bool(false));
        } else {
          var _ := NotifyAndClear(token);
          token := Null;
        }
      }
    }

    method Disconnect(clock: Clock) returns (out: Outcome)
      modifies this, wp
      ensures (out, Snapshot()) == DisconnectStep(old(Snapshot()), env, clock)
    {
      var token := GetAccessToken(clock);
      out := NotifyAndClear(token);
    }

    // ------------------------------------------------------------ platform calls

    method SyncSettings(clock: Clock) returns (ok: bool)
      modifies this, wp
      ensures (ok, Snapshot()) == SyncStep(old(Snapshot()), env, clock)
    {
      var connected := IsConnected();
      if !connected {
        return false;
      }
      var api := GetApiBaseUrl();
      var token := GetAccessToken(clock);
      var domain := StoreDomain(env.siteUrl);
      if EmptyString(api) || !Truthy(token) {
        return false;
      }
      var reply := wp.Post(Request(api, SettingsCall(wp.options, token, domain)));
      ok := !reply.TransportError?;
    }

    method ExchangeToken(clock: Clock, tempToken: Value, storeId: Value, platformUrl: Value) returns (ok: bool)
      modifies this, wp
      ensures (ok, Snapshot()) == ExchangeStep(old(Snapshot()), env, clock, tempToken, storeId, platformUrl)
    {
      var domain := StoreDomain(env.siteUrl);
      var api := GetApiBaseUrl();
      var reply := wp.Post(Request(api, Call.ExchangeToken(tempToken, domain, storeId)));
      if !reply.Message? {
        return false;
      }
      var d := reply.data;
      if d.status == Str("success") {
        StoreTokens(d.accessToken, d.refreshToken, storeId, d.expiresIn, platformUrl, clock);
        var _ := SyncSettings(clock);
        return true;
      }
      if d.message != Null {
        wp.SetTransient(CONNECTION_ERROR, d.message, HOUR_IN_SECONDS, clock.now);
      }
      return false;
    }

    method AutoSyncOnActivate(clock: Clock) returns (ok: bool)
      modifies this, wp
      ensures (ok, Snapshot()) == AutoSyncStep(old(Snapshot()), env, clock)
    {
      var domain := StoreDomain(env.siteUrl);
      var api := GetApiBaseUrl();
      var secret := GetPluginSecret();
      var reply := wp.Post(Request(api, AutoSync(domain, PLATFORM_NAME, PLUGIN_SLUG, PLUGIN_VERSION, secret)));
      if SaysConnected(reply) {
        var d := reply.data;
        StoreConnectionData(d.accessToken, d.refreshToken, d.storeId, d.expiresIn, d.platformUrl, Some(domain), clock);
        return true;
      }
      return false;
    }

    /** The verification request attempt_auto_connect and manual_connect both send. */
    method PostVerification(clock: Clock, api: string) returns (reply: Reply)
      modifies this, wp
      ensures (reply, Snapshot()) == VerifyRequest(old(Snapshot()), env, clock, api)
    {
      ghost var st0 := Snapshot();
      var domain := StoreDomain(env.siteUrl);
      var signature := GenerateSignature(domain, Some(clock.stamp));
      ghost var signed := Snapshot();
      assert (signature, signed) == AuthSpec.GenerateSignature(st0, env, domain, Some(clock.stamp));
      var req := Request(api, VerifyConnection(domain, signature, clock.stamp));
      assert VerifyRequest(st0, env, clock, api) == (NextReply(signed.inbox), Sent(signed, req));
      reply := wp.Post(req);
      assert reply == NextReply(signed.inbox);
      assert Snapshot() == Sent(signed, req);
    }

    method AttemptAutoConnect(clock: Clock)
      modifies this, wp
      ensures Snapshot() == AttemptStep(old(Snapshot()), env, clock)
    {
      var api := GetApiBaseUrl();
      if EmptyString(api) {
        return;
      }
      var reply := PostVerification(clock, api);
      if !reply.Message? {
        return;
      }
      var d := reply.data;
      if d.connected == Bool(true) {
        if d.tempToken != Null {
          var _ := ExchangeToken(clock, d.tempToken, d.storeId, d.platformUrl);
        }
      } else {
        var connected := IsConnected();
        if connected {
          DisconnectLocally();
        }
      }
    }

    // ------------------------------------------------------------ public operations

    method ManualSync(clock: Clock) returns (out: Outcome)
      modifies this, wp
      ensures (out, Snapshot()) == ManualSyncStep(old(Snapshot()), env, clock)
    {
      var ok := AutoSyncOnActivate(clock);
      if ok {
        wp.SetTransient(VERIFIED, Bool(true), HOUR_IN_SECONDS, clock.now);
        out := Outcome(true, Str(MSG_SYNC_OK));
      } else {
        out := Outcome(false, Str(MSG_SYNC_FAILED));
      }
    }

    /** How manual_connect answers the reply to its verification request. */
    method AnswerConnectReply(clock: Clock, reply: Reply) returns (out: Outcome)
      modifies this, wp
      ensures (out, Snapshot()) == ConnectReply(old(Snapshot()), env, clock, reply)
    {
      match reply
      case TransportError(e) =>
        out := Outcome(false, Str(MSG_TRANSPORT_PREFIX + e));
      case Undecodable =>
        out := Outcome(false, Str(MSG_INVALID_RESPONSE));
      case Message(d) =>
        if d.connected == Bool(true) {
          var ok := ExchangeToken(clock, d.tempToken, d.storeId, d.platformUrl);
          if ok {
            wp.DeleteTransient(CONNECTION_ERROR);
            out := Outcome(true, Str(MSG_CONNECTED));
          } else {
            out := Outcome(false, Str(MSG_CONNECTION_FAILED));
          }
        } else {
          if d.status == Str("not_found") {
            var ok := AutoSyncOnActivate(clock);
            if ok {
              return Outcome(true, Str(MSG_REGISTERED));
            }
          }
          var msg := if d.message != Null then d.message else Str(MSG_NOT_FOUND);
          wp.SetTransient(CONNECTION_ERROR, msg, HOUR_IN_SECONDS, clock.now);
          out := Outcome(false, msg);
        }
    }

    method ManualConnect(clock: Clock, appUrl: string) returns (out: Outcome)
      modifies this, wp
      ensures (out, Snapshot()) == ManualConnectStep(old(Snapshot()), env, clock, appUrl)
    {
      if !env.validUrl(appUrl) {
        return Outcome(false, Str(MSG_INVALID_URL));
      }
      wp.UpdateOption(APP_URL, Str(appUrl));
      var reply := PostVerification(clock, appUrl);
      out := AnswerConnectReply(clock, reply);
    }

    // ------------------------------------------------------------ auto-connect throttling

    method AutoConnectCheck(clock: Clock, onSettingsPage: bool)
      modifies this, wp
      ensures Snapshot() == CheckStep(old(Snapshot()), env, clock, onSettingsPage)
    {
      ghost var st0 := Snapshot();
      ghost var plan := CheckPlan(st0, clock.now, onSettingsPage);
      var connected := IsConnected();
      if connected {
        var interval := if onSettingsPage then HOUR_IN_SECONDS else 12 * HOUR_IN_SECONDS;
        if !Live(wp.transients, VERIFIED, clock.now) {
          assert plan == Reverify(interval);
          AttemptAutoConnect(clock);
          ghost var st1 := Snapshot();
          wp.SetTransient(VERIFIED, Bool(true), interval, clock.now);
          assert Snapshot() == st1.(transients := AfterAttempt(st1.transients, plan, clock.now));
        }
        return;
      }
      if Live(wp.transients, TRIGGER, clock.now) {
        assert plan == Forced;
        wp.DeleteTransient(TRIGGER);
        assert Snapshot() == st0.(transients := BeforeAttempt(st0.transients, plan, clock.now, onSettingsPage));
        AttemptAutoConnect(clock);
        return;
      }
      if Live(wp.transients, CHECKED, clock.now) {
        if !onSettingsPage || Live(wp.transients, CHECKED_SETTINGS, clock.now) {
          return;
        }
      }
      assert plan == Probe;
      wp.SetTransient(CHECKED, Bool(true), HOUR_IN_SECONDS, clock.now);
      if onSettingsPage {
        wp.SetTransient(CHECKED_SETTINGS, Bool(true), SETTINGS_CHECK_INTERVAL, clock.now);
      }
      assert Snapshot() == st0.(transients := BeforeAttempt(st0.transients, plan, clock.now, onSettingsPage));
      AttemptAutoConnect(clock);
    }
  }

  /** Writing the connection options one after another stores exactly StoreConnection. */
  lemma StoredStepwise(o0: Options, o1: Options, o2: Options, o3: Options, o4: Options, o5: Options,
                       o6: Options, o7: Options, o8: Options, accessToken: Value, refreshToken: Value,
                       storeId: Value, expiresIn: int, platformUrl: Value, domain: Option<string>,
                       storeDomain: string, now: int)
    requires o1 == o0[CONNECTED := Bool(true)] && o2 == o1[ACCESS_TOKEN := accessToken]
    requires o3 == o2[REFRESH_TOKEN := refreshToken] && o4 == o3[STORE_ID := storeId]
    requires o5 == o4[TOKEN_EXPIRY := Int(now + expiresIn)] && o6 == o5[PLATFORM := Str(PLATFORM_NAME)]
    requires o7 == if Truthy(platformUrl) then o6[PLATFORM_URL := platformUrl][SHIPKIA_URL := platformUrl] else o6
    requires o8 == o7[CONNECTED_DOMAIN := Str(if TruthyString(domain) then domain.value else storeDomain)]
    ensures o8 == StoreConnection(o0, accessToken, refreshToken, storeId, expiresIn, platformUrl, domain,
                                  storeDomain, now)
  {
  }

  /** Deleting the connection options one after another clears exactly CONNECTION_KEYS. */
  lemma ClearedStepwise(o0: Options, o1: Options, o2: Options, o3: Options, o4: Options,
                        o5: Options, o6: Options, o7: Options, o8: Options, o9: Options)
    requires o1 == o0 - {CONNECTED} && o2 == o1 - {ACCESS_TOKEN} && o3 == o2 - {REFRESH_TOKEN}
    requires o4 == o3 - {STORE_ID} && o5 == o4 - {TOKEN_EXPIRY} && o6 == o5 - {PLATFORM}
    requires o7 == o6 - {PLATFORM_URL} && o8 == o7 - {SHIPKIA_URL} && o9 == o8 - {CONNECTED_DOMAIN}
    ensures o9 == ClearConnection(o0)
  {
    assert o9.Keys == o0.Keys - CONNECTION_KEYS;
  }
}
