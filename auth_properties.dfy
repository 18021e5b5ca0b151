/** Properties of the Shipkia_Auth operations that relate several calls: what they leave alone,
    how the stored connection reads back, how the auto-connect check throttles itself, and how
    domains are normalized before they are signed. */
module AuthProperties {
  import opened Php
  import opened Backend
  import opened WordPress
  import opened AuthSpec

  // ---------------------------------------------------------------- what the operations leave alone

  /** The transients an auth operation may touch: it may record a connection error, and it may
      delete (never set) the checked and verified marks; every other transient stays. */
  predicate OnlyClears(t1: Transients, t2: Transients)
  {
    && t2 - {CONNECTION_ERROR, CHECKED, VERIFIED} == t1 - {CONNECTION_ERROR, CHECKED, VERIFIED}
    && (CHECKED in t2 ==> CHECKED in t1 && t2[CHECKED] == t1[CHECKED])
    && (VERIFIED in t2 ==> VERIFIED in t1 && t2[VERIFIED] == t1[VERIFIED])
  }

  /** What every nested auth step keeps: options outside the connection and the plugin secret,
      and the transients as OnlyClears allows. */
  predicate Frame(s1: State, s2: State)
  {
    SameOtherOptions(s1.options, s2.options) && OnlyClears(s1.transients, s2.transients)
  }

  /** Writing the plugin secret is invisible to SameOtherOptions. */
  lemma SecretWriteInvisible(o: Options, v: Value)
    ensures SameOtherOptions(o, o[PLUGIN_SECRET := v])
  {
    var ks := CONNECTION_KEYS + {PLUGIN_SECRET};
    assert (o[PLUGIN_SECRET := v] - ks).Keys == (o - ks).Keys;
  }

  /** An option SameOtherOptions covers is kept, value and all. */
  lemma KeptOption(o1: Options, o2: Options, k: Names.OptionName)
    requires SameOtherOptions(o1, o2) && k !in CONNECTION_KEYS + {PLUGIN_SECRET}
    ensures (k in o2 <==> k in o1) && (k in o2 ==> o2[k] == o1[k])
  {
    var ks := CONNECTION_KEYS + {PLUGIN_SECRET};
    assert k in o2 <==> k in o2 - ks;
    assert k in o1 <==> k in o1 - ks;
  }

  /** A transient OnlyClears does not mention is kept, value and all. */
  lemma KeptTransient(t1: Transients, t2: Transients, k: Names.TransientName)
    requires OnlyClears(t1, t2) && k !in {CONNECTION_ERROR, CHECKED, VERIFIED}
    ensures (k in t2 <==> k in t1) && (k in t2 ==> t2[k] == t1[k])
  {
    var ks := {CONNECTION_ERROR, CHECKED, VERIFIED};
    assert k in t2 <==> k in t2 - ks;
    assert k in t1 <==> k in t1 - ks;
  }

  lemma FrameTrans(s1: State, s2: State, s3: State)
    requires Frame(s1, s2) && Frame(s2, s3)
    ensures Frame(s1, s3)
  {
    var ks := {CONNECTION_ERROR, CHECKED, VERIFIED};
    assert s3.transients - ks == (s2.transients - ks) - {};
  }

  lemma {:induction false} AccessTokenFrame(st: State, env: Env, clock: Clock)
    ensures Frame(st, AccessTokenStep(st, env, clock).1)
  {
    var (ok, st1) := RefreshStep(st, env, clock);
    RefreshOutcome(st, env, clock);
    ClearConnectionAfterRefresh(st, env, clock);
    NotifyAndClearEffect(st1, env, GetOption(st.options, ACCESS_TOKEN, Bool(false)));
    assert Frame(st, st1) by {
      if ok {
        assert st1.options == st.options[ACCESS_TOKEN := NextReply(st.inbox).data.accessToken]
                                        [TOKEN_EXPIRY := Int(clock.now + NextReply(st.inbox).data.expiresIn)];
      }
    }
  }

  lemma {:induction false} SyncFrame(st: State, env: Env, clock: Clock)
    ensures Frame(st, SyncStep(st, env, clock).1)
  {
    if Connected(st.options) {
      var (api, st1) := ApiBaseUrl(st);
      AccessTokenFrame(st1, env, clock);
    }
  }

  /** store_connection_data writes only connection options. */
  lemma StoreConnectionFrame(options: Options, accessToken: Value, refreshToken: Value, storeId: Value,
                             expiresIn: int, platformUrl: Value, domain: Option<string>,
                             storeDomain: string, now: int)
    ensures SameOtherOptions(options, StoreConnection(options, accessToken, refreshToken, storeId, expiresIn,
                                                      platformUrl, domain, storeDomain, now))
  {
    var r := StoreConnection(options, accessToken, refreshToken, storeId, expiresIn, platformUrl, domain, storeDomain, now);
    StoreConnectionKeepsOthers(options, accessToken, refreshToken, storeId, expiresIn, platformUrl, domain, storeDomain, now);
    var ks := CONNECTION_KEYS + {PLUGIN_SECRET};
    assert r - ks == (r - CONNECTION_KEYS) - {PLUGIN_SECRET};
    assert options - ks == (options - CONNECTION_KEYS) - {PLUGIN_SECRET};
  }

  lemma {:induction false} ExchangeFrame(st: State, env: Env, clock: Clock, tempToken: Value, storeId: Value, platformUrl: Value)
    ensures Frame(st, ExchangeStep(st, env, clock, tempToken, storeId, platformUrl).1)
  {
    var domain := StoreDomain(env.siteUrl);
    var (api, st1) := ApiBaseUrl(st);
    var reply := NextReply(st1.inbox);
    var st2 := Sent(st1, Request(api, ExchangeToken(tempToken, domain, storeId)));
    if reply.Message? && reply.data.status == Str("success") {
      var d := reply.data;
      var st3 := st2.(options := StoreConnection(st2.options, d.accessToken, d.refreshToken, storeId,
                                                 d.expiresIn, platformUrl, None, domain, clock.now));
      StoreConnectionFrame(st2.options, d.accessToken, d.refreshToken, storeId,
                           d.expiresIn, platformUrl, None, domain, clock.now);
      assert Frame(st, st3);
      SyncFrame(st3, env, clock);
      FrameTrans(st, st3, SyncStep(st3, env, clock).1);
      assert ExchangeStep(st, env, clock, tempToken, storeId, platformUrl).1 == SyncStep(st3, env, clock).1;
    }
  }

  lemma {:induction false} AutoSyncFrame(st: State, env: Env, clock: Clock)
    ensures Frame(st, AutoSyncStep(st, env, clock).1)
  {
    var domain := StoreDomain(env.siteUrl);
    var (api, st1) := ApiBaseUrl(st);
    var (secret, st2) := PluginSecret(st1, env);
    PluginSecretSettles(st1, env);
    var reply := NextReply(st2.inbox);
    if SaysConnected(reply) {
      var d := reply.data;
      StoreConnectionFrame(st2.options, d.accessToken, d.refreshToken, d.storeId, d.expiresIn, d.platformUrl,
                           Some(domain), domain, clock.now);
    }
  }

  lemma {:induction false} AttemptReplyFrame(st: State, env: Env, clock: Clock, reply: Reply)
    ensures Frame(st, AttemptReply(st, env, clock, reply))
  {
    if SaysConnected(reply) && reply.data.tempToken != Null {
      var d := reply.data;
      ExchangeFrame(st, env, clock, d.tempToken, d.storeId, d.platformUrl);
    } else if reply.Message? && !SaysConnected(reply) && Connected(st.options) {
      DisconnectLocallyClears(st);
    }
  }

  lemma {:induction false} AttemptFrame(st: State, env: Env, clock: Clock)
    ensures Frame(st, AttemptStep(st, env, clock))
  {
    var (api, st1) := ApiBaseUrl(st);
    if !EmptyString(api) {
      var (reply, st2) := VerifyRequest(st1, env, clock, api);
      VerifyRequestSends(st1, env, clock, api);
      SecretWriteInvisible(st1.options, Str(env.generatedSecret));
      assert Frame(st, st2);
      AttemptOutcome(st, env, clock);
      AttemptReplyFrame(st2, env, clock, reply);
      FrameTrans(st, st2, AttemptReply(st2, env, clock, reply));
    }
  }

  /** disconnect() removes the connection and the checked/verified marks, and nothing else. */
  lemma DisconnectRemovesOnlyTheConnection(st: State, env: Env, clock: Clock, t: int)
    ensures var r := DisconnectStep(st, env, clock).1;
      && SameOtherOptions(st.options, r.options)
      && (PLUGIN_SECRET in r.options <==> PLUGIN_SECRET in st.options)
      && Status(r.options, t) == ConnectionStatus(false, Null, Null, Null, Null, Null, false, Null)
  {
    DisconnectClears(st, env, clock);
  }

  /** However manual_connect answers the platform's reply (token exchange, registration by
      auto-sync, or an error), it changes no option outside the connection and the plugin secret. */
  lemma {:induction false} ConnectReplyFrame(st: State, env: Env, clock: Clock, reply: Reply)
    ensures SameOtherOptions(st.options, ConnectReply(st, env, clock, reply).1.options)
  {
    if reply.Message? {
      var d := reply.data;
      if d.connected == Bool(true) {
        ExchangeFrame(st, env, clock, d.tempToken, d.storeId, d.platformUrl);
      } else if d.status == Str("not_found") {
        AutoSyncFrame(st, env, clock);
        assert ConnectReply(st, env, clock, reply).1.options == AutoSyncStep(st, env, clock).1.options;
      }
    }
  }

  /** Answering the verification reply keeps every option outside the connection and the secret. */
  lemma ConnectReplyKeeps(st: State, env: Env, clock: Clock, reply: Reply, k: Names.OptionName)
    requires k !in CONNECTION_KEYS + {PLUGIN_SECRET}
    ensures var o := ConnectReply(st, env, clock, reply).1.options;
      (k in o <==> k in st.options) && (k in o ==> o[k] == st.options[k])
  {
    ConnectReplyFrame(st, env, clock, reply);
    KeptOption(st.options, ConnectReply(st, env, clock, reply).1.options, k);
  }

  /** The verification request keeps every option except the plugin secret. */
  lemma VerifyRequestKeeps(st: State, env: Env, clock: Clock, api: string, k: Names.OptionName)
    requires k != PLUGIN_SECRET
    ensures var o := VerifyRequest(st, env, clock, api).1.options;
      (k in o <==> k in st.options) && (k in o ==> o[k] == st.options[k])
  {
    VerifyRequestSends(st, env, clock, api);
  }

  /** manual_connect with a valid URL always remembers that URL, whatever the platform replies. */
  lemma {:induction false} ManualConnectKeepsAppUrl(st: State, env: Env, clock: Clock, appUrl: string)
    requires env.validUrl(appUrl)
    ensures var r := ManualConnectStep(st, env, clock, appUrl).1;
      APP_URL in r.options && r.options[APP_URL] == Str(appUrl)
  {
    var st1 := st.(options := st.options[APP_URL := Str(appUrl)]);
    ManualConnectOutcome(st, env, clock, appUrl);
    VerifyRequestKeeps(st1, env, clock, appUrl, APP_URL);
    var (reply, st2) := VerifyRequest(st1, env, clock, appUrl);
    ConnectReplyKeeps(st2, env, clock, reply, APP_URL);
  }

  // ---------------------------------------------------------------- the stored connection read back

  /** get_connection_status right after store_connection_data reports what was stored; the token
      is valid exactly until the stored expiry (an expiry of 0 counts as none). */
  lemma StatusAfterStore(options: Options, accessToken: Value, refreshToken: Value, storeId: Value,
                         expiresIn: int, platformUrl: Value, domain: Option<string>, storeDomain: string,
                         now: int, t: int)
    ensures var s := Status(StoreConnection(options, accessToken, refreshToken, storeId, expiresIn,
                                            platformUrl, domain, storeDomain, now), t);
      && s.connected
      && s.storeId == storeId
      && s.platform == Str(PLATFORM_NAME)
      && s.connectedDomain == Str(if TruthyString(domain) then domain.value else storeDomain)
      && (Truthy(platformUrl) ==> s.platformUrl == platformUrl && s.shipkiaUrl == platformUrl)
      && (s.tokenValid <==> now + expiresIn != 0 && t < now + expiresIn)
      && s.tokenExpiresAt == (if now + expiresIn != 0 then Int(now + expiresIn) else Null)
  {
  }

  /** A stored token that is no longer valid is always refreshed first: a token outside the
      refresh window is valid. */
  lemma RefreshWindowCoversInvalidTokens(options: Options, now: int)
    requires Connected(options) && Truthy(Expiry(options))
    ensures !NeedsRefresh(options, now) ==> Status(options, now).tokenValid
  {
  }

  /** A token exchange that succeeds with a token living longer than the refresh margin leaves the
      store connected with exactly the connection it stored (the settings sync that follows does
      not refresh). */
  lemma {:induction false} ExchangeConnects(st: State, env: Env, clock: Clock, tempToken: Value, storeId: Value, platformUrl: Value)
    requires var reply := NextReply(ApiBaseUrl(st).1.inbox);
      HasStatus(reply, "success") && reply.data.expiresIn > REFRESH_MARGIN
    ensures var (ok, r) := ExchangeStep(st, env, clock, tempToken, storeId, platformUrl);
      var d := NextReply(ApiBaseUrl(st).1.inbox).data;
      && ok
      && Connected(r.options)
      && r.options == StoreConnection(st.options, d.accessToken, d.refreshToken, storeId, d.expiresIn,
                                      platformUrl, None, StoreDomain(env.siteUrl), clock.now)
  {
    var domain := StoreDomain(env.siteUrl);
    var (api, st1) := ApiBaseUrl(st);
    var d := NextReply(st1.inbox).data;
    var st2 := Sent(st1, Request(api, ExchangeToken(tempToken, domain, storeId)));
    var o := StoreConnection(st.options, d.accessToken, d.refreshToken, storeId,
                             d.expiresIn, platformUrl, None, domain, clock.now);
    var st3 := st2.(options := o);
    assert st2.options == st.options;
    assert ExchangeStep(st, env, clock, tempToken, storeId, platformUrl) == (true, SyncStep(st3, env, clock).1);
    StoreConnectionStores(st.options, d.accessToken, d.refreshToken, storeId,
                          d.expiresIn, platformUrl, None, domain, clock.now);
    assert Connected(o) && !NeedsRefresh(o, clock.now);
    SyncKeepsFreshConnection(st3, env, clock);
  }

  // ---------------------------------------------------------------- the token finding

  /** The corrected get_access_token always returns. Where the refresh fails it leaves the store
      disconnected and returns null, where the written one never returns. */
  lemma CorrectedReturnsWhereWrittenDoesNot(st: State, env: Env, clock: Clock, fuel: nat)
    requires Connected(st.options) && NeedsRefresh(st.options, clock.now) && RefusesAll(st.inbox)
    ensures AccessTokenAsWritten(st, env, clock, fuel) == None
    ensures AccessTokenStep(st, env, clock).0 == Null
    ensures !Connected(AccessTokenStep(st, env, clock).1.options)
  {
    AsWrittenNeverReturns(st, env, clock, fuel);
  }

  // ---------------------------------------------------------------- auto-connect throttling

  /** The marks a probe sets, kept by whatever the attempt did (OnlyClears), throttle every check
      until they expire, while the store stays disconnected and no activation request arrives. */
  lemma ThrottledByMarks(st: State, r: State, now: int, onSettingsPage: bool, later: int)
    requires CheckPlan(st, now, onSettingsPage) == Probe
    requires OnlyClears(MarkChecked(st.transients, now, onSettingsPage), r.transients)
    requires !Connected(r.options) && CHECKED in r.transients && (onSettingsPage ==> CHECKED_SETTINGS in r.transients)
    requires now <= later < now + (if onSettingsPage then SETTINGS_CHECK_INTERVAL else HOUR_IN_SECONDS)
    ensures CheckPlan(r, later, onSettingsPage) == Throttled
  {
    var marked := MarkChecked(st.transients, now, onSettingsPage);
    KeptTransient(marked, r.transients, TRIGGER);
    if onSettingsPage {
      KeptTransient(marked, r.transients, CHECKED_SETTINGS);
    }
  }

  /** After a probe the store stays throttled: for the next hour (five minutes on the settings
      page) the check does nothing, as long as the store is still not connected and the probe did
      not clear its own mark. */
  lemma {:induction false} ThrottledAfterProbe(st: State, env: Env, clock: Clock, onSettingsPage: bool, later: int)
    requires CheckPlan(st, clock.now, onSettingsPage) == Probe
    requires var r := CheckStep(st, env, clock, onSettingsPage);
      !Connected(r.options) && CHECKED in r.transients &&
      (onSettingsPage ==> CHECKED_SETTINGS in r.transients)
    requires clock.now <= later < clock.now + (if onSettingsPage then SETTINGS_CHECK_INTERVAL else HOUR_IN_SECONDS)
    ensures CheckPlan(CheckStep(st, env, clock, onSettingsPage), later, onSettingsPage) == Throttled
  {
    var marked := st.(transients := MarkChecked(st.transients, clock.now, onSettingsPage));
    var r := AttemptStep(marked, env, clock);
    assert CheckStep(st, env, clock, onSettingsPage) == r;
    AttemptFrame(marked, env, clock);
    ThrottledByMarks(st, r, clock.now, onSettingsPage, later);
  }

  /** A probe whose reply does not offer a temporary token for a connected store leaves the store
      disconnected and keeps both checked marks, so every check for the next hour (five minutes
      on the settings page) does nothing. (A probe that exchanges a token may lose its mark: when
      the settings sync after the exchange fails to refresh a short-lived token, the store is
      disconnected locally, which deletes the checked mark.) */
  lemma {:induction false} ThrottledAfterQuietProbe(st: State, env: Env, clock: Clock, onSettingsPage: bool, later: int)
    requires CheckPlan(st, clock.now, onSettingsPage) == Probe
    requires !(SaysConnected(NextReply(st.inbox)) && NextReply(st.inbox).data.tempToken != Null)
    requires clock.now <= later < clock.now + (if onSettingsPage then SETTINGS_CHECK_INTERVAL else HOUR_IN_SECONDS)
    ensures CheckPlan(CheckStep(st, env, clock, onSettingsPage), later, onSettingsPage) == Throttled
  {
    var marked := st.(transients := MarkChecked(st.transients, clock.now, onSettingsPage));
    var r := AttemptStep(marked, env, clock);
    assert CheckStep(st, env, clock, onSettingsPage) == r;
    QuietAttempt(marked, env, clock);
    ThrottledByMarks(st, r, clock.now, onSettingsPage, later);
  }

  /** attempt_auto_connect on a disconnected store whose reply offers no temporary token for a
      connected store leaves it disconnected and changes no transient. */
  lemma QuietAttempt(st: State, env: Env, clock: Clock)
    requires !Connected(st.options)
    requires !(SaysConnected(NextReply(st.inbox)) && NextReply(st.inbox).data.tempToken != Null)
    ensures var r := AttemptStep(st, env, clock);
      r.transients == st.transients && !Connected(r.options)
  {
    var (api, st1) := ApiBaseUrl(st);
    if !EmptyString(api) {
      var (reply, st2) := VerifyRequest(st1, env, clock, api);
      VerifyRequestSends(st1, env, clock, api);
      assert !Connected(st2.options);
      assert AttemptStep(st, env, clock) == st2;
    }
  }

  /** The verified mark a re-verification sets keeps a connected store quiet for its interval. */
  lemma VerifiedMarkQuiets(r: State, ts: Transients, interval: int, now: int, onSettingsPage: bool, later: int)
    requires Connected(r.options) && r.transients == AfterAttempt(ts, Reverify(interval), now)
    requires now <= later < now + interval
    ensures CheckPlan(r, later, onSettingsPage) == AlreadyVerified
  {
  }

  /** Once a connected store has been re-verified, the check does nothing until the interval
      (an hour on the settings page, twelve elsewhere) has passed, while it stays connected. */
  lemma ReverifiedStaysQuiet(st: State, env: Env, clock: Clock, onSettingsPage: bool, later: int)
    requires CheckPlan(st, clock.now, onSettingsPage).Reverify?
    requires Connected(CheckStep(st, env, clock, onSettingsPage).options)
    requires clock.now <= later < clock.now + (if onSettingsPage then HOUR_IN_SECONDS else 12 * HOUR_IN_SECONDS)
    ensures CheckPlan(st, clock.now, onSettingsPage).interval == (if onSettingsPage then HOUR_IN_SECONDS else 12 * HOUR_IN_SECONDS)
    ensures CheckPlan(CheckStep(st, env, clock, onSettingsPage), later, onSettingsPage) == AlreadyVerified
  {
    var plan := CheckPlan(st, clock.now, onSettingsPage);
    var st1 := AttemptStep(st, env, clock);
    var r := CheckStep(st, env, clock, onSettingsPage);
    assert r.transients == AfterAttempt(st1.transients, plan, clock.now);
    VerifiedMarkQuiets(r, st1.transients, plan.interval, clock.now, onSettingsPage, later);
  }

  /** A forced check consumes the activation request: the next check is not forced again. */
  lemma {:induction false} ForcedCheckClearsRequest(st: State, env: Env, clock: Clock, onSettingsPage: bool, later: int)
    requires CheckPlan(st, clock.now, onSettingsPage) == Forced
    ensures !Live(CheckStep(st, env, clock, onSettingsPage).transients, TRIGGER, later)
  {
    var cleared := st.(transients := WithoutTransient(st.transients, TRIGGER));
    var r := AttemptStep(cleared, env, clock);
    assert CheckStep(st, env, clock, onSettingsPage) == r;
    AttemptFrame(cleared, env, clock);
    KeptTransient(cleared.transients, r.transients, TRIGGER);
  }

  /** When activation does not connect the store, any check during the next minute is forced,
      however recently the last one ran. */
  lemma ActivationForcesNextCheck(st: State, env: Env, clock: Clock, onSettingsPage: bool, later: int)
    requires !Connected(st.options)
    requires !AutoSyncStep(st, env, clock).0
    requires clock.now <= later < clock.now + TRIGGER_TTL
    ensures CheckPlan(ActivatedStep(st, env, clock), later, onSettingsPage) == Forced
    ensures CHECKED !in ActivatedStep(st, env, clock).transients
  {
  }

  /** Activation changes no transient when the auto-sync connects; when it does not, it drops
      exactly the checked mark and sets the activation request for sixty seconds. The options
      are those the auto-sync left either way. */
  lemma ActivationOutcome(st: State, env: Env, clock: Clock)
    ensures var (ok, st1) := AutoSyncStep(st, env, clock);
      var r := ActivatedStep(st, env, clock);
      && r.options == st1.options
      && (ok ==> r.transients == st.transients)
      && (!ok ==> r.transients == (st.transients - {CHECKED})[TRIGGER := Transient(Bool(true), clock.now + 60)])
  {
    AutoSyncOutcome(st, env, clock);
  }

  // ---------------------------------------------------------------- domains and signatures

  /** `k` slashes. */
  function Slashes(k: nat): (s: string)
    ensures |s| == k && forall i :: 0 <= i < k ==> s[i] == '/'
  {
    if k == 0 then "" else Slashes(k - 1) + "/"
  }

  /** A host name as normalize_domain produces it: not empty, no surrounding white space, no
      trailing slash, no scheme. */
  predicate PlainHost(h: string)
  {
    && |h| > 0
    && !IsTrimSpace(h[0]) && !IsTrimSpace(h[|h| - 1]) && h[|h| - 1] != '/'
    && !(|h| >= 7 && h[..7] == "http://")
    && !(|h| >= 8 && h[..8] == "https://")
  }

  /** rtrim($s, '/') removes exactly the slashes after a text that does not end in one. */
  lemma {:induction false} TrimSlashesDropsSlashes(s: string, k: nat)
    requires s == [] || s[|s| - 1] != '/'
    ensures TrimSlashes(s + Slashes(k)) == s
    decreases k
  {
    if k == 0 {
      assert s + Slashes(0) == s;
      assert s == [] || !IsSlash(s[|s| - 1]);
    } else {
      var t := s + Slashes(k);
      var u := s + Slashes(k - 1);
      assert t == u + "/";
      assert t[..|t| - 1] == u;
      assert IsSlash(t[|t| - 1]);
      assert TrimEnd(t, IsSlash) == TrimEnd(u, IsSlash);
      TrimSlashesDropsSlashes(s, k - 1);
    }
  }

  /** trim() leaves text alone that neither starts nor ends with white space. */
  lemma TrimKeeps(u: string)
    requires |u| > 0 && !IsTrimSpace(u[0]) && !IsTrimSpace(u[|u| - 1])
    ensures Trim(u) == u
  {
    assert TrimStart(u, IsTrimSpace) == u;
  }

  /** The scheme normalize_domain strips is exactly the one in front of a plain host. */
  lemma StripSchemeOfHost(scheme: string, h: string)
    requires scheme in {"", "http://", "https://"}
    requires PlainHost(h)
    ensures StripScheme(scheme + h) == h
  {
    var p := scheme + h;
    if scheme == "https://" {
      assert p[..8] == "https://";
      assert p[8..] == h;
    } else if scheme == "http://" {
      assert p[..7] == "http://";
      assert p[7..] == h;
      assert !(|p| >= 8 && p[..8] == "https://") by {
        if |p| >= 8 { assert p[4] == ':'; }
      }
    } else {
      assert p == h;
    }
  }

  /** normalize_domain finds the same host with or without `http://` or `https://` in front and
      with any number of slashes behind. */
  lemma {:induction false} NormalizeDomainFindsHost(scheme: string, h: string, k: nat)
    requires scheme in {"", "http://", "https://"}
    requires PlainHost(h)
    ensures NormalizeDomain(scheme + h + Slashes(k)) == h
  {
    var u := scheme + h + Slashes(k);
    var p := scheme + h;
    assert u[0] == p[0];
    assert !IsTrimSpace(u[|u| - 1]) by {
      if k > 0 { assert u[|u| - 1] == '/'; } else { assert u == p; }
    }
    TrimKeeps(u);
    TrimSlashesDropsSlashes(p, k);
    StripSchemeOfHost(scheme, h);
  }

  /** Different timestamps give different signed messages for the same domain. */
  lemma SignedTimestampsDiffer(domain: string, ts1: string, ts2: string)
    requires !EmptyString(ts1) && !EmptyString(ts2) && ts1 != ts2
    ensures SignatureMessage(domain, Some(ts1)) != SignatureMessage(domain, Some(ts2))
  {
    var n := NormalizeDomain(domain) + ":";
    assert SignatureMessage(domain, Some(ts1)) == n + ts1;
    assert SignatureMessage(domain, Some(ts2)) == n + ts2;
    assert (n + ts1)[|n|..] == ts1;
    assert (n + ts2)[|n|..] == ts2;
  }
}
