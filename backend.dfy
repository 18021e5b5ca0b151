/** The requests the plugin sends to the Shipkia platform and the decoded replies it reads. The
    platform itself is an oracle: its replies are given, one per request, in a queue. */
module Backend {
  import opened Php

  /** The body of each request, one constructor per endpoint. */
  datatype Call =
    | AutoSync(domain: string, platform: string, plugin: string, pluginVersion: string, secret: Value)
    | VerifyConnection(domain: string, signature: string, timestamp: string)
    | ExchangeToken(tempToken: Value, storeDomain: string, storeId: Value)
    | RefreshToken(refreshToken: Value, storeDomain: string)
    | DisconnectPlugin(storeDomain: string, accessToken: Value)
    | SyncSettings(accessToken: Value, domain: string, trackingEnabled: Value, buttonText: Value,
                   newTab: Value, pluginVersion: string)

  /** A POST of `call` to the API at `baseUrl`. */
  datatype Request = Request(baseUrl: string, call: Call)

  const METHOD_PREFIX := "/api/method/bu_ecommerce_integrations.api.woocommerce."

  /** The path each endpoint is posted to, below the API base URL. */
  function Path(call: Call): string
  {
    match call
    case AutoSync(_, _, _, _, _) => METHOD_PREFIX + "auto_sync.auto_sync"
    case VerifyConnection(_, _, _) => METHOD_PREFIX + "plugin_auth.verify_plugin_connection"
    case ExchangeToken(_, _, _) => METHOD_PREFIX + "plugin_auth.exchange_plugin_token"
    case RefreshToken(_, _) => METHOD_PREFIX + "plugin_auth.refresh_plugin_token"
    case DisconnectPlugin(_, _) => METHOD_PREFIX + "plugin_auth.disconnect_plugin"
    case SyncSettings(_, _, _, _, _, _) => METHOD_PREFIX + "plugin_auth.sync_plugin_settings"
  }

  function Url(req: Request): string
  {
    req.baseUrl + Path(req.call)
  }

  /** The fields of a reply's `message` object that the plugin reads. `Null` stands for a field
      that is absent or null (isset() is false for both); an absent `expires_in` reads as 0. */
  datatype ReplyData = ReplyData(
    connected: Value,
    status: Value,
    message: Value,
    tempToken: Value,
    storeId: Value,
    accessToken: Value,
    refreshToken: Value,
    expiresIn: int,
    platformUrl: Value)

  /** A reply: a transport error (WP_Error), a body that does not decode to an object with a
      `message` field, or that field. */
  datatype Reply = TransportError(error: string) | Undecodable | Message(data: ReplyData)

  const NO_REPLY := "no reply"

  /** The reply to the next request: the head of the queue, a transport error once it is empty. */
  function NextReply(inbox: seq<Reply>): Reply
  {
    if inbox == [] then TransportError(NO_REPLY) else inbox[0]
  }

  function Remaining(inbox: seq<Reply>): seq<Reply>
  {
    if inbox == [] then [] else inbox[1..]
  }

  /** True iff the reply is a decoded message whose `status` is exactly the string `st`. */
  predicate HasStatus(reply: Reply, st: string)
  {
    reply.Message? && reply.data.status == Str(st)
  }

  /** True iff the reply is a decoded message whose `connected` field is exactly `true`. */
  predicate SaysConnected(reply: Reply)
  {
    reply.Message? && reply.data.connected == Bool(true)
  }
}
