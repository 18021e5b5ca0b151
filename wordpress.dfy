/** The parts of WordPress and WooCommerce the plugin reads and writes: the options store, the
    transient store, order meta, and the HTTP transport. */
module WordPress {
  import opened Php
  import opened Backend
  import Names

  /** The plugin's options, by name. */
  type Options = map<Names.OptionName, Value>

  /** get_option($key, $default). */
  function GetOption(options: Options, key: Names.OptionName, default: Value): Value
  {
    if key in options then options[key] else default
  }

  /** A transient: a value and the time (epoch seconds) from which it is gone. */
  datatype Transient = Transient(value: Value, expiresAt: int)

  /** The plugin's transients, by name. */
  type Transients = map<Names.TransientName, Transient>

  /** get_transient($key): the value while it lives, false once it has expired or was never set. */
  function GetTransient(ts: Transients, key: Names.TransientName, now: int): Value
  {
    if key in ts && now < ts[key].expiresAt then ts[key].value else Bool(false)
  }

  /** True iff get_transient($key) is truthy at time `now`. */
  predicate Live(ts: Transients, key: Names.TransientName, now: int)
  {
    Truthy(GetTransient(ts, key, now))
  }

  /** set_transient($key, $value, $ttl) at time `now`. */
  function WithTransient(ts: Transients, key: Names.TransientName, value: Value, ttl: int, now: int): Transients
  {
    ts[key := Transient(value, now + ttl)]
  }

  /** delete_transient($key). */
  function WithoutTransient(ts: Transients, key: Names.TransientName): Transients
  {
    ts - {key}
  }

  /** A WooCommerce order and its string meta fields. */
  datatype Order = Order(id: int, meta: map<string, string>)

  /** $order->get_meta($key, true): the stored string, or "" when there is none. */
  function GetMeta(order: Order, key: string): string
  {
    if key in order.meta then order.meta[key] else ""
  }

  /** wc_get_order($id) over the store's orders: false (here None) for an unknown id. */
  function FindOrder(orders: map<int, Order>, id: int): Option<Order>
  {
    if id in orders then Some(orders[id]) else None
  }

  /** The state WordPress keeps for the plugin across calls: its options and transients, and the
      HTTP transport (the replies still to come and the requests sent so far). */
  class Site {
    var options: Options
    var transients: Transients
    var inbox: seq<Reply>
    var outbox: seq<Request>

    constructor (options: Options, transients: Transients, inbox: seq<Reply>)
      ensures this.options == options && this.transients == transients
      ensures this.inbox == inbox && outbox == []
    {
      this.options := options;
      this.transients := transients;
      this.inbox := inbox;
      outbox := [];
    }

    /** update_option($key, $value). */
    method UpdateOption(key: Names.OptionName, value: Value)
      modifies this
      ensures options == old(options)[key := value]
      ensures transients == old(transients) && inbox == old(inbox) && outbox == old(outbox)
    {
      options := options[key := value];
    }

    /** delete_option($key). */
    method DeleteOption(key: Names.OptionName)
      modifies this
      ensures options == old(options) - {key}
      ensures transients == old(transients) && inbox == old(inbox) && outbox == old(outbox)
    {
      options := options - {key};
    }

    method SetTransient(key: Names.TransientName, value: Value, ttl: int, now: int)
      modifies this
      ensures transients == WithTransient(old(transients), key, value, ttl, now)
      ensures options == old(options) && inbox == old(inbox) && outbox == old(outbox)
    {
      transients := transients[key := Transient(value, now + ttl)];
    }

    method DeleteTransient(key: Names.TransientName)
      modifies this
      ensures transients == WithoutTransient(old(transients), key)
      ensures options == old(options) && inbox == old(inbox) && outbox == old(outbox)
    {
      transients := transients - {key};
    }

    /** wp_remote_post: records the request and takes the next reply from the queue. */
    method Post(req: Request) returns (reply: Reply)
      modifies this
      ensures reply == NextReply(old(inbox)) && inbox == Remaining(old(inbox))
      ensures outbox == old(outbox) + [req]
      ensures options == old(options) && transients == old(transients)
    {
      if inbox == [] {
        reply := TransportError(NO_REPLY);
      } else {
        reply := inbox[0];
        inbox := inbox[1..];
      }
      outbox := outbox + [req];
    }
  }
}
