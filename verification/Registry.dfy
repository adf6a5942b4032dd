/** The registry of connected sessions and the end of a session
    (autoconnect-common/src/registry.rs, autoconnect-ws/src/handler.rs). */
module Registries {
  import opened Notifications
  import opened Sessions

  /** The queue between the registry and one session. */
  datatype Channel = Channel(items: seq<ServerNotification>, open: bool)

  /** Which session, by its uid, is registered for a uaid; and every session's queue. */
  datatype Registry = Registry(clients: map<Uuid, Uuid>, channels: map<Uuid, Channel>)

  // ---------------------------------------------------------- specification

  /** `unbounded_send` fails on a closed channel. */
  function Send(r: Registry, uid: Uuid, item: ServerNotification): (Registry, bool) {
    if uid in r.channels && r.channels[uid].open then
      var ch := r.channels[uid];
      (r.(channels := r.channels[uid := ch.(items := ch.items + [item])]), true)
    else (r, false)
  }

  /** The new session takes over the uaid; the old one is told to disconnect. */
  function Connect(r: Registry, uaid: Uuid, uid: Uuid): Registry {
    var r1 := Registry(r.clients[uaid := uid], r.channels[uid := Channel([], true)]);
    if uaid in r.clients then Send(r1, r.clients[uaid], DisconnectNotif).0 else r1
  }

  function Deliver(r: Registry, uaid: Uuid, item: ServerNotification): (Registry, bool) {
    if uaid in r.clients then Send(r, r.clients[uaid], item) else (r, false)
  }

  /** Only the session that is registered is removed. */
  function Deregister(r: Registry, uaid: Uuid, uid: Uuid): (Registry, bool) {
    if uaid in r.clients && r.clients[uaid] == uid then (r.(clients := r.clients - {uaid}), true)
    else (r, false)
  }

  function CloseChannel(r: Registry, uid: Uuid): Registry {
    if uid in r.channels then r.(channels := r.channels[uid := r.channels[uid].(open := false)]) else r
  }

  function Pop(r: Registry, uid: Uuid): Registry
    requires uid in r.channels && r.channels[uid].items != []
  {
    r.(channels := r.channels[uid := r.channels[uid].(items := r.channels[uid].items[1..])])
  }

  /** The notifications among the queued items. */
  function Notifs(items: seq<ServerNotification>): seq<Notification> {
    if items == [] then []
    else if items[0].DirectNotif? then [items[0].n] + Notifs(items[1..])
    else Notifs(items[1..])
  }
}

/** The registry object, and how `webpush_ws` ends a session. */
module ClientRegistries {
  import opened Notifications
  import opened Sessions
  import opened WebPushClients
  import opened Registries

  class ClientRegistry {
    var clients: map<Uuid, Uuid>
    var channels: map<Uuid, Channel>

    ghost function Model(): Registry
      reads this
    {
      Registry(clients, channels)
    }

    constructor ()
      ensures Model() == Registry(map[], map[])
    {
      clients, channels := map[], map[];
    }

    method UnboundedSend(uid: Uuid, item: ServerNotification) returns (ok: bool)
      modifies this
      ensures (Model(), ok) == Send(old(Model()), uid, item)
    {
      if uid !in channels || !channels[uid].open {
        return false;
      }
      channels := channels[uid := channels[uid].(items := channels[uid].items + [item])];
      return true;
    }

    method Connect(uaid: Uuid, uid: Uuid)
      modifies this
      ensures Model() == Registries.Connect(old(Model()), uaid, uid)
    {
      channels := channels[uid := Channel([], true)];
      var previous := if uaid in clients then Some(clients[uaid]) else None;
      clients := clients[uaid := uid];
      if previous.Some? {
        var _ := UnboundedSend(previous.value, DisconnectNotif);
      }
    }

    method Notify(uaid: Uuid, n: Notification) returns (ok: bool)
      modifies this
      ensures (Model(), ok) == Deliver(old(Model()), uaid, DirectNotif(n))
    {
      if uaid in clients {
        ok := UnboundedSend(clients[uaid], DirectNotif(n));
        if ok { return true; }
      }
      return false;
    }

    method CheckStorage(uaid: Uuid) returns (ok: bool)
      modifies this
      ensures (Model(), ok) == Deliver(old(Model()), uaid, CheckStorageNotif)
    {
      if uaid in clients {
        ok := UnboundedSend(clients[uaid], CheckStorageNotif);
        if ok { return true; }
      }
      return false;
    }

    method Disconnect(uaid: Uuid, uid: Uuid) returns (ok: bool)
      modifies this
      ensures (Model(), ok) == Deregister(old(Model()), uaid, uid)
    {
      var clientExists := uaid in clients && clients[uaid] == uid;
      if clientExists {
        clients := clients - {uaid};
        return true;
      }
      return false;
    }

    method Close(uid: Uuid)
      modifies this
      ensures Model() == CloseChannel(old(Model()), uid)
    {
      if uid in channels {
        channels := channels[uid := channels[uid].(open := false)];
      }
    }

    /** The next queued item, if any. */
    method Next(uid: Uuid) returns (item: Option<ServerNotification>)
      requires uid in channels
      modifies this
      ensures old(channels)[uid].items == [] ==> item == None && Model() == old(Model())
      ensures old(channels)[uid].items != [] ==>
                item == Some(old(channels)[uid].items[0]) && Model() == Pop(old(Model()), uid)
    {
      var items := channels[uid].items;
      if items == [] {
        return None;
      }
      channels := channels[uid := channels[uid].(items := items[1..])];
      return Some(items[0]);
    }
  }

  /** What `webpush_ws` does once the session's loop has ended, however it ended: leave
      the registry, close the queue, drain it, and save what is unacked. */
  method EndSession(client: WebPushClient, registry: ClientRegistry, uaid: Uuid, uid: Uuid)
    returns (saved: seq<Notification>)
    requires uid in registry.channels
    modifies client, registry
    ensures client.ackState.unackedDirect == []
    ensures saved == Saved(old(client.ackState.unackedDirect) + Notifs(old(registry.channels)[uid].items))
    ensures var r := CloseChannel(Deregister(old(registry.Model()), uaid, uid).0, uid);
            registry.Model() == r.(channels := r.channels[uid := Channel([], false)])
  {
    var _ := registry.Disconnect(uaid, uid);
    registry.Close(uid);
    DrainQueue(client, registry, uid);
    saved := client.SaveUnackedDirectNotifs();
  }

  /** Queued notifications join the unacked ones; other queued items are dropped. */
  method DrainQueue(client: WebPushClient, registry: ClientRegistry, uid: Uuid)
    requires uid in registry.channels
    modifies client, registry
    ensures client.ackState.unackedDirect
            == old(client.ackState.unackedDirect) + Notifs(old(registry.channels)[uid].items)
    ensures registry.clients == old(registry.clients)
    ensures registry.channels == old(registry.channels)[uid := old(registry.channels)[uid].(items := [])]
  {
    ghost var channels := registry.channels;
    ghost var all := client.ackState.unackedDirect + Notifs(channels[uid].items);
    while registry.channels[uid].items != []
      invariant uid in registry.channels && registry.clients == old(registry.clients)
      invariant registry.channels == channels[uid := channels[uid].(items := registry.channels[uid].items)]
      invariant all == client.ackState.unackedDirect + Notifs(registry.channels[uid].items)
      decreases |registry.channels[uid].items|
    {
      var snotif := registry.Next(uid);
      client.OnServerNotifShutdown(snotif.value);
    }
  }
}
