/** The session object and the database it works on. Every method is proved to take the
    session and the store exactly where `Sessions` says. */
module WebPushClients {
  import opened Notifications
  import Storage
  import opened Sessions

  /** The `DbClient` of one user, as far as the session uses it. */
  class Database {
    const backend: Storage.Backend
    var registry: bool
    var topics: seq<Notification>
    var stamped: seq<Notification>
    var pointer: Option<nat>
    var user: bool

    ghost function Model(): Storage.Store
      reads this
    {
      Storage.Store(backend, registry, topics, stamped, pointer, user)
    }

    constructor (backend: Storage.Backend)
      ensures Model() == Storage.Store(backend, false, [], [], None, true)
    {
      this.backend := backend;
      registry, topics, stamped, pointer, user := false, [], [], None, true;
    }

    method FetchTopicMessages(limit: nat) returns (r: Storage.FetchResponse)
      requires limit > 0
      ensures r == Storage.FetchTopicMessages(Model(), limit)
    {
      if backend.BigTable? {
        return Storage.FetchResponse(None, Storage.Take(topics, limit));
      }
      if registry {
        return Storage.FetchResponse(pointer, Storage.Take(topics, limit - 1));
      }
      if topics == [] {
        return Storage.FetchResponse(None, []);
      }
      return Storage.FetchResponse(None, Storage.Take(topics, limit)[1..]);
    }

    method FetchTimestampMessages(after: Option<nat>, limit: nat) returns (r: Storage.FetchResponse)
      ensures r == Storage.FetchTimestampMessages(Model(), after, limit)
    {
      var batch := Storage.Take(Storage.After(stamped, after), limit);
      r := Storage.FetchResponse(Storage.Highest(batch), batch);
    }

    method IncrementStorage(timestamp: nat)
      modifies this
      ensures Model() == Storage.IncrementStorage(old(Model()), timestamp)
    {
      pointer, registry := Some(timestamp), true;
    }

    method RemoveMessage(key: Key)
      modifies this
      ensures Model() == Storage.RemoveMessage(old(Model()), key)
    {
      topics, stamped := Storage.Without(topics, key), Storage.Without(stamped, key);
    }

    method RemoveUser()
      modifies this
      ensures Model() == Storage.RemoveUser(old(Model()))
    {
      user := false;
    }
  }

  class WebPushClient {
    var flags: ClientFlags
    var ackState: AckState
    var sentFromStorage: nat
    var currentTimestamp: Option<nat>
    var stats: Stats
    const msgLimit: nat
    const db: Database

    ghost function Model(): Session
      reads this
    {
      Session(flags, ackState, sentFromStorage, currentTimestamp, stats, msgLimit)
    }

    constructor (flags: ClientFlags, currentTimestamp: Option<nat>, msgLimit: nat, db: Database)
      ensures this.db == db && Model() == NewSession(flags, currentTimestamp, msgLimit)
    {
      this.flags, this.currentTimestamp, this.msgLimit, this.db := flags, currentTimestamp, msgLimit, db;
      ackState, sentFromStorage, stats := AckState([], [], None), 0, Stats(0, 0, 0);
    }

    // ------------------------------------------------------ on_server_notif

    method OnServerNotif(snotif: ServerNotification, now: nat) returns (r: Outcome)
      requires Storage.Valid(db.Model())
      modifies this, db
      ensures Storage.Valid(db.Model())
      ensures snotif.DirectNotif? ==>
                Model() == Sessions.Notif(old(Model()), snotif.n)
                && db.Model() == old(db.Model()) && r == Sent([snotif.n])
      ensures snotif.CheckStorageNotif? ==>
                (Model(), db.Model(), r) == Sessions.CheckStorage(old(Model()), old(db.Model()), now)
      ensures snotif.DisconnectNotif? ==>
                Model() == old(Model()) && db.Model() == old(db.Model()) && r == Failed(Ghost)
    {
      match snotif
      case DirectNotif(n) =>
        Notif(n);
        r := Sent([n]);
      case CheckStorageNotif => r := CheckStorage(now);
      case DisconnectNotif => r := Failed(Ghost);
    }

    method OnServerNotifShutdown(snotif: ServerNotification)
      modifies this
      ensures Model() ==
                if snotif.DirectNotif? then
                  old(Model()).(ack := old(ackState).(unackedDirect := old(ackState).unackedDirect + [snotif.n]))
                else old(Model())
    {
      if snotif.DirectNotif? {
        ackState := ackState.(unackedDirect := ackState.unackedDirect + [snotif.n]);
      }
    }

    method Notif(n: Notification)
      modifies this
      ensures Model() == Sessions.Notif(old(Model()), n)
    {
      if n.ttl != 0 {
        ackState := ackState.(unackedDirect := ackState.unackedDirect + [n]);
      }
    }

    method CheckStorage(now: nat) returns (r: Outcome)
      requires Storage.Valid(db.Model())
      modifies this, db
      ensures (Model(), db.Model(), r) == Sessions.CheckStorage(old(Model()), old(db.Model()), now)
      ensures Storage.Valid(db.Model())
    {
      flags := flags.(checkStorage := true);
      flags := flags.(includeTopic := true);
      r := CheckStorageLoop(now);
    }

    method CheckStorageLoop(now: nat) returns (r: Outcome)
      requires Storage.Valid(db.Model())
      modifies this, db
      ensures (Model(), db.Model(), r) == Sessions.CheckStorageLoop(old(Model()), old(db.Model()), now)
      ensures Storage.Valid(db.Model())
    {
      ghost var result := Sessions.CheckStorageLoop(Model(), db.Model(), now);
      while flags.checkStorage
        invariant Storage.Valid(db.Model())
        invariant Sessions.CheckStorageLoop(Model(), db.Model(), now) == result
        decreases flags.checkStorage, flags.includeTopic, |db.topics|, |Unread(Model(), db.Model())|
      {
        LoopStepProgress(Model(), db.Model(), now);
        var smsgs := CheckStorageAdvance(now);
        if smsgs != [] {
          var ok := CheckMsgLimit();
          return if ok then Sent(smsgs) else Failed(UaidReset);
        }
      }
      if flags.incrementStorage {
        var ok := IncrementStorage();
        if !ok { return Failed(Internal); }
      }
      return Sent([]);
    }

    method CheckStorageAdvance(now: nat) returns (smsgs: seq<Notification>)
      requires Storage.Valid(db.Model())
      modifies this, db
      ensures (Model(), db.Model(), smsgs) == Advance(old(Model()), old(db.Model()), now)
    {
      var resp := DoCheckStorage();
      smsgs := Receive(resp, now);
    }

    /** What `check_storage_advance` does with the batch. */
    method Receive(resp: CheckStorageResponse, now: nat) returns (smsgs: seq<Notification>)
      modifies this, db
      ensures (Model(), db.Model(), smsgs) == Sessions.Receive(old(Model()), old(db.Model()), resp, now)
    {
      flags := flags.(includeTopic := resp.includeTopic);
      ackState := ackState.(unackedStoredHighest := resp.timestamp);
      if resp.messages == [] {
        flags := flags.(checkStorage := false);
        sentFromStorage := 0;
        return [];
      }
      var messages, expired := Retain(resp.messages, now);
      ghost var st := db.Model();
      RemoveEach(expired);
      assert db.Model() == RemoveAll(st, expired);
      flags := flags.(incrementStorage := !resp.includeTopic && resp.timestamp.Some?);
      if messages == [] {
        return [];
      }
      Keep(messages);
      return messages;
    }

    /** Messages that are sent from storage wait for their acks, and count. */
    method Keep(messages: seq<Notification>)
      modifies this
      ensures Model() == old(Model()).(ack := old(ackState).(unackedStored := old(ackState).unackedStored + messages),
                                       sentFromStorage := old(sentFromStorage) + |messages|)
    {
      ackState := ackState.(unackedStored := ackState.unackedStored + messages);
      sentFromStorage := sentFromStorage + |messages|;
    }

    /** `messages.retain`: the unexpired messages, and the expired topic messages. */
    method Retain(ns: seq<Notification>, now: nat)
      returns (live: seq<Notification>, expired: seq<Notification>)
      ensures live == Live(ns, now) && expired == ExpiredTopics(ns, now)
    {
      live, expired := [], [];
      for i := 0 to |ns|
        invariant live == Live(ns[..i], now) && expired == ExpiredTopics(ns[..i], now)
      {
        RetainNext(ns, i, now);
        if !Expired(ns[i], now) {
          live := live + [ns[i]];
        } else if ns[i].sortkey.None? {
          expired := expired + [ns[i]];
        }
      }
      assert ns[..|ns|] == ns;
    }

    method RemoveEach(ns: seq<Notification>)
      modifies db
      ensures db.Model() == RemoveAll(old(db.Model()), ns)
    {
      for i := 0 to |ns|
        invariant RemoveAll(db.Model(), ns[i..]) == RemoveAll(old(db.Model()), ns)
      {
        assert ns[i..][1..] == ns[i + 1..];
        db.RemoveMessage(KeyOf(ns[i], 0));
      }
    }

    method DoCheckStorage() returns (r: CheckStorageResponse)
      ensures r == Sessions.DoCheckStorage(Model(), db.Model())
    {
      var timestamp := Or(ackState.unackedStoredHighest, currentTimestamp);
      var topicResp := Storage.FetchResponse(None, []);
      if flags.includeTopic {
        topicResp := db.FetchTopicMessages(TOPIC_LIMIT);
      }
      if topicResp.messages != [] {
        return CheckStorageResponse(true, topicResp.messages, topicResp.timestamp);
      }
      if flags.includeTopic {
        timestamp := Or(topicResp.timestamp, currentTimestamp);
      }
      var resp := db.FetchTimestampMessages(timestamp, TIMESTAMP_LIMIT);
      return CheckStorageResponse(false, resp.messages, Or(resp.timestamp, timestamp));
    }

    /** False stands for the internal error. */
    method IncrementStorage() returns (ok: bool)
      modifies this, db
      ensures ok <==> old(ackState).unackedStoredHighest.Some?
      ensures ok ==> (Model(), db.Model()) == Increment(old(Model()), old(db.Model()))
      ensures !ok ==> Model() == old(Model()) && db.Model() == old(db.Model())
    {
      if ackState.unackedStoredHighest.None? {
        return false;
      }
      var timestamp := ackState.unackedStoredHighest.value;
      currentTimestamp := Some(timestamp);
      db.IncrementStorage(timestamp);
      flags := flags.(incrementStorage := false);
      return true;
    }

    /** False stands for the reset of the user. */
    method CheckMsgLimit() returns (ok: bool)
      modifies db
      ensures ok <==> sentFromStorage <= msgLimit
      ensures db.Model() == if ok then old(db.Model()) else Storage.RemoveUser(old(db.Model()))
    {
      if sentFromStorage > msgLimit {
        db.RemoveUser();
        return false;
      }
      return true;
    }

    // -------------------------------------------------------- on_client_msg

    method FindFirst(ns: seq<Notification>, u: ClientAck) returns (pos: Option<nat>)
      ensures pos == Position(ns, u)
    {
      for i := 0 to |ns|
        invariant Position(ns, u) ==
                    (var rest := Position(ns[i..], u); if rest.None? then None else Some(rest.value + i))
      {
        assert ns[i..][1..] == ns[i + 1..];
        if Matches(ns[i], u) {
          return Some(i);
        }
      }
      return None;
    }

    method Ack(updates: seq<ClientAck>, now: nat) returns (r: Outcome)
      requires Storage.Valid(db.Model())
      modifies this, db
      ensures (Model(), db.Model(), r) == Sessions.Ack(old(Model()), old(db.Model()), updates, now)
      ensures Storage.Valid(db.Model())
    {
      AckAllKeepsValid(Model(), db.Model(), updates);
      for i := 0 to |updates|
        invariant AckAll(Model(), db.Model(), updates[i..]) == AckAll(old(Model()), old(db.Model()), updates)
      {
        assert updates[i..][1..] == updates[i + 1..];
        AckUpdate(updates[i]);
      }
      if ackState.unackedStored != [] || ackState.unackedDirect != [] {
        return Sent([]);
      }
      r := PostProcessAllAcked(now);
    }

    /** The body of the loop over the updates of an ack. */
    method AckUpdate(u: ClientAck)
      modifies this, db
      ensures (Model(), db.Model()) == AckOne(old(Model()), old(db.Model()), u)
    {
      var pos := FindFirst(ackState.unackedDirect, u);
      if pos.Some? {
        ackState := ackState.(unackedDirect := RemoveAt(ackState.unackedDirect, pos.value));
        stats := stats.(directAcked := stats.directAcked + 1);
        return;
      }
      pos := FindFirst(ackState.unackedStored, u);
      if pos.Some? {
        var n := ackState.unackedStored[pos.value];
        if n.sortkey.None? {
          db.RemoveMessage(KeyOf(n, 0));
        }
        ackState := ackState.(unackedStored := RemoveAt(ackState.unackedStored, pos.value));
        stats := stats.(storedAcked := stats.storedAcked + 1);
      }
    }

    method PostProcessAllAcked(now: nat) returns (r: Outcome)
      requires Storage.Valid(db.Model())
      modifies this, db
      ensures (Model(), db.Model(), r) == Sessions.PostProcessAllAcked(old(Model()), old(db.Model()), now)
      ensures Storage.Valid(db.Model())
    {
      if flags.checkStorage {
        if flags.incrementStorage {
          var ok := IncrementStorage();
          if !ok { return Failed(Internal); }
        }
        r := CheckStorageLoop(now);
        if r != Sent([]) {
          return;
        }
      }
      if flags.oldRecordVersion {
        db.RemoveUser();
        return Failed(UaidReset);
      }
      return Sent([]);
    }

    // --------------------------------------------------------------- shutdown

    /** Returns the notifications handed to `save_messages`. */
    method SaveUnackedDirectNotifs() returns (saved: seq<Notification>)
      modifies this
      ensures Model() == Shutdown(old(Model())) && saved == Saved(old(ackState).unackedDirect)
    {
      ghost var direct := ackState.unackedDirect;
      saved := ackState.unackedDirect;
      ackState := ackState.(unackedDirect := []);
      if saved == [] {
        return;
      }
      stats := stats.(directStorage := stats.directStorage + |saved|);
      for i := 0 to |saved|
        invariant |saved| == |direct|
        invariant forall j :: 0 <= j < |direct| ==>
                    saved[j] == if j < i then direct[j].(sortkey := Some(0)) else direct[j]
      {
        saved := saved[i := saved[i].(sortkey := Some(0))];
      }
    }
  }

  /** `WebPushClient::new`: a new session, which checks storage at once if its flags say so. */
  method Connect(flags: ClientFlags, currentTimestamp: Option<nat>, msgLimit: nat, db: Database, now: nat)
    returns (client: WebPushClient, r: Outcome)
    requires Storage.Valid(db.Model())
    modifies db
    ensures fresh(client) && client.db == db && Storage.Valid(db.Model())
    ensures var s := NewSession(flags, currentTimestamp, msgLimit);
            (client.Model(), db.Model(), r)
            == if flags.checkStorage then Sessions.CheckStorage(s, old(db.Model()), now)
               else (s, old(db.Model()), Sent([]))
  {
    client := new WebPushClient(flags, currentTimestamp, msgLimit, db);
    if client.flags.checkStorage {
      r := client.CheckStorage(now);
    } else {
      r := Sent([]);
    }
  }
}
