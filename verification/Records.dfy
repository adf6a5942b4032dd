/** Stored notification records (autopush-common/src/db/mod.rs, db/models.rs). */
module Records {
  import opened Notifications
  import opened SortKeys

  datatype NotificationHeaders = NotificationHeaders(
    cryptoKey: Option<string>,
    encryption: Option<string>,
    encryptionKey: Option<string>,
    encoding: Option<string>)

  type Headers = map<string, string>

  function InsertOpt(m: Headers, key: string, value: Option<string>): Headers {
    if value.Some? then m[key := value.value] else m
  }

  function ToMap(h: NotificationHeaders): Headers {
    var m0 := InsertOpt(map[], "crypto_key", h.cryptoKey);
    var m1 := InsertOpt(m0, "encryption", h.encryption);
    var m2 := InsertOpt(m1, "encryption_key", h.encryptionKey);
    InsertOpt(m2, "encoding", h.encoding)
  }

  function Get(m: Headers, key: string): Option<string> {
    if key in m then Some(m[key]) else None
  }

  function FromMap(m: Headers): NotificationHeaders {
    NotificationHeaders(Get(m, "crypto_key"), Get(m, "encryption"), Get(m, "encryption_key"), Get(m, "encoding"))
  }

  const KNOWN_HEADERS := {"crypto_key", "encryption", "encryption_key", "encoding"}

  lemma HeadersRoundTrip(h: NotificationHeaders)
    ensures FromMap(ToMap(h)) == h
  {
  }

  /** Storing a header map keeps the four known headers and drops the others. */
  lemma MapRoundTrip(m: Headers)
    ensures ToMap(FromMap(m)) == map key | key in m && key in KNOWN_HEADERS :: m[key]
    ensures ToMap(FromMap(m)) == m <==> m.Keys <= KNOWN_HEADERS
  {
    var r := ToMap(FromMap(m));
    assert forall key :: key in r <==> key in m && key in KNOWN_HEADERS;
    assert forall key :: key in r ==> r[key] == m[key];
    if m.Keys <= KNOWN_HEADERS {
      assert r.Keys == m.Keys;
    }
  }

  datatype NotificationRecord = NotificationRecord(
    uaid: Uuid,
    chidmessageid: string,
    currentTimestamp: Option<nat>,
    chids: Option<set<string>>,
    timestamp: Option<nat>,
    expiry: nat,
    ttl: Option<nat>,
    data: Option<string>,
    headers: Option<NotificationHeaders>,
    updateid: Option<string>)

  /** 30 days, in seconds. */
  const MAX_EXPIRY: nat := 2_592_000

  function Min(a: nat, b: nat): nat { if a < b then a else b }

  function FromNotif(uaid: Uuid, n: Notification, nowSec: nat, nowMs: nat): NotificationRecord {
    NotificationRecord(
      uaid, ChidMessageId(n, nowMs), None, None, Some(n.timestamp), nowSec + Min(n.ttl, MAX_EXPIRY), Some(n.ttl),
      n.data, if n.headers.Some? then Some(FromMap(n.headers.value)) else None, Some(n.version))
  }

  function IntoNotif(r: NotificationRecord): Result<Notification> {
    match Parse(r.chidmessageid)
    case Err(e) => Err(e)
    case Ok(key) =>
      var version := Or(if key.LegacyKey? then Some(key.version) else None, r.updateid);
      if version.None? then Err(GeneralError("No valid updateid/version found"))
      else if r.timestamp.None? then Err(GeneralError("No timestamp found"))
      else
        Ok(Notification(
             key.channelId, version.value, if r.ttl.Some? then r.ttl.value else 0,
             if key.TopicKey? then Some(key.topic) else None,
             r.timestamp.value, r.data,
             if key.StampedKey? then Some(key.timestamp) else None,
             if r.headers.Some? then Some(ToMap(r.headers.value)) else None))
  }

  /** What storage makes of a notification: a topic message loses its sort timestamp, a zero one becomes
      the time of saving, and only the four known headers stay. */
  function Restored(n: Notification, nowMs: nat): Notification {
    n.(sortkey := if n.topic.Some? then None else if n.sortkey == Some(0) then Some(nowMs) else n.sortkey,
       headers := if n.headers.None? then None
                  else Some(map key | key in n.headers.value && key in KNOWN_HEADERS :: n.headers.value[key]))
  }

  /** A saved notification is read back, as storage makes it, exactly when its key can be parsed. */
  lemma RecordRoundTripIff(uaid: Uuid, n: Notification, nowSec: nat, nowMs: nat)
    ensures IntoNotif(FromNotif(uaid, n, nowSec, nowMs)) == Ok(Restored(n, nowMs)) <==> Storable(KeyOf(n, nowMs))
  {
    ParseUndoesPrintIff(KeyOf(n, nowMs));
    if n.headers.Some? { MapRoundTrip(n.headers.value); }
  }

  /** And it is read back just as it was saved exactly when, moreover, nothing was dropped or filled in. */
  lemma RecordUnchangedIff(uaid: Uuid, n: Notification, nowSec: nat, nowMs: nat)
    requires Storable(KeyOf(n, nowMs))
    ensures IntoNotif(FromNotif(uaid, n, nowSec, nowMs)) == Ok(n) <==>
            (n.topic.Some? ==> n.sortkey.None?) &&
            (n.topic.None? && n.sortkey == Some(0) ==> nowMs == 0) &&
            (n.headers.Some? ==> n.headers.value.Keys <= KNOWN_HEADERS)
  {
    RecordRoundTripIff(uaid, n, nowSec, nowMs);
    if n.headers.Some? { MapRoundTrip(n.headers.value); }
  }

  /** The database keeps the row as long as the message lives, however late it is saved, exactly when
      the message asks for at most 30 days; and it keeps no row longer than either. */
  lemma RowOutlivesMessageIff(uaid: Uuid, n: Notification, nowMs: nat)
    ensures (forall nowSec: nat, at: nat :: n.timestamp <= nowSec && !Expired(n, at) ==>
               at < FromNotif(uaid, n, nowSec, nowMs).expiry)
       <==> n.ttl <= 30 * 24 * 60 * 60
    ensures forall nowSec: nat ::
              var expiry := FromNotif(uaid, n, nowSec, nowMs).expiry;
              expiry <= nowSec + n.ttl && expiry <= nowSec + 30 * 24 * 60 * 60
  {
    if n.ttl > MAX_EXPIRY {
      var at := n.timestamp + MAX_EXPIRY;
      assert !Expired(n, at) && at >= FromNotif(uaid, n, n.timestamp, nowMs).expiry;
    }
  }

  /** A row is read exactly if it has a timestamp and, unless its key has one, a version. The key's own version
      wins, and a missing time to live is none. */
  lemma RowReadIff(r: NotificationRecord, key: Key)
    requires Storable(key) && r.chidmessageid == Print(key)
    ensures IntoNotif(r).Ok? <==> r.timestamp.Some? && (key.LegacyKey? || r.updateid.Some?)
    ensures IntoNotif(r).Ok? ==>
      var n := IntoNotif(r).value;
      && n.channelId == key.channelId && n.data == r.data && r.timestamp == Some(n.timestamp)
      && (if key.LegacyKey? then n.version == key.version else r.updateid == Some(n.version))
      && (r.ttl == Some(n.ttl) || (r.ttl.None? && n.ttl == 0))
  {
    ParseUndoesPrintIff(key);
  }
}
