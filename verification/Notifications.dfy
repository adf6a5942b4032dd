/** The publishable notification, its storage key and its expiry
    (autopush-common/src/notification.rs). */
module Notifications {

  datatype Option<+T> = None | Some(value: T)

  /** `Option::or`: the first value if there is one, else the second. */
  function Or<T>(a: Option<T>, b: Option<T>): Option<T> {
    if a.Some? then a else b
  }

  /** A UUID is its 128 bits. */
  type Uuid = n: nat | n < 0x1_0000_0000_0000_0000_0000_0000_0000_0000

  datatype Notification = Notification(
    channelId: Uuid,
    version: string,
    ttl: nat,
    topic: Option<string>,
    timestamp: nat,                     // seconds
    data: Option<string>,
    sortkey: Option<nat>,               // milliseconds, for non-topic messages
    headers: Option<map<string, string>>)

  /** What identifies a stored row of one user. `SortKeys` prints it. */
  datatype Key =
    | TopicKey(channelId: Uuid, topic: string)
    | StampedKey(timestamp: nat, channelId: Uuid)
    | LegacyKey(channelId: Uuid, version: string)

  /** The key under which a notification is stored; a zero sortkey means "now". */
  function KeyOf(n: Notification, nowMs: nat): Key {
    match n.topic
    case Some(topic) => TopicKey(n.channelId, topic)
    case None =>
      match n.sortkey
      case Some(ts) => StampedKey(if ts == 0 then nowMs else ts, n.channelId)
      case None => LegacyKey(n.channelId, n.version)
  }

  predicate Expired(n: Notification, nowSec: nat) {
    nowSec >= n.timestamp + n.ttl
  }

  /** What `retain` keeps: the notifications that are not expired. */
  function Live(ns: seq<Notification>, nowSec: nat): (live: seq<Notification>)
    ensures |live| <= |ns|
    ensures forall n :: n in live <==> n in ns && !Expired(n, nowSec)
  {
    if ns == [] then []
    else if Expired(ns[0], nowSec) then Live(ns[1..], nowSec)
    else [ns[0]] + Live(ns[1..], nowSec)
  }

  lemma {:induction false} LiveOfConcat(a: seq<Notification>, b: seq<Notification>, nowSec: nat)
    ensures Live(a + b, nowSec) == Live(a, nowSec) + Live(b, nowSec)
  {
    if a == [] {
      assert a + b == b;
    } else {
      assert (a + b)[1..] == a[1..] + b;
      LiveOfConcat(a[1..], b, nowSec);
    }
  }
}
