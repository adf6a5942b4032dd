/** Message ids: what the endpoint encrypts into a message's version and decrypts to delete it
    (autoendpoint/src/extractors/message_id.rs, notification.rs). */
module MessageIds {
  import opened Notifications
  import opened Text
  import opened SortKeys
  import opened Records

  datatype MessageId =
    | WithTopic(uaid: Uuid, channelId: Uuid, topic: string)
    | WithoutTopic(uaid: Uuid, channelId: Uuid, timestamp: nat)

  /** The text that is encrypted. */
  function Encode(id: MessageId): string {
    match id
    case WithTopic(uaid, chid, topic) =>
      TOPIC_NOTIFICATION_PREFIX + ":" + (Simple(uaid) + ":" + (Simple(chid) + ":" + topic))
    case WithoutTopic(uaid, chid, timestamp) =>
      STANDARD_NOTIFICATION_PREFIX + ":" + (Simple(uaid) + ":" + (Simple(chid) + ":" + Decimal(timestamp)))
  }

  function Decode(text: string): Option<MessageId> {
    var segments := Split(text);
    if |segments| != 4 then None
    else if segments[0] == TOPIC_NOTIFICATION_PREFIX then
      match (ParseUuid(segments[1]), ParseUuid(segments[2]))
      case (Some(uaid), Some(chid)) => Some(WithTopic(uaid, chid, segments[3]))
      case _ => None
    else if segments[0] == STANDARD_NOTIFICATION_PREFIX then
      match (ParseUuid(segments[1]), ParseUuid(segments[2]), ParseU64(segments[3]))
      case (Some(uaid), Some(chid), Some(timestamp)) => Some(WithoutTopic(uaid, chid, timestamp))
      case _ => None
    else None
  }

  /** Decryption of a token with the server's keys; nothing when the token is not theirs. */
  type Cipher = string -> Option<string>

  /** A token that `MessageId::encrypt` may produce: encryption is randomized. */
  predicate Encrypts(cipher: Cipher, token: string, id: MessageId) {
    cipher(token) == Some(Encode(id))
  }

  function Decrypt(cipher: Cipher, token: string): Option<MessageId> {
    match cipher(token)
    case None => None
    case Some(text) => Decode(text)
  }

  function SortKey(id: MessageId): string {
    match id
    case WithTopic(_, chid, topic) => TOPIC_NOTIFICATION_PREFIX + ":" + (Hyphenated(chid) + ":" + topic)
    case WithoutTopic(_, chid, timestamp) => STANDARD_NOTIFICATION_PREFIX + ":" + (Decimal(timestamp) + ":" + Hyphenated(chid))
  }

  predicate Decodable(id: MessageId) {
    match id
    case WithTopic(_, _, topic) => Lacks(topic, ':')
    case WithoutTopic(_, _, timestamp) => timestamp < U64_LIMIT
  }

  lemma SplitFour(a: string, b: string, c: string, d: string)
    requires Lacks(a, ':') && Lacks(b, ':') && Lacks(c, ':')
    ensures Split(a + ":" + (b + ":" + (c + ":" + d))) == [a, b, c] + Split(d)
  {
    SplitAt(a, b + ":" + (c + ":" + d));
    SplitThree(b, c, d);
    OneMore(a, b, c, Split(d));
  }

  lemma OneMore<T>(a: T, b: T, c: T, rest: seq<T>)
    ensures [a] + ([b, c] + rest) == [a, b, c] + rest
  {
  }

  lemma FourParts(p: string, a: string, b: string, c: string, uaid: Uuid, chid: Uuid)
    requires Lacks(p, ':') && Lacks(a, ':') && Lacks(b, ':')
    requires ParseUuid(a) == Some(uaid) && ParseUuid(b) == Some(chid)
    ensures var id := Decode(p + ":" + (a + ":" + (b + ":" + c)));
      if !Lacks(c, ':') then id == None
      else if p == "01" then id == Some(WithTopic(uaid, chid, c))
      else if p == "02" then
        id == if ParseU64(c).Some? then Some(WithoutTopic(uaid, chid, ParseU64(c).value)) else None
      else id == None
  {
    SplitFour(p, a, b, c);
    SplitLast(c);
  }

  /** Decryption undoes encryption exactly for colon-free topics and 64-bit timestamps. */
  lemma DecryptUndoesEncryptIff(cipher: Cipher, token: string, id: MessageId)
    requires Encrypts(cipher, token, id)
    ensures Decrypt(cipher, token) == Some(id) <==> Decodable(id)
    ensures !Decodable(id) ==> Decrypt(cipher, token) == None
  {
    SimpleRoundTrip(id.uaid);
    SimpleRoundTrip(id.channelId);
    match id
    case WithTopic(uaid, chid, topic) =>
      FourParts("01", Simple(uaid), Simple(chid), topic, uaid, chid);
    case WithoutTopic(uaid, chid, timestamp) =>
      DecimalIsDigits(timestamp);
      U64RoundTripIff(timestamp);
      FourParts("02", Simple(uaid), Simple(chid), Decimal(timestamp), uaid, chid);
  }

  predicate SpellsWith(text: string, id: MessageId, a: string, b: string, c: string) {
    && Lacks(a, ':') && Lacks(b, ':') && Lacks(c, ':')
    && ParseUuid(a) == Some(id.uaid) && ParseUuid(b) == Some(id.channelId)
    && match id
       case WithTopic(_, _, topic) => c == topic && text == "01" + ":" + (a + ":" + (b + ":" + c))
       case WithoutTopic(_, _, timestamp) =>
         ParseU64(c) == Some(timestamp) && text == "02" + ":" + (a + ":" + (b + ":" + c))
  }

  /** The text spells the id: its prefix, its two UUIDs in some spelling, and its topic or time. */
  ghost predicate Spells(text: string, id: MessageId) {
    exists a, b, c :: SpellsWith(text, id, a, b, c)
  }

  /** Whatever a token decrypts to, it is taken for an id exactly when it spells it. */
  lemma DecodesIffSpells(text: string, id: MessageId)
    ensures Decode(text) == Some(id) <==> Spells(text, id)
  {
    if Decode(text) == Some(id) {
      DecodedIsSpelled(text, id);
    }
    if a, b, c :| SpellsWith(text, id, a, b, c) {
      SpelledIsDecoded(text, id, a, b, c);
    }
  }

  lemma DecodedIsSpelled(text: string, id: MessageId)
    requires Decode(text) == Some(id)
    ensures Spells(text, id)
  {
    var v := Split(text);
    SplitJoins(text);
    JoinOfFour(v);
    assert SpellsWith(text, id, v[1], v[2], v[3]);
  }

  lemma SpelledIsDecoded(text: string, id: MessageId, a: string, b: string, c: string)
    requires SpellsWith(text, id, a, b, c)
    ensures Decode(text) == Some(id)
  {
    FourParts(if id.WithTopic? then "01" else "02", a, b, c, id.uaid, id.channelId);
  }

  lemma JoinOfFour(v: seq<string>)
    requires |v| == 4
    ensures Join(v) == v[0] + ":" + (v[1] + ":" + (v[2] + ":" + v[3]))
  {
    JoinOfThree(v[1..]);
  }

  // ----------------------------------------------------------- the endpoint's notification

  /** The endpoint's own notification: what it needs of the subscription and of the headers. */
  datatype Posted = Posted(
    messageId: string,
    uaid: Uuid,
    channelId: Uuid,
    ttl: nat,
    topic: Option<string>,
    headers: NotificationHeaders,
    timestamp: nat,
    sortKeyTimestamp: nat,
    data: Option<string>)

  /** What `generate_message_id` encrypts. */
  function IdOf(p: Posted): MessageId {
    if p.topic.Some? then WithTopic(p.uaid, p.channelId, p.topic.value)
    else WithoutTopic(p.uaid, p.channelId, p.sortKeyTimestamp)
  }

  function Convert(p: Posted): Notification {
    var headers := ToMap(p.headers);
    Notification(
      p.channelId, p.messageId, p.ttl, p.topic, p.timestamp, p.data,
      if p.topic.None? then Some(p.sortKeyTimestamp) else None,
      if headers == map[] then None else Some(headers))
  }

  lemma MiddlesTellApart(p: string, a: string, b: string, c: string)
    requires Lacks(p, ':') && Lacks(a, ':') && Lacks(b, ':')
    requires p + ":" + (a + ":" + c) == p + ":" + (b + ":" + c)
    ensures a == b
  {
    SplitThree(p, a, c);
    SplitThree(p, b, c);
    assert ([p, a] + Split(c))[1] == ([p, b] + Split(c))[1];
  }

  /** The sort key of a message's id is the key under which the message is stored exactly when it has a
      topic or a nonzero sort timestamp. */
  lemma SortKeyIsStoredKeyIff(p: Posted, nowMs: nat)
    ensures SortKey(IdOf(p)) == ChidMessageId(Convert(p), nowMs) <==>
            p.topic.Some? || p.sortKeyTimestamp != 0 || nowMs == 0
  {
    if p.topic.None? && p.sortKeyTimestamp == 0 && SortKey(IdOf(p)) == ChidMessageId(Convert(p), nowMs) {
      DecimalIsDigits(0);
      DecimalIsDigits(nowMs);
      MiddlesTellApart("02", Decimal(0), Decimal(nowMs), Hyphenated(p.channelId));
      DecimalsTellApart(0, nowMs);
    }
  }

  /** Posted, saved and read back, a message carries a version that decrypts to its id. Deleting by that
      id names the user and, exactly when the sort timestamp was not left to the clock, the key of the
      row it was stored in. */
  lemma DeletionTargetsStoredRowIff(cipher: Cipher, p: Posted, nowSec: nat, nowMs: nat)
    requires Encrypts(cipher, p.messageId, IdOf(p)) && Decodable(IdOf(p))
    requires Storable(KeyOf(Convert(p), nowMs))
    ensures var row := FromNotif(p.uaid, Convert(p), nowSec, nowMs);
      && IntoNotif(row).Ok?
      && Decrypt(cipher, IntoNotif(row).value.version) == Some(IdOf(p))
      && IdOf(p).uaid == row.uaid
      && (SortKey(IdOf(p)) == row.chidmessageid <==> p.topic.Some? || p.sortKeyTimestamp != 0 || nowMs == 0)
  {
    DecryptUndoesEncryptIff(cipher, p.messageId, IdOf(p));
    SortKeyIsStoredKeyIff(p, nowMs);
    RecordRoundTripIff(p.uaid, Convert(p), nowSec, nowMs);
  }

  /** Posted, saved and read back, a message has what was posted: its contents, its sort timestamp, filled in
      from the clock if it was zero, and each of its encryption headers. */
  lemma PostedIsReadBack(p: Posted, nowSec: nat, nowMs: nat)
    requires Storable(KeyOf(Convert(p), nowMs))
    ensures var read := IntoNotif(FromNotif(p.uaid, Convert(p), nowSec, nowMs));
      && read.Ok?
      && var n := read.value;
      && n == Notification(p.channelId, p.messageId, p.ttl, p.topic, p.timestamp, p.data, n.sortkey, n.headers)
      && n.sortkey == (if p.topic.Some? then None
                       else if p.sortKeyTimestamp == 0 then Some(nowMs) else Some(p.sortKeyTimestamp))
      && (n.headers.None? <==> p.headers == NotificationHeaders(None, None, None, None))
      && (n.headers.Some? ==> FromMap(n.headers.value) == p.headers && n.headers.value.Keys <= KNOWN_HEADERS)
  {
    RecordRoundTripIff(p.uaid, Convert(p), nowSec, nowMs);
    HeadersRoundTrip(p.headers);
    HeadersRoundTrip(NotificationHeaders(None, None, None, None));
    MapRoundTrip(ToMap(p.headers));
    assert ToMap(NotificationHeaders(None, None, None, None)) == map[];
  }
}
