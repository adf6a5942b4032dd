/** How storage keys are printed and parsed (autopush-common/src/notification.rs, db/mod.rs). */
module SortKeys {
  import opened Notifications
  import opened Text

  datatype Error = GeneralError(reason: string) | UuidError | ParseIntError

  datatype Result<+T> = Ok(value: T) | Err(error: Error)

  const TOPIC_NOTIFICATION_PREFIX := "01"
  const STANDARD_NOTIFICATION_PREFIX := "02"

  function Print(key: Key): string {
    match key
    case TopicKey(chid, topic) => TOPIC_NOTIFICATION_PREFIX + ":" + (Hyphenated(chid) + ":" + topic)
    case StampedKey(ts, chid) => STANDARD_NOTIFICATION_PREFIX + ":" + (Decimal(ts) + ":" + Hyphenated(chid))
    case LegacyKey(chid, version) => Hyphenated(chid) + ":" + version
  }

  /** `chidmessageid`. */
  function ChidMessageId(n: Notification, nowMs: nat): string {
    Print(KeyOf(n, nowMs))
  }

  /** A colon at or after `from`, with something behind it. */
  predicate ColonInside(key: string, from: nat) {
    exists i :: from <= i < |key| - 1 && key[i] == ':'
  }

  /** The third pattern of `parse_chidmessageid`. */
  predicate MatchesAny(key: string) {
    Spaceless(key) && ColonInside(key, 3)
  }

  predicate MatchesTopic(key: string) {
    |key| >= 3 && key[..3] == "01:" && Spaceless(key[3..]) && ColonInside(key, 4)
  }

  ghost predicate MatchesStandard(key: string, digit: char -> bool) {
    && |key| >= 3 && key[..3] == "02:"
    && exists i :: 4 <= i < |key| - 1 && key[i] == ':' && (forall j :: 3 <= j < i ==> digit(key[j])) && Spaceless(key[i + 1..])
  }

  /** The other two patterns accept nothing that the third does not, so the third decides. */
  lemma ThirdPatternDecides(key: string, digit: char -> bool)
    requires forall c :: digit(c) ==> !IsSpace(c)
    ensures MatchesTopic(key) || MatchesStandard(key, digit) || MatchesAny(key) <==> MatchesAny(key)
  {
    if MatchesTopic(key) {
      forall i | 0 <= i < |key| ensures !IsSpace(key[i]) {
        assert key[i] == if i < 3 then key[..3][i] else key[3..][i - 3];
      }
    }
    if MatchesStandard(key, digit) {
      var k :| 4 <= k < |key| - 1 && key[k] == ':' && (forall j :: 3 <= j < k ==> digit(key[j])) && Spaceless(key[k + 1..]);
      forall i | 0 <= i < |key| ensures !IsSpace(key[i]) {
        if i < 3 { assert key[i] == key[..3][i]; }
        if i > k { assert key[i] == key[k + 1..][i - k - 1]; }
      }
    }
  }

  function Parse(key: string): Result<Key> {
    if !MatchesAny(key) then Err(GeneralError("Invalid chidmessageid"))
    else
      var v := Split(key);
      if v[0] == TOPIC_NOTIFICATION_PREFIX then
        if |v| != 3 then Err(GeneralError("Invalid topic key"))
        else match ParseUuid(v[1])
          case None => Err(UuidError)
          case Some(chid) => Ok(TopicKey(chid, v[2]))
      else if v[0] == STANDARD_NOTIFICATION_PREFIX then
        if |v| != 3 then Err(GeneralError("Invalid topic key"))
        else match ParseUuid(v[2])
          case None => Err(UuidError)
          case Some(chid) =>
            match ParseU64(v[1])
            case None => Err(ParseIntError)
            case Some(ts) => Ok(StampedKey(ts, chid))
      else
        if |v| != 2 then Err(GeneralError("Invalid topic key"))
        else match ParseUuid(v[0])
          case None => Err(UuidError)
          case Some(chid) => Ok(LegacyKey(chid, v[1]))
  }

  predicate Word(s: string) {
    s != "" && Lacks(s, ':') && Spaceless(s)
  }

  /** The keys that storage can read back. */
  predicate Storable(key: Key) {
    match key
    case TopicKey(_, topic) => Word(topic)
    case StampedKey(ts, _) => ts < U64_LIMIT
    case LegacyKey(_, version) => Word(version)
  }

  lemma HyphenatedIsWord(u: Uuid)
    ensures Word(Hyphenated(u))
  {
    HyphenatedRoundTrip(u);
  }

  lemma SpacelessConcat(a: string, b: string)
    ensures Spaceless(a + b) <==> Spaceless(a) && Spaceless(b)
  {
    if Spaceless(a + b) {
      assert forall i :: 0 <= i < |a| ==> a[i] == (a + b)[i];
      assert forall i :: 0 <= i < |b| ==> b[i] == (a + b)[|a| + i];
    }
  }

  lemma MatchesTail(a: string, b: string)
    requires |a| >= 3 && Spaceless(a) && (forall i :: 3 <= i < |a| ==> a[i] != ':')
    ensures MatchesAny(a + ":" + b) <==> b != "" && Spaceless(b)
  {
    SpacelessConcat(a + ":", b);
    SpacelessConcat(a, ":");
    assert (a + ":" + b)[|a|] == ':';
  }

  lemma TwoParts(a: string, b: string)
    requires |a| >= 3 && Word(a)
    ensures MatchesAny(a + ":" + b) <==> b != "" && Spaceless(b)
    ensures Split(a + ":" + b) == [a] + Split(b)
  {
    MatchesTail(a, b);
    SplitAt(a, b);
  }

  lemma SplitThree(a: string, b: string, c: string)
    requires Lacks(a, ':') && Lacks(b, ':')
    ensures Split(a + ":" + (b + ":" + c)) == [a, b] + Split(c)
  {
    SplitAt(a, b + ":" + c);
    SplitAt(b, c);
  }

  lemma ThreeParts(p: string, a: string, b: string)
    requires |p| == 2 && Word(p) && Word(a)
    ensures MatchesAny(p + ":" + (a + ":" + b)) <==> b != "" && Spaceless(b)
    ensures Split(p + ":" + (a + ":" + b)) == [p, a] + Split(b)
  {
    SpacelessConcat(p + ":", a);
    SpacelessConcat(p, ":");
    MatchesTail(p + ":" + a, b);
    assert p + ":" + (a + ":" + b) == p + ":" + a + ":" + b;
    SplitThree(p, a, b);
  }

  lemma SplitLast(s: string)
    ensures if Lacks(s, ':') then Split(s) == [s] else |Split(s)| >= 2
  {
    if Lacks(s, ':') { SplitWhole(s); } else { SplitTwo(s); }
  }

  lemma TopicKeyParses(chid: Uuid, topic: string)
    ensures Parse(Print(TopicKey(chid, topic))) == Ok(TopicKey(chid, topic)) <==> Word(topic)
  {
    HyphenatedIsWord(chid);
    HyphenatedRoundTrip(chid);
    ThreeParts("01", Hyphenated(chid), topic);
    SplitLast(topic);
  }

  lemma StampedTextParses(d: string, h: string, chid: Uuid)
    requires Word(d) && Word(h) && ParseUuid(h) == Some(chid)
    ensures Parse("02" + ":" + (d + ":" + h))
         == match ParseU64(d)
            case Some(ts) => Ok(StampedKey(ts, chid))
            case None => Err(ParseIntError)
  {
    ThreeParts("02", d, h);
    SplitLast(h);
  }

  lemma StampedKeyParses(ts: nat, chid: Uuid)
    ensures Parse(Print(StampedKey(ts, chid))) == if ts < U64_LIMIT then Ok(StampedKey(ts, chid)) else Err(ParseIntError)
  {
    DecimalIsDigits(ts);
    U64RoundTripIff(ts);
    HyphenatedIsWord(chid);
    HyphenatedRoundTrip(chid);
    StampedTextParses(Decimal(ts), Hyphenated(chid), chid);
  }

  lemma LegacyKeyParses(chid: Uuid, version: string)
    ensures Parse(Print(LegacyKey(chid, version))) == Ok(LegacyKey(chid, version)) <==> Word(version)
  {
    HyphenatedIsWord(chid);
    HyphenatedRoundTrip(chid);
    TwoParts(Hyphenated(chid), version);
    SplitLast(version);
  }

  /** Parsing undoes printing exactly for the storable keys. */
  lemma ParseUndoesPrintIff(key: Key)
    ensures Parse(Print(key)) == Ok(key) <==> Storable(key)
  {
    match key
    case TopicKey(chid, topic) => TopicKeyParses(chid, topic);
    case StampedKey(ts, chid) => StampedKeyParses(ts, chid);
    case LegacyKey(chid, version) => LegacyKeyParses(chid, version);
  }

  /** The text spells the key: its prefix, its UUID in some spelling, and its topic, time or version. */
  ghost predicate Spells(text: string, key: Key) {
    match key
    case TopicKey(chid, topic) =>
      Word(topic) && exists c :: Word(c) && ParseUuid(c) == Some(chid) && text == "01" + ":" + (c + ":" + topic)
    case StampedKey(ts, chid) =>
      exists d, c :: Word(d) && Word(c) && ParseU64(d) == Some(ts) && ParseUuid(c) == Some(chid)
                     && text == "02" + ":" + (d + ":" + c)
    case LegacyKey(chid, version) =>
      Word(version) && exists c :: Word(c) && ParseUuid(c) == Some(chid) && text == c + ":" + version
  }

  /** A text is parsed as a key exactly when it spells it. */
  lemma ParsesIffSpells(text: string, key: Key)
    ensures Parse(text) == Ok(key) <==> Spells(text, key)
  {
    if Parse(text) == Ok(key) { ParsedIsSpelled(text, key); }
    if Spells(text, key) { SpelledIsParsed(text, key); }
  }

  lemma SpelledIsParsed(text: string, key: Key)
    requires Spells(text, key)
    ensures Parse(text) == Ok(key)
  {
    match key
    case TopicKey(chid, topic) =>
      var c :| Word(c) && ParseUuid(c) == Some(chid) && text == "01" + ":" + (c + ":" + topic);
      ThreeParts("01", c, topic);
      SplitLast(topic);
    case StampedKey(ts, chid) =>
      var d, c :| Word(d) && Word(c) && ParseU64(d) == Some(ts) && ParseUuid(c) == Some(chid)
                  && text == "02" + ":" + (d + ":" + c);
      StampedTextParses(d, c, chid);
    case LegacyKey(chid, version) =>
      var c :| Word(c) && ParseUuid(c) == Some(chid) && text == c + ":" + version;
      TwoParts(c, version);
      SplitLast(version);
  }

  lemma JoinOfTwo(v: seq<string>)
    requires |v| == 2
    ensures Join(v) == v[0] + ":" + v[1]
  {
  }

  lemma JoinOfThree(v: seq<string>)
    requires |v| == 3
    ensures Join(v) == v[0] + ":" + (v[1] + ":" + v[2])
  {
    JoinOfTwo(v[1..]);
    assert v[0] + ":" + (v[1] + ":" + v[2]) == v[0] + (":" + (v[1] + ":" + v[2]));
  }

  lemma SpacelessParts(a: string, b: string)
    requires Spaceless(a + ":" + b)
    ensures Spaceless(a) && Spaceless(b)
  {
    SpacelessConcat(a + ":", b);
    SpacelessConcat(a, ":");
  }

  lemma ParsedIsSpelled(text: string, key: Key)
    requires Parse(text) == Ok(key)
    ensures Spells(text, key)
  {
    var v := Split(text);
    SplitJoins(text);
    if |v| == 3 {
      JoinOfThree(v);
      SpacelessParts(v[0], v[1] + ":" + v[2]);
      SpacelessParts(v[1], v[2]);
      if v[2] == "" { NothingInside(v[0], v[1]); }
    } else {
      JoinOfTwo(v);
      SpacelessParts(v[0], v[1]);
    }
  }

  lemma NothingInside(a: string, b: string)
    requires |a| == 2 && Lacks(a, ':') && Lacks(b, ':')
    ensures !ColonInside(a + ":" + (b + ":" + ""), 3)
  {
    var s := a + ":" + (b + ":" + "");
    assert forall i :: 3 <= i < |s| - 1 ==> s[i] == b[i - 3];
  }

  /** Two storable keys never share a row. */
  lemma PrintIsInjective(a: Key, b: Key)
    requires Storable(a) && Storable(b) && Print(a) == Print(b)
    ensures a == b
  {
    ParseUndoesPrintIff(a);
    ParseUndoesPrintIff(b);
  }
}
