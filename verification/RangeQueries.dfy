/** The range queries over printed keys, and the numeric queries they stand for
    (autopush-common/src/db/dynamodb/mod.rs, bigtable/bigtable_client/mod.rs). */
module RangeQueries {
  import opened Notifications
  import opened Text
  import opened SortKeys
  import opened KeyOrder
  import opened Storage

  /** What a topic query selects. Bigtable's range leaves out the prefix all of a user's rows share. */
  predicate InTopicRange(backend: Backend, key: string) {
    match backend
    case DynamoDb => StrLess(key, "02")
    case BigTable => StrLess("01:", key) && StrLess(key, "02:")
  }

  /** The key after which a timestamp query starts. */
  function RangeStart(backend: Backend, after: Option<nat>): string {
    match (backend, after)
    case (DynamoDb, Some(ts)) => "02:" + (Decimal(ts) + ":z")
    case (DynamoDb, None) => "01;"
    case (BigTable, Some(ts)) => "02:" + (Decimal(ts) + "z")
    case (BigTable, None) => "02:"
  }

  /** What a timestamp query selects. */
  predicate InTimestampRange(backend: Backend, after: Option<nat>, key: string) {
    StrLess(RangeStart(backend, after), key) && (backend.BigTable? ==> StrLess(key, "03:"))
  }

  lemma HeadDecides(a: string, b: string)
    requires a != "" && b != "" && a[0] < b[0]
    ensures StrLess(a, b) && !StrLess(b, a)
  {
  }

  /** Texts that begin alike compare by the rest. */
  lemma SamePrefix(p: string, x: string, y: string)
    ensures StrLess(p + x, p + y) <==> StrLess(x, y)
  {
    StrLessTotal(p, p);
    EqualLength(p, p, x, y);
  }

  /** A printed key that is not a legacy key: two characters, a colon and the rest. */
  function Tagged(c: char, rest: string): string {
    ['0', c] + (":" + rest)
  }

  lemma TagDecides(c: char, x: string, d: char, y: string)
    ensures StrLess(['0', c] + x, ['0', d] + y) <==> c < d || (c == d && StrLess(x, y))
  {
    EqualLength(['0', c], ['0', d], x, y);
    EqualLength("0", "0", [c], [d]);
    OneCharacter(c, d);
    StrLessTotal("0", "0");
    assert "0" + [c] == ['0', c] && "0" + [d] == ['0', d];
  }

  /** The tag and the rest of a key. */
  function RestOf(key: Key): string
    requires !key.LegacyKey?
  {
    match key
    case TopicKey(chid, topic) => Hyphenated(chid) + ":" + topic
    case StampedKey(ts, chid) => Decimal(ts) + (":" + Hyphenated(chid))
  }

  lemma PrintIsTagged(key: Key)
    requires !key.LegacyKey?
    ensures Print(key) == Tagged(if key.TopicKey? then '1' else '2', RestOf(key)) && RestOf(key) != ""
  {
  }

  lemma TaggedTopicRange(backend: Backend, c: char, rest: string)
    requires c == '1' || c == '2'
    requires rest != ""
    ensures InTopicRange(backend, Tagged(c, rest)) <==> c == '1'
  {
    assert "02" == ['0', '2'] + "" && "02:" == ['0', '2'] + ":" && "01:" == ['0', '1'] + ":";
    TagDecides(c, ":" + rest, '2', "");
    TagDecides(c, ":" + rest, '2', ":");
    TagDecides('1', ":", c, ":" + rest);
    SamePrefix(":", "", rest);
    SamePrefix(":", rest, "");
    assert ":" + "" == ":";
  }

  lemma TaggedWholeRange(backend: Backend, c: char, rest: string)
    requires c == '1' || c == '2'
    requires rest != ""
    ensures InTimestampRange(backend, None, Tagged(c, rest)) <==> c == '2'
  {
    assert "01;" == ['0', '1'] + ";" && "02:" == ['0', '2'] + ":" && "03:" == ['0', '3'] + ":";
    TagDecides('1', ";", c, ":" + rest);
    HeadDecides(":" + rest, ";");
    TagDecides('2', ":", c, ":" + rest);
    SamePrefix(":", "", rest);
    assert ":" + "" == ":";
    TagDecides(c, ":" + rest, '3', ":");
  }

  /** The mark that ends a start key. */
  function Mark(backend: Backend): string {
    if backend.DynamoDb? then ":z" else "z"
  }

  lemma TaggedRangeAfter(backend: Backend, ts: nat, c: char, rest: string)
    requires c == '1' || c == '2'
    ensures InTimestampRange(backend, Some(ts), Tagged(c, rest)) <==>
            c == '2' && StrLess(Decimal(ts) + Mark(backend), rest)
  {
    var start := Decimal(ts) + Mark(backend);
    assert RangeStart(backend, Some(ts)) == ['0', '2'] + (":" + start) && "03:" == ['0', '3'] + ":";
    TagDecides('2', ":" + start, c, ":" + rest);
    SamePrefix(":", start, rest);
    TagDecides(c, ":" + rest, '3', ":");
  }

  /** The topic query selects the topic rows and no timestamp row, and on DynamoDB the registry row,
      which comes before them all. */
  lemma TopicRangeIs(backend: Backend, key: Key)
    requires !key.LegacyKey?
    ensures InTopicRange(backend, Print(key)) <==> key.TopicKey?
    ensures InTopicRange(DynamoDb, " ") && StrLess(" ", Print(key))
  {
    PrintIsTagged(key);
    TaggedTopicRange(backend, if key.TopicKey? then '1' else '2', RestOf(key));
    HeadDecides(" ", "02");
    HeadDecides(" ", Print(key));
  }

  /** The timestamp query that starts at the beginning selects the timestamp rows, and on DynamoDB no
      timestamp query selects the registry row. */
  lemma WholeTimestampRangeIs(backend: Backend, key: Key)
    requires !key.LegacyKey?
    ensures InTimestampRange(backend, None, Print(key)) <==> key.StampedKey?
    ensures forall after :: !InTimestampRange(DynamoDb, after, " ")
  {
    forall after ensures !InTimestampRange(DynamoDb, after, " ") {
      HeadDecides(" ", RangeStart(DynamoDb, after));
    }
    PrintIsTagged(key);
    TaggedWholeRange(backend, if key.TopicKey? then '1' else '2', RestOf(key));
  }

  /** What "after `ts`" means for printed numbers: by the digits that both have, and, if those agree,
      the shorter number is above the longer. */
  predicate PrintedAfter(ts: nat, t: nat) {
    if Width(t) == Width(ts) then t > ts
    else if Width(t) > Width(ts) then Lead(t, Width(ts)) > ts
    else t >= Lead(ts, Width(t))
  }

  lemma DigitsThenMark(ts: nat, t: nat, mark: string, h: string)
    requires mark == ":z" || mark == "z"
    requires h != "" && h[0] < 'z'
    ensures StrLess(Decimal(ts) + mark, Decimal(t) + (":" + h)) <==> PrintedAfter(ts, t)
  {
    if Width(t) == Width(ts) {
      DecimalOrder(ts, t);
      EqualLength(Decimal(ts), Decimal(t), mark, ":" + h);
      if mark == ":z" {
        HeadDecides(h, "z");
        SamePrefix(":", "z", h);
        assert ":" + "z" == mark;
      } else {
        HeadDecides(":" + h, mark);
      }
    } else if Width(t) > Width(ts) {
      var lead := Lead(t, Width(ts));
      var tail := LeadPrints(t, Width(ts));
      DecimalOrder(ts, lead);
      EqualLength(Decimal(ts), Decimal(lead), mark, tail + (":" + h));
      assert Decimal(t) + (":" + h) == Decimal(lead) + (tail + (":" + h));
      HeadDecides(tail + (":" + h), mark);
    } else {
      var lead := Lead(ts, Width(t));
      var tail := LeadPrints(ts, Width(t));
      DecimalOrder(lead, t);
      if Decimal(lead) == Decimal(t) { DecimalsTellApart(lead, t); }
      EqualLength(Decimal(lead), Decimal(t), tail + mark, ":" + h);
      assert Decimal(ts) + mark == Decimal(lead) + (tail + mark);
      HeadDecides(tail + mark, ":" + h);
    }
  }

  lemma HyphenatedHead(u: Uuid)
    ensures Hyphenated(u)[0] < 'z'
  {
    HyphenatedRoundTrip(u);
  }

  /** The query after a timestamp selects just the timestamp rows that print after it. */
  lemma TimestampRangeIs(backend: Backend, ts: nat, key: Key)
    requires !key.LegacyKey?
    ensures InTimestampRange(backend, Some(ts), Print(key)) <==> key.StampedKey? && PrintedAfter(ts, key.timestamp)
  {
    PrintIsTagged(key);
    TaggedRangeAfter(backend, ts, if key.TopicKey? then '1' else '2', RestOf(key));
    if key.StampedKey? {
      HyphenatedHead(key.channelId);
      DigitsThenMark(ts, key.timestamp, Mark(backend), Hyphenated(key.channelId));
    }
  }

  /** Numbers of one width, or of different widths whose common digits agree with their order. */
  predicate Comparable(ts: nat, t: nat) {
    || Width(t) == Width(ts)
    || (Width(t) > Width(ts) && Lead(t, Width(ts)) > ts)
    || (Width(t) < Width(ts) && Lead(ts, Width(t)) > t)
  }

  /** The query after a timestamp selects a row by its number exactly when the two numbers are
      comparable. */
  lemma QueryIsNumericIff(backend: Backend, ts: nat, t: nat, chid: Uuid)
    ensures (InTimestampRange(backend, Some(ts), Print(StampedKey(t, chid))) <==> t > ts) <==> Comparable(ts, t)
  {
    TimestampRangeIs(backend, ts, StampedKey(t, chid));
    if Width(t) > Width(ts) { WiderIsLarger(ts, t); }
    if Width(t) < Width(ts) { WiderIsLarger(t, ts); }
  }

  lemma PowersOfTen(w: nat)
    requires w > 0
    ensures Pow10(w) > 1
    decreases w
  {
    if w > 1 { PowersOfTen(w - 1); }
  }

  /** Wherever numbers grow by a digit, the first of the new width is missed by a reader that has read up
      to the last of the old. */
  lemma NextWidthIsMissed(backend: Backend, w: nat, chid: Uuid)
    requires w > 0
    ensures Pow10(w) > 0
    ensures !InTimestampRange(backend, Some(Pow10(w) - 1), Print(StampedKey(Pow10(w), chid)))
  {
    PowerIsNotComparable(w);
    QueryIsNumericIff(backend, Pow10(w) - 1, Pow10(w), chid);
  }

  lemma PowerIsNotComparable(w: nat)
    requires w > 0
    ensures Pow10(w) > 0 && !Comparable(Pow10(w) - 1, Pow10(w))
  {
    var t := Pow10(w);
    PowersOfTen(w);
    if w > 1 { PowersOfTen(w - 1); }
    WidthIs(t - 1, w);
    WidthIs(t, w + 1);
    WidthIs(t / 10, w);
    assert Lead(t, w) == t / 10;
  }

  /** So it will be when times in milliseconds go from 13 digits to 14, in November 2286. */
  lemma FourteenDigitsAreMissed(backend: Backend, chid: Uuid)
    ensures !InTimestampRange(backend, Some(9_999_999_999_999), Print(StampedKey(10_000_000_000_000, chid)))
  {
    assert Pow10(6) == 1_000_000;
    assert Pow10(13) == 10_000_000_000_000;
    NextWidthIsMissed(backend, 13, chid);
  }

  /** From September 2001 to November 2286 times in milliseconds have 13 digits. */
  lemma MillisecondsComparable(ts: nat, t: nat)
    requires 1_000_000_000_000 <= ts < 10_000_000_000_000 && 1_000_000_000_000 <= t < 10_000_000_000_000
    ensures Comparable(ts, t) && Width(ts) == Width(t)
  {
    assert Pow10(6) == 1_000_000;
    assert Pow10(12) == 1_000_000_000_000;
    WidthIs(ts, 13);
    WidthIs(t, 13);
  }
}
