/** Topic names and the textual keys that must not collide. */
module Topics {
  import opened Prelude
  import Deduplication

  predicate IsBroker(name: string) {
    name in {"paper", "zerodha"}
  }

  function BrokerTopic(broker: string, channel: string): string {
    broker + "." + channel
  }

  function DlqTopic(topic: string): string {
    topic + ".dlq"
  }

  /** `topic.split('.')[0]` */
  function FirstPart(topic: string): string {
    if topic == "" || topic[0] == '.' then "" else [topic[0]] + FirstPart(topic[1..])
  }

  function GetBrokerFromTopic(topic: string): string {
    if '.' !in topic then "unknown"
    else if IsBroker(FirstPart(topic)) then FirstPart(topic)
    else "unknown"
  }

  lemma {:induction false} FirstPartSpec(head: string, rest: string)
    requires '.' !in head
    ensures FirstPart(head + "." + rest) == head
  {
    if head == "" {
      assert head + "." + rest == "." + rest;
    } else {
      assert (head + "." + rest)[1..] == head[1..] + "." + rest;
      FirstPartSpec(head[1..], rest);
    }
  }

  /** The broker of each of a broker's topics, and of its dead-letter topic, is that broker. */
  lemma BrokerRecovered(broker: string, channel: string)
    requires broker in {"paper", "zerodha"}
    ensures GetBrokerFromTopic(BrokerTopic(broker, channel)) == broker
    ensures GetBrokerFromTopic(DlqTopic(BrokerTopic(broker, channel))) == broker
  {
    FirstPartSpec(broker, channel);
    assert BrokerTopic(broker, channel)[|broker|] == '.';
    DlqKeepsBroker(BrokerTopic(broker, channel));
  }

  lemma {:induction false} FirstPartAppend(topic: string, suffix: string)
    requires '.' in topic
    ensures FirstPart(topic + suffix) == FirstPart(topic)
  {
    if topic[0] != '.' {
      assert (topic + suffix)[1..] == topic[1..] + suffix;
      FirstPartAppend(topic[1..], suffix);
    }
  }

  lemma DlqKeepsBroker(topic: string)
    requires '.' in topic
    ensures GetBrokerFromTopic(DlqTopic(topic)) == GetBrokerFromTopic(topic)
  {
    FirstPartAppend(topic, ".dlq");
  }

  /** Exactly the undotted names change their broker with the suffix: those that are a broker. */
  lemma DlqChangesBrokerIff(topic: string)
    ensures GetBrokerFromTopic(DlqTopic(topic)) != GetBrokerFromTopic(topic) <==> IsBroker(topic)
  {
    if '.' in topic {
      DlqKeepsBroker(topic);
    } else {
      FirstPartSpec(topic, "dlq");
      assert topic + "." + "dlq" == DlqTopic(topic);
      assert DlqTopic(topic)[|topic|] == '.';
    }
  }

  /** Exactly which topics belong to which broker: those that start with its name and a dot. */
  lemma BrokerOfTopicIs(topic: string, broker: string)
    requires broker in {"paper", "zerodha"}
    ensures GetBrokerFromTopic(topic) == broker <==> |topic| > |broker| && topic[..|broker| + 1] == broker + "."
    ensures GetBrokerFromTopic(topic) in {"paper", "zerodha", "unknown"}
  {
    FirstPartIs(topic);
    if |topic| > |broker| && topic[..|broker| + 1] == broker + "." {
      assert topic == broker + "." + topic[|broker| + 1..];
      assert topic[|broker|] == '.';
      FirstPartSpec(broker, topic[|broker| + 1..]);
    }
  }

  lemma {:induction false} FirstPartIs(topic: string)
    ensures '.' in topic ==>
      var n := |FirstPart(topic)|; n < |topic| && topic[..n] == FirstPart(topic) && topic[n] == '.'
  {
    if topic != "" && topic[0] != '.' {
      FirstPartIs(topic[1..]);
      var n := |FirstPart(topic[1..])|;
      if '.' in topic {
        assert topic[..n + 1] == [topic[0]] + topic[1..][..n];
      }
    }
  }

  // Decimal text.

  function Digit(d: nat): char
    requires d < 10
  {
    '0' + d as char
  }

  function NatText(n: nat): string {
    if n < 10 then [Digit(n)] else NatText(n / 10) + [Digit(n % 10)]
  }

  /** Python's `str(n)`. */
  function IntText(n: int): string {
    if n < 0 then "-" + NatText(-n) else NatText(n)
  }

  /** The number a decimal text stands for. */
  function NatValue(text: string): nat
    requires forall i :: 0 <= i < |text| ==> '0' <= text[i] <= '9'
  {
    if text == "" then 0 else 10 * NatValue(text[..|text| - 1]) + (text[|text| - 1] as int - '0' as int)
  }

  /** The text is decimal and stands for its number. */
  lemma {:induction false} NatTextValue(n: nat)
    ensures forall i :: 0 <= i < |NatText(n)| ==> '0' <= NatText(n)[i] <= '9'
    ensures NatValue(NatText(n)) == n
  {
    if n >= 10 {
      NatTextValue(n / 10);
      assert NatText(n)[..|NatText(n)| - 1] == NatText(n / 10);
    } else {
      assert NatText(n)[..0] == "";
    }
  }

  lemma {:induction false} NatTextDigits(n: nat)
    ensures forall c :: c in NatText(n) ==> '0' <= c <= '9'
  {
    if n >= 10 {
      NatTextDigits(n / 10);
    }
  }

  lemma {:induction false} NatTextNonEmpty(n: nat)
    ensures |NatText(n)| >= 1 && NatText(n)[0] != '-'
  {
    if n >= 10 {
      NatTextNonEmpty(n / 10);
    }
  }

  lemma {:induction false} NatTextInjective(m: nat, n: nat)
    requires NatText(m) == NatText(n)
    ensures m == n
  {
    var s := NatText(m);
    NatTextNonEmpty(m / 10);
    NatTextNonEmpty(n / 10);
    assert s[|s| - 1] == Digit(m % 10) == Digit(n % 10);
    if m >= 10 && n >= 10 {
      assert NatText(m / 10) == s[..|s| - 1] == NatText(n / 10);
      NatTextInjective(m / 10, n / 10);
    }
  }

  lemma IntTextInjective(m: int, n: int)
    requires IntText(m) == IntText(n)
    ensures m == n
  {
    NatTextNonEmpty(if m < 0 then -m else m);
    NatTextNonEmpty(if n < 0 then -n else n);
    assert m < 0 <==> IntText(m)[0] == '-';
    assert n < 0 <==> IntText(n)[0] == '-';
    if m < 0 && n < 0 {
      assert IntText(m)[1..] == NatText(-m) && IntText(n)[1..] == NatText(-n);
      NatTextInjective(-m, -n);
    } else {
      NatTextInjective(m, n);
    }
  }

  lemma IntTextPlain(n: int)
    ensures ':' !in IntText(n)
  {
    NatTextDigits(if n < 0 then -n else n);
  }

  // Composite keys.

  function TradingSignalKey(strategy: string, token: int): string {
    strategy + ":" + IntText(token)
  }

  function OrderKey(strategy: string, token: int, timestamp: string): string {
    strategy + ":" + IntText(token) + ":" + timestamp
  }

  function ServiceDedupKey(service: string, id: string): string {
    service + ":event_processed:" + id
  }

  lemma TradingSignalKeyInjective(s: string, t: int, s': string, t': int)
    ensures TradingSignalKey(s, t) == TradingSignalKey(s', t') <==> s == s' && t == t'
  {
    if TradingSignalKey(s, t) == TradingSignalKey(s', t') {
      IntTextPlain(t);
      IntTextPlain(t');
      SplitAtLast(s, IntText(t), s', IntText(t'), ':');
      IntTextInjective(t, t');
    }
  }

  function Separators(text: string): nat {
    if text == "" then 0 else (if text[0] == ':' then 1 else 0) + Separators(text[1..])
  }

  lemma {:induction false} SeparatorsConcat(a: string, b: string)
    ensures Separators(a + b) == Separators(a) + Separators(b)
  {
    if a == "" {
      assert a + b == b;
    } else {
      assert (a + b)[1..] == a[1..] + b;
      SeparatorsConcat(a[1..], b);
    }
  }

  /** Of two texts that end alike after a separator, the longer ending has more separators. */
  lemma LongerEnding(a: string, x: string, b: string, y: string)
    requires a + ":" + x == b + ":" + y && |x| < |y|
    ensures Separators(x) < Separators(y)
  {
    var s, k := a + ":" + x, |y| - |x| - 1;
    assert y == s[|b| + 1..] by { assert s == b + ":" + y; }
    assert y[..k] + (":" + x) == y by { assert s[|a|..] == ":" + x; }
    SeparatorsConcat(y[..k], ":" + x);
    assert (":" + x)[1..] == x;
  }

  /** A text is split in one way only by a separator with a given number of separators behind it. */
  lemma SplitAtCount(a: string, x: string, b: string, y: string)
    requires a + ":" + x == b + ":" + y && Separators(x) == Separators(y)
    ensures a == b && x == y
  {
    var s := a + ":" + x;
    if |x| < |y| {
      LongerEnding(a, x, b, y);
    } else if |y| < |x| {
      LongerEnding(b, y, a, x);
    } else {
      assert a == s[..|a|] && x == s[|a| + 1..];
      assert b == s[..|a|] && y == s[|a| + 1..] by { assert s == b + ":" + y; }
    }
  }

  /** Order keys are injective for all strategy ids as long as the timestamps have equally many
      separators, as texts of one format do, and for ids without a separator whatever the timestamps. */
  lemma OrderKeyInjective(s: string, t: int, at: string, s': string, t': int, at': string)
    requires Separators(at) == Separators(at') || (':' !in s && ':' !in s')
    ensures OrderKey(s, t, at) == OrderKey(s', t', at') <==> s == s' && t == t' && at == at'
  {
    if OrderKey(s, t, at) == OrderKey(s', t', at') {
      if Separators(at) == Separators(at') {
        assert OrderKey(s, t, at) == TradingSignalKey(s, t) + ":" + at;
        SplitAtCount(TradingSignalKey(s, t), at, TradingSignalKey(s', t'), at');
        TradingSignalKeyInjective(s, t, s', t');
      } else {
        PlainOrderKeyInjective(s, t, at, s', t', at');
      }
    }
  }

  lemma PlainOrderKeyInjective(s: string, t: int, at: string, s': string, t': int, at': string)
    requires ':' !in s && ':' !in s' && OrderKey(s, t, at) == OrderKey(s', t', at')
    ensures s == s' && t == t' && at == at'
  {
    var rest, rest' := IntText(t) + ":" + at, IntText(t') + ":" + at';
    assert OrderKey(s, t, at) == s + ":" + rest && OrderKey(s', t', at') == s' + ":" + rest';
    SplitAtFirst(s, rest, s', rest', ':');
    IntTextPlain(t);
    IntTextPlain(t');
    SplitAtFirst(IntText(t), at, IntText(t'), at', ':');
    IntTextInjective(t, t');
  }

  /** Timestamp texts with different numbers of separators can collide, if a strategy id has one too. */
  lemma OrderKeyCollides(at: string)
    ensures OrderKey("a", 1, "2:" + at) == OrderKey("a:1", 2, at)
    ensures Separators("2:" + at) == Separators(at) + 1
  {
    assert IntText(1) == "1" && IntText(2) == "2";
    assert "a" + ":" + "1" + ":" + ("2:" + at) == "a:1" + ":" + "2" + ":" + at;
    SeparatorsConcat("2:", at);
    assert "2:"[1..] == ":" && ":"[1..] == "";
  }

  lemma ServiceDedupKeyInjective(s: string, id: string, s': string, id': string)
    requires ':' !in s && ':' !in s'
    ensures ServiceDedupKey(s, id) == ServiceDedupKey(s', id') <==> s == s' && id == id'
  {
    if ServiceDedupKey(s, id) == ServiceDedupKey(s', id') {
      var rest, rest' := "event_processed:" + id, "event_processed:" + id';
      assert ServiceDedupKey(s, id) == s + ":" + rest && ServiceDedupKey(s', id') == s' + ":" + rest';
      SplitAtFirst(s, rest, s', rest', ':');
      assert rest[16..] == id && rest'[16..] == id';
    }
  }

  /** The marks of the plain deduplicator and those of a service meet only for a service that is called like
      the plain prefix. */
  lemma DedupKeysMeetIff(id: string, service: string, id': string)
    requires ':' !in service
    ensures Deduplication.KeyOf(id) == ServiceDedupKey(service, id') <==>
            service == "event_processed" && id == "event_processed:" + id'
  {
    var rest := "event_processed:" + id';
    assert Deduplication.KeyOf(id) == "event_processed" + ":" + id;
    assert ServiceDedupKey(service, id') == service + ":" + rest;
    if Deduplication.KeyOf(id) == ServiceDedupKey(service, id') {
      SplitAtFirst("event_processed", id, service, rest, ':');
    }
  }
}
