/**
 * Routing-key derivation (lib/extractBase.js): a topic is cut down to its
 * first level, or its first two levels, and that prefix is the key the
 * hash ring uses to pick the peer that owns the topic.
 */
module ExtractBase {
  import opened Levels

  /**
   * The routing key of `topic`: the topic itself when it has a single level,
   * the first level when the second is the multi-level wildcard `#`, and
   * otherwise the first two levels, anything deeper dropped.
   */
  function ExtractBase(topic: string): (key: string)
    ensures key <= topic
    ensures SepCount(key) <= 1
    ensures |Split(topic)| < 2 ==> key == topic
    ensures |Split(topic)| >= 2 && Split(topic)[1] == MultiLevel ==> key == Split(topic)[0]
    ensures !(|Split(topic)| >= 2 && Split(topic)[1] == MultiLevel) ==> key == Join(FirstTwo(topic))
  {
    var levels := Split(topic);
    KeyShape(topic);
    if |levels| < 2 then
      topic
    else if levels[1] == MultiLevel then
      levels[0]
    else
      levels[0] + [Sep] + levels[1]
  }

  /**
   * How a topic is laid out around its first two levels: the first level is a
   * prefix, and with two or more levels `first/second` is a prefix too.
   */
  lemma KeyShape(topic: string)
    ensures Split(topic)[0] <= topic
    ensures SepCount(Split(topic)[0]) == 0
    ensures |Split(topic)| < 2 ==> Join(Split(topic)) == topic && SepCount(topic) == 0
    ensures |Split(topic)| >= 2 ==>
      && Split(topic)[0] + [Sep] + Split(topic)[1] <= topic
      && SepCount(Split(topic)[0] + [Sep] + Split(topic)[1]) == 1
  {
    FirstLevelShape(topic);
    if |Split(topic)| < 2 {
      JoinSplit(topic);
      SplitCount(topic);
    } else {
      SecondLevelShape(topic);
    }
  }

  lemma FirstLevelShape(topic: string)
    ensures Split(topic)[0] == topic[..SepIndex(topic)]
    ensures SepCount(Split(topic)[0]) == 0
  {
    assert Sep !in Split(topic)[0];
  }

  lemma SecondLevelShape(topic: string)
    requires |Split(topic)| >= 2
    ensures Split(topic)[0] + [Sep] + Split(topic)[1] <= topic
    ensures SepCount(Split(topic)[0] + [Sep] + Split(topic)[1]) == 1
  {
    var tail := TwoLevelLayout(topic);
    TwoLevelKey(Split(topic)[0], Split(topic)[1], tail);
  }

  /** A topic with two or more levels is `first/second` followed by the rest. */
  lemma TwoLevelLayout(topic: string) returns (tail: string)
    requires |Split(topic)| >= 2
    ensures topic == Split(topic)[0] + [Sep] + Split(topic)[1] + tail
  {
    var levels := Split(topic);
    JoinSplit(topic);
    if |levels| == 2 {
      tail := [];
    } else {
      assert levels[1..][1..] == levels[2..];
      tail := [Sep] + Join(levels[2..]);
    }
  }

  lemma TwoLevelKey(first: string, second: string, tail: string)
    requires Sep !in first && Sep !in second
    ensures first + [Sep] + second <= first + [Sep] + second + tail
    ensures SepCount(first + [Sep] + second) == 1
  {
    assert multiset(first + [Sep] + second) == multiset(first) + multiset([Sep]) + multiset(second);
  }

  /** A key is its own key: deriving the key twice changes nothing. */
  lemma Idempotent(topic: string)
    ensures ExtractBase(ExtractBase(topic)) == ExtractBase(topic)
  {
    var levels := Split(topic);
    if |levels| >= 2 {
      if levels[1] == MultiLevel {
        SplitJoin([levels[0]]);
      } else {
        SplitJoin([levels[0], levels[1]]);
      }
    }
  }

  /** Topics that agree on their first two levels share one key, hence one owner. */
  lemma SameFirstTwoSameKey(a: string, b: string)
    requires FirstTwo(a) == FirstTwo(b)
    ensures ExtractBase(a) == ExtractBase(b)
  {
  }

  /** A topic without a separator is its own key. */
  lemma SingleLevelUnchanged(topic: string)
    requires Sep !in topic
    ensures ExtractBase(topic) == topic
  {
  }

  /** The levels of `a/b/rest` for separator-free `a` and `b`. */
  lemma SplitTwoLevels(a: string, b: string, rest: string)
    requires Sep !in a && Sep !in b
    ensures Split(a + [Sep] + b + [Sep] + rest) == [a, b] + Split(rest)
  {
    var tail := b + [Sep] + rest;
    assert a + [Sep] + b + [Sep] + rest == a + [Sep] + tail;
    SplitCons(b, rest);
    SplitCons(a, tail);
  }

  /** Levels below the second are dropped: the key of `a/b/rest` is `a/b`. */
  lemma DeepLevelsDropped(a: string, b: string, rest: string)
    requires Sep !in a && Sep !in b && b != MultiLevel
    ensures ExtractBase(a + [Sep] + b + [Sep] + rest) == a + [Sep] + b
  {
    SplitTwoLevels(a, b, rest);
  }

  /** A multi-level wildcard in second place leaves the first level alone: `a/#/rest` gives `a`. */
  lemma WildcardSecondLevel(a: string, rest: string)
    requires Sep !in a
    ensures ExtractBase(a + [Sep] + MultiLevel) == a
    ensures ExtractBase(a + [Sep] + MultiLevel + [Sep] + rest) == a
  {
    SplitCons(a, MultiLevel);
    SplitLevel(MultiLevel);
    SplitTwoLevels(a, MultiLevel, rest);
  }

  /** The example of the routing tests: `hello/0/something` is owned through `hello/0`. */
  lemma HelloExample()
    ensures ExtractBase("hello/0/something") == "hello/0"
  {
    var a, b, rest := "hello", "0", "something";
    assert a + [Sep] + b + [Sep] + rest == "hello/0/something";
    assert a + [Sep] + b == "hello/0";
    assert Sep !in a && Sep !in b && b != MultiLevel;
    DeepLevelsDropped(a, b, rest);
  }
}
