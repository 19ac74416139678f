/**
 * Topic levels: the behaviour of JavaScript's `topic.split('/')` on a string,
 * which both lib/extractBase.js and lib/hasLowWildcard.js start from.
 * Empty levels are kept (`"a//b"` has three levels, `""` has one), and a
 * string without a separator is a single level.
 */
module Levels {

  const Sep: char := '/'

  /** The multi-level and single-level wildcard markers. */
  const MultiLevel: string := "#"
  const SingleLevel: string := "+"

  /** Index of the first separator in `s`, or `|s|` when there is none. */
  function SepIndex(s: string): (i: nat)
    ensures i <= |s|
    ensures i < |s| ==> s[i] == Sep
    ensures forall k :: 0 <= k < i ==> s[k] != Sep
  {
    if |s| == 0 || s[0] == Sep then 0 else 1 + SepIndex(s[1..])
  }

  /** Number of separators in `s`. */
  function SepCount(s: string): nat
  {
    multiset(s)[Sep]
  }

  /** `s.split('/')`: the levels of `s`, left to right. */
  function Split(s: string): (levels: seq<string>)
    ensures |levels| >= 1
    ensures forall k :: 0 <= k < |levels| ==> Sep !in levels[k]
    decreases |s|
  {
    var i := SepIndex(s);
    if i == |s| then [s] else [s[..i]] + Split(s[i + 1..])
  }

  /** `levels.join('/')`, the inverse of `Split`. */
  function Join(levels: seq<string>): string
    requires |levels| >= 1
  {
    if |levels| == 1 then levels[0] else levels[0] + [Sep] + Join(levels[1..])
  }

  /** The first two levels of a topic (only one when it has no separator). */
  function FirstTwo(topic: string): (levels: seq<string>)
    ensures 1 <= |levels| <= 2
    ensures levels <= Split(topic)
  {
    var all := Split(topic);
    if |all| < 2 then all else all[..2]
  }

  predicate NoSep(levels: seq<string>)
  {
    forall k :: 0 <= k < |levels| ==> Sep !in levels[k]
  }

  /** A level without a separator splits into itself. */
  lemma SplitLevel(a: string)
    requires Sep !in a
    ensures Split(a) == [a]
  {
  }

  /** Splitting `a/rest` for a level `a` peels `a` off. */
  lemma SplitCons(a: string, rest: string)
    requires Sep !in a
    ensures Split(a + [Sep] + rest) == [a] + Split(rest)
  {
    var s := a + [Sep] + rest;
    var i := SepIndex(s);
    assert s[|a|] == Sep;
    assert i == |a|;
    assert s[..i] == a;
    assert s[i + 1..] == rest;
  }

  /** Joining the levels of a string gives the string back. */
  lemma {:induction false} JoinSplit(s: string)
    ensures Join(Split(s)) == s
    decreases |s|
  {
    var i := SepIndex(s);
    if i < |s| {
      JoinSplit(s[i + 1..]);
      assert s == s[..i] + [Sep] + s[i + 1..];
    }
  }

  /** Splitting joined separator-free levels gives the levels back. */
  lemma {:induction false} SplitJoin(levels: seq<string>)
    requires |levels| >= 1 && NoSep(levels)
    ensures Split(Join(levels)) == levels
  {
    if |levels| == 1 {
      SplitLevel(levels[0]);
    } else {
      SplitJoin(levels[1..]);
      SplitCons(levels[0], Join(levels[1..]));
      assert levels == [levels[0]] + levels[1..];
    }
  }

  /** A string has one more level than it has separators. */
  lemma {:induction false} SplitCount(s: string)
    ensures |Split(s)| == SepCount(s) + 1
    decreases |s|
  {
    var i := SepIndex(s);
    assert Sep !in s[..i] by {
      forall k | 0 <= k < i ensures s[..i][k] != Sep { }
    }
    if i == |s| {
      assert s[..i] == s;
    } else {
      SplitCount(s[i + 1..]);
      assert s == s[..i] + [Sep] + s[i + 1..];
      assert multiset(s) == multiset(s[..i]) + multiset([Sep]) + multiset(s[i + 1..]);
    }
  }
}
