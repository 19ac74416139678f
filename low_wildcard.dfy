/**
 * Low-level wildcard classification (lib/hasLowWildcard.js): a topic whose
 * first or second level is a wildcard cannot be routed to one owner.
 */
module LowWildcard {
  import opened Wrappers
  import opened Levels

  predicate IsWildcard(level: string)
  {
    level == MultiLevel || level == SingleLevel
  }

  /** `levels[k]`, with JavaScript's `undefined` (here `None`) past the end. */
  function Level(levels: seq<string>, k: nat): (r: Option<string>)
    ensures r.Some? <==> k < |levels|
    ensures r.Some? ==> r.value == levels[k]
  {
    if k < |levels| then Some(levels[k]) else None
  }

  /**
   * `hasLowWildCard(topic)`: the first or second level is `#` or `+`; a
   * missing second level is `undefined` and matches neither. Equivalently,
   * one of the first two levels is a wildcard.
   */
  function HasLowWildcard(topic: string): (r: bool)
    ensures r <==> exists k :: 0 <= k < |FirstTwo(topic)| && IsWildcard(FirstTwo(topic)[k])
  {
    var levels := Split(topic);
    var r := Level(levels, 0) == Some(MultiLevel) || Level(levels, 1) == Some(MultiLevel) ||
             Level(levels, 0) == Some(SingleLevel) || Level(levels, 1) == Some(SingleLevel);
    assert r ==> IsWildcard(FirstTwo(topic)[0]) || IsWildcard(FirstTwo(topic)[|FirstTwo(topic)| - 1]);
    r
  }

  /** The classification depends on the first two levels only. */
  lemma SameFirstTwoSameClass(a: string, b: string)
    requires FirstTwo(a) == FirstTwo(b)
    ensures HasLowWildcard(a) == HasLowWildcard(b)
  {
  }

  /** A wildcard as first level: `#`, `+`, `#/rest` and `+/rest` all have one. */
  lemma FirstLevelWildcard(w: string, rest: string)
    requires IsWildcard(w)
    ensures HasLowWildcard(w)
    ensures HasLowWildcard(w + [Sep] + rest)
  {
    SplitLevel(w);
    SplitCons(w, rest);
  }

  /** A wildcard as second level: `a/#`, `a/+`, `a/#/rest` and `a/+/rest` all have one. */
  lemma SecondLevelWildcard(a: string, w: string, rest: string)
    requires Sep !in a && IsWildcard(w)
    ensures HasLowWildcard(a + [Sep] + w)
    ensures HasLowWildcard(a + [Sep] + w + [Sep] + rest)
  {
    SplitLevel(w);
    SplitCons(a, w);
    var tail := w + [Sep] + rest;
    assert a + [Sep] + w + [Sep] + rest == a + [Sep] + tail;
    SplitCons(w, rest);
    SplitCons(a, tail);
  }

  /** A single-level topic other than `#` and `+` has none: the absent second level never matches. */
  lemma SingleLevelNoWildcard(topic: string)
    requires Sep !in topic && !IsWildcard(topic)
    ensures !HasLowWildcard(topic)
  {
  }

  /** Wildcards at the third level or deeper do not count: `hello/0/+` has none. */
  lemma DeepWildcardIgnored(a: string, b: string, rest: string)
    requires Sep !in a && Sep !in b && !IsWildcard(a) && !IsWildcard(b)
    ensures !HasLowWildcard(a + [Sep] + b + [Sep] + rest)
  {
    var tail := b + [Sep] + rest;
    assert a + [Sep] + b + [Sep] + rest == a + [Sep] + tail;
    SplitCons(b, rest);
    SplitCons(a, tail);
  }
}
