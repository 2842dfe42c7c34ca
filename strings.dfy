/** Kotlin's `String.split(delimiter)` for a one-character delimiter, and its inverse. */
module Strings {

  /**
   * The tokens between occurrences of `d`, in order. Empty tokens are kept
   * ("a__b" gives "a", "", "b") and the empty string gives one empty token,
   * as Kotlin's `split` does without a limit.
   */
  function Split(s: string, d: char): (r: seq<string>)
    ensures |r| >= 1
    ensures forall i :: 0 <= i < |r| ==> d !in r[i]
    ensures |r| == 1 <==> d !in s
    decreases |s|
  {
    if |s| == 0 then
      [""]
    else
      var rest := Split(s[1..], d);
      if s[0] == d then [""] + rest
      else [[s[0]] + rest[0]] + rest[1..]
  }

  /** `ts.joinToString(d)`: the tokens with `d` between consecutive ones. */
  function Join(ts: seq<string>, d: char): string
    requires |ts| >= 1
  {
    if |ts| == 1 then ts[0] else ts[0] + [d] + Join(ts[1..], d)
  }

  /** Joining the tokens back with the delimiter gives the original string. */
  lemma {:induction false} JoinSplit(s: string, d: char)
    ensures Join(Split(s, d), d) == s
  {
    if |s| > 0 {
      var rest := Split(s[1..], d);
      JoinSplit(s[1..], d);
      if s[0] == d {
        assert ([""] + rest)[1..] == rest;
      } else if |rest| > 1 {
        var r := [[s[0]] + rest[0]] + rest[1..];
        assert r[1..] == rest[1..];
        assert Join(rest, d) == rest[0] + [d] + Join(rest[1..], d);
        assert s == [s[0]] + s[1..];
      } else {
        assert s == [s[0]] + s[1..];
      }
    }
  }

  /** A token without the delimiter in front of the delimiter is split off as one token. */
  lemma {:induction false} SplitAfterToken(a: string, b: string, d: char)
    requires d !in a
    ensures Split(a + [d] + b, d) == [a] + Split(b, d)
    decreases |a|
  {
    var s := a + [d] + b;
    if a == [] {
      assert s[1..] == b;
    } else {
      assert s[1..] == a[1..] + [d] + b;
      SplitAfterToken(a[1..], b, d);
      assert a == [a[0]] + a[1..];
    }
  }

  /** Splitting a join of delimiter-free tokens gives the tokens back. */
  lemma {:induction false} SplitJoin(ts: seq<string>, d: char)
    requires |ts| >= 1
    requires forall i :: 0 <= i < |ts| ==> d !in ts[i]
    ensures Split(Join(ts, d), d) == ts
  {
    if |ts| == 1 {
      assert Split(ts[0], d) == [Split(ts[0], d)[0]];
      JoinSplit(ts[0], d);
    } else {
      SplitJoin(ts[1..], d);
      SplitAfterToken(ts[0], Join(ts[1..], d), d);
      assert ts == [ts[0]] + ts[1..];
    }
  }
}
