/**
 * Python's `str.split(sep)` for a one-character separator, and the index
 * arithmetic that describes its first two pieces.
 */
module Strings {

  /** The index of the first `c` in `s`, or `|s|` when `s` has none. */
  function IndexOf(s: string, c: char): (k: nat)
    ensures k <= |s|
    ensures k < |s| <==> c in s
    ensures k < |s| ==> s[k] == c
    ensures forall j :: 0 <= j < k ==> s[j] != c
  {
    if s == [] then 0
    else if s[0] == c then 0
    else 1 + IndexOf(s[1..], c)
  }

  /** The part of `s` before its first `c` (all of `s` when there is none). */
  function Before(s: string, c: char): (t: string)
    ensures c !in t
    ensures t <= s
  {
    s[..IndexOf(s, c)]
  }

  /** The part of `s` after its first `c`. */
  function After(s: string, c: char): (t: string)
    requires c in s
    ensures |t| < |s|
    ensures s == Before(s, c) + [c] + t
  {
    s[IndexOf(s, c) + 1..]
  }

  /**
   * `s.split(c)`: the pieces of `s` between occurrences of `c`, from left to
   * right; `"".split(c)` is `[""]`, so there is always at least one piece.
   */
  function Split(s: string, c: char): (parts: seq<string>)
    ensures |parts| >= 1
    decreases |s|
  {
    if s == [] then [""]
    else if s[0] == c then [""] + Split(s[1..], c)
    else
      var rest := Split(s[1..], c);
      [[s[0]] + rest[0]] + rest[1..]
  }

  /** `c.join(parts)`, the inverse of `Split`. */
  function Join(parts: seq<string>, c: char): string
    requires |parts| >= 1
  {
    if |parts| == 1 then parts[0] else parts[0] + [c] + Join(parts[1..], c)
  }

  /** The first piece of a split is the text before the first separator. */
  lemma {:induction false} SplitFirst(s: string, c: char)
    ensures Split(s, c)[0] == Before(s, c)
    decreases |s|
  {
    if s != [] && s[0] != c {
      SplitFirst(s[1..], c);
      assert s[..IndexOf(s, c)] == [s[0]] + s[1..][..IndexOf(s[1..], c)];
    }
  }

  /** Past the first piece, a split continues with the split of the text after the first separator. */
  lemma {:induction false} SplitRest(s: string, c: char)
    requires c in s
    ensures Split(s, c)[1..] == Split(After(s, c), c)
    decreases |s|
  {
    if s[0] != c {
      assert c in s[1..] by {
        var k := IndexOf(s, c);
        assert s[1..][k - 1] == c;
      }
      SplitRest(s[1..], c);
      assert After(s, c) == After(s[1..], c);
    }
  }

  /** A split has a second piece exactly when the separator occurs. */
  lemma {:induction false} SplitHasSecond(s: string, c: char)
    ensures |Split(s, c)| >= 2 <==> c in s
    decreases |s|
  {
    if s != [] && s[0] != c {
      SplitHasSecond(s[1..], c);
      assert c in s <==> c in s[1..];
    }
  }

  /** No piece of a split contains the separator. */
  lemma {:induction false} SplitPiecesAvoidSeparator(s: string, c: char)
    ensures forall p :: p in Split(s, c) ==> c !in p
    decreases |s|
  {
    if s != [] {
      SplitPiecesAvoidSeparator(s[1..], c);
      if s[0] != c {
        var rest := Split(s[1..], c);
        assert c !in rest[0];
        assert forall p :: p in rest[1..] ==> p in rest;
      }
    }
  }

  /** Joining the pieces with the separator gives back the original text. */
  lemma {:induction false} JoinSplit(s: string, c: char)
    ensures Join(Split(s, c), c) == s
    decreases |s|
  {
    if s != [] {
      JoinSplit(s[1..], c);
      var rest := Split(s[1..], c);
      if s[0] != c {
        var parts := Split(s, c);
        assert parts[1..] == rest[1..];
        if |rest| == 1 {
          assert Join(parts, c) == [s[0]] + rest[0];
        } else {
          assert Join(parts, c) == [s[0]] + rest[0] + [c] + Join(rest[1..], c);
        }
      }
    }
  }
}
