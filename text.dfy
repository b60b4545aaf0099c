/**
 * The JavaScript string built-ins the core relies on, over sequences of
 * characters: `toLowerCase` (ASCII letters only), `includes`, `indexOf`,
 * `lastIndexOf`, `split` on a one-character separator and `join`.
 */
module Text {

  /** `toLowerCase` on one character: only 'A'..'Z' change. */
  function LowerChar(c: char): (d: char)
    ensures 'A' <= c <= 'Z' ==> 'a' <= d <= 'z' && d as int - c as int == 32
    ensures !('A' <= c <= 'Z') ==> d == c
  {
    if 'A' <= c <= 'Z' then (c as int + 32) as char else c
  }

  /** `s.toLowerCase()`, character by character. */
  function Lower(s: string): (r: string)
    ensures |r| == |s|
    ensures forall i :: 0 <= i < |s| ==> r[i] == LowerChar(s[i])
  {
    seq(|s|, i requires 0 <= i < |s| => LowerChar(s[i]))
  }

  /** Lower-casing twice is lower-casing once. */
  lemma LowerIdempotent(s: string)
    ensures Lower(Lower(s)) == Lower(s)
  {
    assert forall i :: 0 <= i < |s| ==> LowerChar(LowerChar(s[i])) == LowerChar(s[i]);
  }

  /** `t` occurs in `s` starting at position `i`. */
  predicate OccursAt(s: string, t: string, i: int)
  {
    0 <= i && i + |t| <= |s| && s[i..i + |t|] == t
  }

  /** `s.includes(t)`, scanning start positions from the left. */
  function Contains(s: string, t: string): bool
    decreases |s|
  {
    if |t| > |s| then false
    else if s[..|t|] == t then true
    else Contains(s[1..], t)
  }

  /** `includes` holds exactly when `t` occurs somewhere in `s`. */
  lemma {:induction false} ContainsIff(s: string, t: string)
    ensures Contains(s, t) <==> exists i :: OccursAt(s, t, i)
    decreases |s|
  {
    if |t| > |s| {
      forall i ensures !OccursAt(s, t, i) { }
    } else if s[..|t|] == t {
      assert OccursAt(s, t, 0);
    } else {
      ContainsIff(s[1..], t);
      if Contains(s, t) {
        var i :| OccursAt(s[1..], t, i);
        assert s[i + 1..i + 1 + |t|] == s[1..][i..i + |t|];
        assert OccursAt(s, t, i + 1);
      } else {
        forall i | OccursAt(s, t, i) ensures false {
          assert i != 0;
          assert s[1..][i - 1..i - 1 + |t|] == s[i..i + |t|];
          assert OccursAt(s[1..], t, i - 1);
        }
      }
    }
  }

  /** Every string includes the empty string. */
  lemma ContainsEmpty(s: string)
    ensures Contains(s, "")
  {
    ContainsIff(s, "");
    assert OccursAt(s, "", 0);
  }

  /** `s.indexOf(c)`: the first position holding `c`, or -1. */
  function IndexOf(s: string, c: char): (k: int)
    ensures -1 <= k < |s|
    ensures k >= 0 ==> s[k] == c
    ensures k == -1 <==> c !in s
    ensures forall j :: 0 <= j < |s| && (k == -1 || j < k) ==> s[j] != c
  {
    if s == [] then -1
    else if s[0] == c then 0
    else
      var k := IndexOf(s[1..], c);
      if k < 0 then -1 else k + 1
  }

  /** `s.lastIndexOf(c)`: the last position holding `c`, or -1. */
  function LastIndexOf(s: string, c: char): (k: int)
    ensures -1 <= k < |s|
    ensures k >= 0 ==> s[k] == c
    ensures k == -1 <==> c !in s
    ensures forall j :: k < j < |s| ==> s[j] != c
  {
    if s == [] then -1
    else if s[|s| - 1] == c then |s| - 1
    else LastIndexOf(s[..|s| - 1], c)
  }

  /** `s.split(c)` for a one-character separator: the pieces between occurrences of `c`. */
  function Split(s: string, c: char): (parts: seq<string>)
    ensures |parts| >= 1
    decreases |s|
  {
    var k := IndexOf(s, c);
    if k < 0 then [s] else [s[..k]] + Split(s[k + 1..], c)
  }

  /** `parts.join(sep)`. */
  function Join(parts: seq<string>, sep: string): string
  {
    if |parts| == 0 then ""
    else if |parts| == 1 then parts[0]
    else parts[0] + sep + Join(parts[1..], sep)
  }

  /** No piece produced by `split` contains the separator. */
  lemma {:induction false} SplitPiecesFree(s: string, c: char)
    ensures forall i :: 0 <= i < |Split(s, c)| ==> c !in Split(s, c)[i]
    decreases |s|
  {
    var k := IndexOf(s, c);
    if k >= 0 {
      SplitPiecesFree(s[k + 1..], c);
      var parts := Split(s, c);
      assert parts == [s[..k]] + Split(s[k + 1..], c);
      forall i | 0 <= i < |parts| ensures c !in parts[i] {
        if i > 0 {
          assert parts[i] == Split(s[k + 1..], c)[i - 1];
        }
      }
    }
  }

  /** Joining a piece in front of a non-empty list puts the separator between them. */
  lemma JoinCons(head: string, rest: seq<string>, sep: string)
    requires |rest| >= 1
    ensures Join([head] + rest, sep) == head + sep + Join(rest, sep)
  {
    assert ([head] + rest)[1..] == rest;
  }

  /** Splitting at the first separator, at position `k`, keeps the text before it as the first piece. */
  lemma SplitAt(s: string, c: char, k: int)
    requires k == IndexOf(s, c) && k >= 0
    ensures Split(s, c) == [s[..k]] + Split(s[k + 1..], c)
    ensures s == s[..k] + [c] + s[k + 1..]
  {
  }

  /** Joining the pieces of `split` with the separator gives the string back. */
  lemma {:induction false} JoinSplit(s: string, c: char)
    ensures Join(Split(s, c), [c]) == s
    decreases |s|
  {
    var k := IndexOf(s, c);
    if k >= 0 {
      var tail := s[k + 1..];
      JoinSplit(tail, c);
      SplitAt(s, c, k);
      JoinCons(s[..k], Split(tail, c), [c]);
    }
  }

  /** The first piece of `split` is the text before the first separator, or all of `s`. */
  lemma FirstPiece(s: string, c: char)
    ensures Split(s, c)[0] == if c in s then s[..IndexOf(s, c)] else s
  {
  }

  /** `a` is at or before `b` in the lexicographic order JavaScript uses to compare strings. */
  predicate LexLeq(a: string, b: string)
    decreases |a|
  {
    a == [] || (b != [] && (a[0] < b[0] || (a[0] == b[0] && LexLeq(a[1..], b[1..]))))
  }

  lemma {:induction false} LexLeqReflexive(a: string)
    ensures LexLeq(a, a)
    decreases |a|
  {
    if a != [] {
      LexLeqReflexive(a[1..]);
    }
  }

  lemma {:induction false} LexLeqTransitive(a: string, b: string, c: string)
    requires LexLeq(a, b) && LexLeq(b, c)
    ensures LexLeq(a, c)
    decreases |a|
  {
    if a != [] && b != [] && c != [] && a[0] == b[0] && b[0] == c[0] {
      LexLeqTransitive(a[1..], b[1..], c[1..]);
    }
  }
}
