/**
 * The string operations the chat endpoint relies on: ASCII lower-casing,
 * substring search (`includes`), and splitting on and joining with a single
 * space (`split(' ')`, `join(' ')`).
 */
module Text {

  /** An ASCII upper-case letter becomes lower-case; every other character is kept. */
  function LowerChar(ch: char): (r: char)
    ensures 'A' <= ch <= 'Z' ==> 'a' <= r <= 'z'
    ensures !('A' <= ch <= 'Z') ==> r == ch
    ensures !('A' <= r <= 'Z')
  {
    if 'A' <= ch <= 'Z' then (ch as int - 'A' as int + 'a' as int) as char else ch
  }

  /** `s` lower-cased character by character. */
  function Lower(s: string): string
  {
    seq(|s|, i requires 0 <= i < |s| => LowerChar(s[i]))
  }

  /** Lower-casing twice is lower-casing once. */
  lemma LowerIdempotent(s: string)
    ensures Lower(Lower(s)) == Lower(s)
  {
    assert forall i :: 0 <= i < |s| ==> Lower(Lower(s))[i] == Lower(s)[i];
  }

  /** Lower-casing commutes with taking a slice. */
  lemma LowerSlice(s: string, i: nat, j: nat)
    requires i <= j <= |s|
    ensures Lower(s)[i..j] == Lower(s[i..j])
  {
  }

  /** `s` begins with `prefix`. */
  predicate StartsWith(s: string, prefix: string)
  {
    |prefix| <= |s| && s[..|prefix|] == prefix
  }

  /** `s` contains `sub` at some position (the empty string is contained everywhere). */
  predicate Contains(s: string, sub: string)
    decreases |s|
  {
    StartsWith(s, sub) || (|s| > 0 && Contains(s[1..], sub))
  }

  /** An occurrence at position `i` is an occurrence. */
  lemma {:induction false} ContainsAt(s: string, sub: string, i: nat)
    requires i + |sub| <= |s| && s[i..i + |sub|] == sub
    ensures Contains(s, sub)
    decreases i
  {
    if i > 0 {
      assert s[1..][i - 1..i - 1 + |sub|] == s[i..i + |sub|];
      ContainsAt(s[1..], sub, i - 1);
    }
  }

  /** Every occurrence is at some position. */
  lemma {:induction false} ContainsHasPosition(s: string, sub: string) returns (i: nat)
    requires Contains(s, sub)
    ensures i + |sub| <= |s| && s[i..i + |sub|] == sub
    decreases |s|
  {
    if StartsWith(s, sub) {
      i := 0;
    } else {
      var k := ContainsHasPosition(s[1..], sub);
      assert s[1..][k..k + |sub|] == s[k + 1..k + 1 + |sub|];
      i := k + 1;
    }
  }

  /** Every character of a contained string occurs in the containing one. */
  lemma ContainsHasChars(s: string, sub: string)
    ensures Contains(s, sub) ==> forall k :: 0 <= k < |sub| ==> sub[k] in s
  {
    if Contains(s, sub) {
      var i := ContainsHasPosition(s, sub);
      assert forall k :: 0 <= k < |sub| ==> sub[k] == s[i + k];
    }
  }

  /** A string lacking some character of `sub` does not contain `sub`. */
  lemma MissingChar(s: string, sub: string, k: nat)
    requires k < |sub| && sub[k] !in s
    ensures !Contains(s, sub)
  {
    ContainsHasChars(s, sub);
  }

  /** A word found in `s` is found, lower-cased, in `s` lower-cased. */
  lemma ContainsLower(s: string, sub: string)
    requires Contains(s, sub)
    ensures Contains(Lower(s), Lower(sub))
  {
    var i := ContainsHasPosition(s, sub);
    LowerSlice(s, i, i + |sub|);
    ContainsAt(Lower(s), Lower(sub), i);
  }

  /** A string always contains itself, wherever it is placed. */
  lemma ContainsMiddle(a: string, b: string, c: string)
    ensures Contains(a + b + c, b)
  {
    assert (a + b + c)[|a|..|a| + |b|] == b;
    ContainsAt(a + b + c, b, |a|);
  }

  // ---------------------------------------------------------------------
  // Splitting on and joining with ' '

  /**
   * The pieces between the spaces of `s` (`s.split(' ')`): there is always at
   * least one piece, and adjacent, leading or trailing spaces give empty pieces.
   */
  function SplitOnSpace(s: string): (pieces: seq<string>)
    ensures |pieces| >= 1
    ensures forall p :: p in pieces ==> ' ' !in p
    decreases |s|
  {
    if s == [] then [""]
    else if s[0] == ' ' then [""] + SplitOnSpace(s[1..])
    else
      var rest := SplitOnSpace(s[1..]);
      [[s[0]] + rest[0]] + rest[1..]
  }

  /** The pieces separated by single spaces (`pieces.join(' ')`). */
  function JoinWithSpace(pieces: seq<string>): (s: string)
  {
    if |pieces| == 0 then ""
    else if |pieces| == 1 then pieces[0]
    else pieces[0] + " " + JoinWithSpace(pieces[1..])
  }

  /** The number of spaces in `s`. */
  function CountSpaces(s: string): nat
  {
    if s == [] then 0 else (if s[0] == ' ' then 1 else 0) + CountSpaces(s[1..])
  }

  /** Joining the pieces gives back the string that was split. */
  lemma {:induction false} JoinSplit(s: string)
    ensures JoinWithSpace(SplitOnSpace(s)) == s
    ensures |SplitOnSpace(s)| == CountSpaces(s) + 1
    decreases |s|
  {
    if s != [] {
      JoinSplit(s[1..]);
      var rest := SplitOnSpace(s[1..]);
      if s[0] == ' ' {
        assert ([""] + rest)[1..] == rest;
        assert s == " " + s[1..];
      } else if |rest| == 1 {
        assert s == [s[0]] + s[1..];
      } else {
        var pieces := [[s[0]] + rest[0]] + rest[1..];
        assert pieces[1..] == rest[1..];
        assert JoinWithSpace(rest) == rest[0] + " " + JoinWithSpace(rest[1..]);
        assert s == [s[0]] + s[1..];
      }
    }
  }

  /** A string without spaces splits into itself. */
  lemma {:induction false} SplitNoSpace(p: string)
    requires ' ' !in p
    ensures SplitOnSpace(p) == [p]
    decreases |p|
  {
    if p != [] {
      assert ' ' !in p[1..];
      SplitNoSpace(p[1..]);
      assert p == [p[0]] + p[1..];
    }
  }

  /** A space-free piece followed by a space splits off as one piece. */
  lemma {:induction false} SplitAfterPiece(p: string, t: string)
    requires ' ' !in p
    ensures SplitOnSpace(p + " " + t) == [p] + SplitOnSpace(t)
    decreases |p|
  {
    var s := p + " " + t;
    if p == [] {
      assert s == " " + t && s[1..] == t;
    } else {
      var q := p[1..];
      assert ' ' !in q;
      assert s[1..] == q + " " + t;
      SplitAfterPiece(q, t);
      assert p == [p[0]] + q;
    }
  }

  /** Splitting the joined pieces gives back the pieces, when no piece holds a space. */
  lemma {:induction false} SplitJoin(pieces: seq<string>)
    requires |pieces| >= 1
    requires forall p :: p in pieces ==> ' ' !in p
    ensures SplitOnSpace(JoinWithSpace(pieces)) == pieces
    decreases |pieces|
  {
    if |pieces| == 1 {
      SplitNoSpace(pieces[0]);
    } else {
      assert pieces[0] in pieces;
      assert forall p :: p in pieces[1..] ==> p in pieces;
      SplitJoin(pieces[1..]);
      SplitAfterPiece(pieces[0], JoinWithSpace(pieces[1..]));
      assert pieces == [pieces[0]] + pieces[1..];
    }
  }

  /** The concatenation of `parts`, in order. */
  function Concat(parts: seq<string>): string
  {
    if parts == [] then "" else parts[0] + Concat(parts[1..])
  }

  /** Concatenation works piece by piece. */
  lemma {:induction false} ConcatAppend(a: seq<string>, b: seq<string>)
    ensures Concat(a + b) == Concat(a) + Concat(b)
  {
    if a == [] {
      assert a + b == b;
    } else {
      assert (a + b)[1..] == a[1..] + b;
      ConcatAppend(a[1..], b);
    }
  }
}
