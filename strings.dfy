/**
  The string operations the compiler relies on: Python's `str.split('.')`,
  its inverse `'.'.join`, ASCII character classes and `str.lower()`.
*/
module Strings {

  /** `s.split('.')`: the maximal dot-free pieces of s, empty pieces included. */
  function Split(s: string): (parts: seq<string>)
    ensures |parts| >= 1
    decreases |s|
  {
    if |s| == 0 then [""]
    else
      var rest := Split(s[1..]);
      if s[0] == '.' then [""] + rest
      else [[s[0]] + rest[0]] + rest[1..]
  }

  /** `'.'.join(parts)`. */
  function Join(parts: seq<string>): string
    requires |parts| >= 1
  {
    if |parts| == 1 then parts[0] else parts[0] + "." + Join(parts[1..])
  }

  /** Joining the pieces of a split gives back the original string. */
  lemma {:induction false} JoinSplit(s: string)
    ensures Join(Split(s)) == s
    decreases |s|
  {
    if |s| > 0 {
      var rest := Split(s[1..]);
      JoinSplit(s[1..]);
      if s[0] == '.' {
        assert ([""] + rest)[1..] == rest;
        assert s == "." + s[1..];
      } else {
        var parts := [[s[0]] + rest[0]] + rest[1..];
        if |rest| == 1 {
          assert s == [s[0]] + s[1..];
        } else {
          assert parts[1..] == rest[1..];
          assert s == [s[0]] + s[1..];
        }
      }
    }
  }

  /** No piece of a split contains the separator. */
  lemma {:induction false} SplitPiecesDotFree(s: string)
    ensures forall i :: 0 <= i < |Split(s)| ==> '.' !in Split(s)[i]
    decreases |s|
  {
    if |s| > 0 {
      SplitPiecesDotFree(s[1..]);
    }
  }

  /** A dot-free string splits into itself alone. */
  lemma {:induction false} SplitDotFree(s: string)
    requires '.' !in s
    ensures Split(s) == [s]
    decreases |s|
  {
    if |s| > 0 {
      assert '.' !in s[1..] by {
        forall i | 0 <= i < |s[1..]| ensures s[1..][i] != '.' { assert s[1..][i] == s[i + 1]; }
      }
      SplitDotFree(s[1..]);
      assert [s[0]] + s[1..] == s;
    }
  }

  /** Two dot-free strings joined by one dot split back into exactly those two. */
  lemma {:induction false} SplitPair(p: string, k: string)
    requires '.' !in p && '.' !in k
    ensures Split(p + "." + k) == [p, k]
    decreases |p|
  {
    var s := p + "." + k;
    if |p| == 0 {
      assert s == "." + k;
      assert s[1..] == k;
      SplitDotFree(k);
    } else {
      var p' := p[1..];
      assert '.' !in p' by {
        forall i | 0 <= i < |p'| ensures p'[i] != '.' { assert p'[i] == p[i + 1]; }
      }
      assert s[1..] == p' + "." + k;
      SplitPair(p', k);
      assert s[0] == p[0];
      assert [p[0]] + p' == p;
    }
  }

  /** A string splits into exactly two pieces iff it is two dot-free strings joined by one dot. */
  lemma TwoPieces(s: string)
    ensures |Split(s)| == 2 <==> exists p, k :: '.' !in p && '.' !in k && s == p + "." + k
  {
    if |Split(s)| == 2 {
      JoinSplit(s);
      SplitPiecesDotFree(s);
      var parts := Split(s);
      assert Join(parts) == parts[0] + "." + parts[1];
      assert '.' !in parts[0] && '.' !in parts[1] && s == parts[0] + "." + parts[1];
    }
    if exists p, k :: '.' !in p && '.' !in k && s == p + "." + k {
      var p, k :| '.' !in p && '.' !in k && s == p + "." + k;
      SplitPair(p, k);
    }
  }

  predicate IsAlpha(c: char) {
    'A' <= c <= 'Z' || 'a' <= c <= 'z'
  }

  predicate IsDigit(c: char) {
    '0' <= c <= '9'
  }

  predicate IsUpper(c: char) {
    'A' <= c <= 'Z'
  }

  /** Python's `str.lower()` on one character, restricted to ASCII letters. */
  function LowerChar(c: char): char {
    if IsUpper(c) then (c as int - 'A' as int + 'a' as int) as char else c
  }

  /**
    `s.lower()` for ASCII text: no capital is left, every capital becomes the
    same letter in lower case, and every other character stays where it is.
  */
  function Lower(s: string): (r: string)
    ensures |r| == |s|
    ensures forall i :: 0 <= i < |r| ==> !IsUpper(r[i])
    ensures forall i :: 0 <= i < |s| && IsUpper(s[i]) ==>
      'a' <= r[i] <= 'z' && r[i] as int - 'a' as int == s[i] as int - 'A' as int
    ensures forall i :: 0 <= i < |s| && !IsUpper(s[i]) ==> r[i] == s[i]
    ensures (forall i :: 0 <= i < |s| ==> !IsUpper(s[i])) ==> r == s
  {
    seq(|s|, i requires 0 <= i < |s| => LowerChar(s[i]))
  }
}
