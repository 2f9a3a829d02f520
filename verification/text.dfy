/**
 * The string operations the pages use: `toLowerCase`, `toUpperCase`,
 * `includes`, `split(' ')` and `join(' ')`. Case mapping is modelled on the
 * ASCII letters only; every other character maps to itself.
 */
module Text {

  function LowerChar(c: char): char
  {
    if 'A' <= c <= 'Z' then (c as int + 32) as char else c
  }

  function UpperChar(c: char): char
  {
    if 'a' <= c <= 'z' then (c as int - 32) as char else c
  }

  /** `s.toLowerCase()`, character by character. */
  function Lower(s: string): (r: string)
    ensures |r| == |s|
    ensures forall i :: 0 <= i < |s| ==> r[i] == LowerChar(s[i])
  {
    if s == [] then [] else [LowerChar(s[0])] + Lower(s[1..])
  }

  /** `s.toUpperCase()`, character by character. */
  function Upper(s: string): (r: string)
    ensures |r| == |s|
    ensures forall i :: 0 <= i < |s| ==> r[i] == UpperChar(s[i])
  {
    if s == [] then [] else [UpperChar(s[0])] + Upper(s[1..])
  }

  lemma LowerIdempotent(s: string)
    ensures Lower(Lower(s)) == Lower(s)
  {
  }

  lemma LowerOfUpper(s: string)
    ensures Lower(Upper(s)) == Lower(s)
  {
  }

  lemma LowerAppend(s: string, t: string)
    ensures Lower(s + t) == Lower(s) + Lower(t)
  {
  }

  lemma LowerPrefix(p: string, s: string)
    requires IsPrefix(p, s)
    ensures IsPrefix(Lower(p), Lower(s))
  {
  }

  predicate IsPrefix(p: string, s: string)
  {
    |p| <= |s| && s[..|p|] == p
  }

  /** `hay.includes(needle)`: needle occurs at some position of hay. */
  predicate Contains(hay: string, needle: string)
  {
    IsPrefix(needle, hay) || (hay != [] && Contains(hay[1..], needle))
  }

  /** A string that contains t + u also contains t. */
  lemma {:induction false} ContainsPrefixOfNeedle(hay: string, t: string, u: string)
    requires Contains(hay, t + u)
    ensures Contains(hay, t)
  {
    if IsPrefix(t + u, hay) {
      assert hay[..|t|] == (t + u)[..|t|] == t;
    } else {
      ContainsPrefixOfNeedle(hay[1..], t, u);
    }
  }

  /** `s.split(' ')`: the pieces between single spaces; never empty. */
  function Split(s: string): (pieces: seq<string>)
    ensures |pieces| >= 1
  {
    if s == [] then [""]
    else
      var rest := Split(s[1..]);
      if s[0] == ' ' then [""] + rest else [[s[0]] + rest[0]] + rest[1..]
  }

  /** `pieces.join(' ')`. */
  function Join(pieces: seq<string>): string
    requires |pieces| >= 1
  {
    if |pieces| == 1 then pieces[0] else pieces[0] + " " + Join(pieces[1..])
  }

  function Spaces(s: string): nat
  {
    if s == [] then 0 else (if s[0] == ' ' then 1 else 0) + Spaces(s[1..])
  }

  /** Splitting at single spaces and joining with single spaces gives the string back. */
  lemma {:induction false} JoinSplit(s: string)
    ensures Join(Split(s)) == s
  {
    if s != [] {
      var rest := Split(s[1..]);
      JoinSplit(s[1..]);
      if s[0] == ' ' {
        assert Split(s) == [""] + rest;
        assert Split(s)[1..] == rest;
      } else {
        var ps := Split(s);
        assert ps == [[s[0]] + rest[0]] + rest[1..];
        if |rest| == 1 {
          assert Join(rest) == rest[0];
        } else {
          assert ps[1..] == rest[1..];
          assert Join(rest) == rest[0] + " " + Join(rest[1..]);
        }
      }
    }
  }

  /** There is one more piece than there are spaces. */
  lemma {:induction false} SplitCount(s: string)
    ensures |Split(s)| == Spaces(s) + 1
  {
    if s != [] {
      SplitCount(s[1..]);
    }
  }

  /** Joining a leading run of the pieces gives a prefix of joining them all. */
  lemma {:induction false} JoinTakePrefix(pieces: seq<string>, k: nat)
    requires 1 <= k <= |pieces|
    ensures IsPrefix(Join(pieces[..k]), Join(pieces))
  {
    if k < |pieces| {
      if k == 1 {
        assert Join(pieces[..1]) == pieces[0];
      } else {
        JoinTakePrefix(pieces[1..], k - 1);
        assert pieces[..k][1..] == pieces[1..][..k - 1];
        var tail := Join(pieces[1..][..k - 1]);
        assert Join(pieces[..k]) == pieces[0] + " " + tail;
        assert Join(pieces) == pieces[0] + " " + Join(pieces[1..]);
        assert (pieces[0] + " " + Join(pieces[1..]))[..|pieces[0] + " "| + |tail|]
            == pieces[0] + " " + Join(pieces[1..])[..|tail|];
      }
    } else {
      assert pieces[..k] == pieces;
    }
  }

  /**
   * Lexicographic order of strings by character code: the order in which
   * the document store lists document ids.
   */
  predicate LexLe(a: string, b: string)
  {
    a == [] || (b != [] && (a[0] < b[0] || (a[0] == b[0] && LexLe(a[1..], b[1..]))))
  }

  lemma {:induction false} LexReflexive(a: string)
    ensures LexLe(a, a)
  {
    if a != [] {
      LexReflexive(a[1..]);
    }
  }

  lemma {:induction false} LexTotal(a: string, b: string)
    ensures LexLe(a, b) || LexLe(b, a)
  {
    if a != [] && b != [] && a[0] == b[0] {
      LexTotal(a[1..], b[1..]);
    }
  }

  lemma {:induction false} LexTransitive(a: string, b: string, c: string)
    requires LexLe(a, b) && LexLe(b, c)
    ensures LexLe(a, c)
  {
    if a != [] && b != [] && c != [] && a[0] == b[0] && b[0] == c[0] {
      LexTransitive(a[1..], b[1..], c[1..]);
    }
  }

  lemma {:induction false} LexAntisymmetric(a: string, b: string)
    requires LexLe(a, b) && LexLe(b, a)
    ensures a == b
  {
    if a != [] && b != [] {
      LexAntisymmetric(a[1..], b[1..]);
      assert a == [a[0]] + a[1..] && b == [b[0]] + b[1..];
    }
  }
}
