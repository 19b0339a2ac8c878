/** The two PHP string primitives the request client relies on: `explode` with a
    one-character delimiter and `str_replace` of one search string. */
module Strings {

  /** `pat` occurs in `s` starting at position `i`. */
  predicate OccursAt(s: string, pat: string, i: nat) {
    i + |pat| <= |s| && s[i..i + |pat|] == pat
  }

  /** `pat` occurs somewhere in `s`. */
  predicate Contains(s: string, pat: string) {
    exists i: nat | i <= |s| :: OccursAt(s, pat, i)
  }

  /** PHP `str_replace(pat, rep, s)`: scans `s` left to right and replaces every
      non-overlapping occurrence of `pat` by `rep`; replaced text is not rescanned. */
  function ReplaceAll(s: string, pat: string, rep: string): string
    requires |pat| > 0
    decreases |s|
  {
    if |s| == 0 then []
    else if OccursAt(s, pat, 0) then rep + ReplaceAll(s[|pat|..], pat, rep)
    else [s[0]] + ReplaceAll(s[1..], pat, rep)
  }

  /** PHP `explode(c, s)`: the pieces of `s` between occurrences of `c`. There is one
      more piece than there are separators, so a string holding `c` has two or more. */
  function Explode(s: string, c: char): (parts: seq<string>)
    ensures |parts| >= 1
    ensures c in s <==> |parts| >= 2
    decreases |s|
  {
    if |s| == 0 then [[]]
    else
      var rest := Explode(s[1..], c);
      if s[0] == c then [[]] + rest
      else [[s[0]] + rest[0]] + rest[1..]
  }

  /** PHP `implode(c, parts)`, the inverse of `Explode`. */
  function Implode(parts: seq<string>, c: char): string
    requires |parts| >= 1
  {
    if |parts| == 1 then parts[0] else parts[0] + [c] + Implode(parts[1..], c)
  }

  /** A shifted occurrence: an occurrence in `s[1..]` is one in `s`, one place later. */
  lemma OccursAtTail(s: string, pat: string, i: nat)
    requires |s| > 0 && OccursAt(s[1..], pat, i)
    ensures OccursAt(s, pat, i + 1)
  {
    assert s[i + 1..i + 1 + |pat|] == s[1..][i..i + |pat|];
  }

  /** A position whose character differs from the pattern's first is no occurrence. */
  lemma NotOccursAt(s: string, pat: string, i: nat)
    requires |pat| > 0 && i < |s| && s[i] != pat[0]
    ensures !OccursAt(s, pat, i)
  {
    if i + |pat| <= |s| {
      assert s[i..i + |pat|][0] == s[i];
    }
  }

  /** `str_replace` leaves a string without the pattern unchanged. */
  lemma {:induction false} ReplaceAllAbsent(s: string, pat: string, rep: string)
    requires |pat| > 0 && !Contains(s, pat)
    ensures ReplaceAll(s, pat, rep) == s
    decreases |s|
  {
    if |s| > 0 {
      assert !OccursAt(s, pat, 0);
      forall i: nat | OccursAt(s[1..], pat, i) ensures false {
        OccursAtTail(s, pat, i);
      }
      ReplaceAllAbsent(s[1..], pat, rep);
    }
  }

  /** A prefix that does not hold the pattern's first character is copied unchanged. */
  lemma {:induction false} ReplaceAllSkip(a: string, b: string, pat: string, rep: string)
    requires |pat| > 0 && pat[0] !in a
    ensures ReplaceAll(a + b, pat, rep) == a + ReplaceAll(b, pat, rep)
    decreases |a|
  {
    if |a| > 0 {
      var s := a + b;
      assert s[0] == a[0] && a[0] in a;
      NotOccursAt(s, pat, 0);
      assert s[1..] == a[1..] + b;
      ReplaceAllSkip(a[1..], b, pat, rep);
      assert [a[0]] + a[1..] == a;
    } else {
      assert a + b == b;
    }
  }

  /** An occurrence of the pattern at the front of the string is replaced. */
  lemma ReplaceAllHead(b: string, pat: string, rep: string)
    requires |pat| > 0
    ensures ReplaceAll(pat + b, pat, rep) == rep + ReplaceAll(b, pat, rep)
  {
    var s := pat + b;
    assert s[0..|pat|] == pat;
    assert s[|pat|..] == b;
  }

  /** A prefix `y` free of the pattern, followed by a character `z[0]` that the pattern
      does not use and a rest `z` free of the pattern's first character, is copied unchanged,
      even when `y` ends in a partial match. */
  lemma {:induction false} ReplaceAllPast(y: string, z: string, w: string, pat: string, rep: string)
    requires |pat| > 0 && !Contains(y, pat)
    requires |z| > 0 && z[0] !in pat && pat[0] !in z
    ensures ReplaceAll(y + z + w, pat, rep) == y + z + ReplaceAll(w, pat, rep)
    decreases |y|
  {
    if |y| == 0 {
      assert y + z + w == z + w;
      ReplaceAllSkip(z, w, pat, rep);
    } else {
      var s := y + z + w;
      assert !OccursAt(s, pat, 0) by {
        if |pat| <= |y| {
          assert !OccursAt(y, pat, 0);
          assert y[0..|pat|] == s[0..|pat|];
        } else if |pat| <= |s| {
          assert s[0..|pat|][|y|] == z[0];
          assert pat[|y|] in pat;
        }
      }
      forall i: nat | OccursAt(y[1..], pat, i) ensures false {
        OccursAtTail(y, pat, i);
      }
      assert s[1..] == y[1..] + z + w;
      ReplaceAllPast(y[1..], z, w, pat, rep);
      assert [y[0]] + y[1..] == y;
    }
  }

  /** Splitting at the first separator: the leading piece is everything before it. */
  lemma {:induction false} ExplodeFirst(x: string, y: string, c: char)
    requires c !in x
    ensures Explode(x + [c] + y, c) == [x] + Explode(y, c)
    decreases |x|
  {
    if |x| == 0 {
      assert x + [c] + y == [c] + y;
      assert ([c] + y)[1..] == y;
    } else {
      var s := x + [c] + y;
      assert s[1..] == x[1..] + [c] + y;
      ExplodeFirst(x[1..], y, c);
      assert [x[0]] + x[1..] == x;
    }
  }

  /** A string without the separator is a single piece. */
  lemma {:induction false} ExplodeNone(x: string, c: char)
    requires c !in x
    ensures Explode(x, c) == [x]
    decreases |x|
  {
    if |x| > 0 {
      ExplodeNone(x[1..], c);
      assert [x[0]] + x[1..] == x;
    }
  }

  /** Exploding and imploding again gives back the original string, and no piece
      holds the separator. */
  lemma {:induction false} ExplodeImplode(s: string, c: char)
    ensures Implode(Explode(s, c), c) == s
    ensures forall k :: 0 <= k < |Explode(s, c)| ==> c !in Explode(s, c)[k]
    decreases |s|
  {
    if |s| > 0 {
      var rest := Explode(s[1..], c);
      ExplodeImplode(s[1..], c);
      if s[0] == c {
        assert Explode(s, c) == [[]] + rest;
        assert ([[]] + rest)[1..] == rest;
        assert s == [] + [c] + s[1..];
      } else {
        var parts := Explode(s, c);
        assert parts == [[s[0]] + rest[0]] + rest[1..];
        if |rest| == 1 {
          assert s == [s[0]] + rest[0];
        } else {
          assert parts[1..] == rest[1..];
          assert Implode(rest, c) == rest[0] + [c] + Implode(rest[1..], c);
          assert s == [s[0]] + rest[0] + [c] + Implode(rest[1..], c);
        }
        forall k | 0 <= k < |parts| ensures c !in parts[k] {
          if k == 0 {
            assert c !in rest[0];
          } else {
            assert parts[k] == rest[k];
          }
        }
      }
    }
  }

  /** Imploding pieces that hold no separator and exploding again gives back the pieces. */
  lemma {:induction false} ImplodeExplode(parts: seq<string>, c: char)
    requires |parts| >= 1
    requires forall k :: 0 <= k < |parts| ==> c !in parts[k]
    ensures Explode(Implode(parts, c), c) == parts
    decreases |parts|
  {
    if |parts| == 1 {
      ExplodeNone(parts[0], c);
    } else {
      ImplodeExplode(parts[1..], c);
      ExplodeFirst(parts[0], Implode(parts[1..], c), c);
      assert [parts[0]] + parts[1..] == parts;
    }
  }
}
