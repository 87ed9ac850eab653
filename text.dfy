/** The string operations the components use, as JavaScript defines them
    (`toLowerCase` restricted to ASCII, `includes`, `split`, `startsWith`,
    global `replace` of a literal). */
module Text {
  import opened Wrappers

  /** ASCII case folding; other characters are left as they are. */
  function LowerChar(c: char): (d: char)
    ensures 'A' <= c <= 'Z' ==> d as int == c as int + 32
    ensures !('A' <= c <= 'Z') ==> d == c
  {
    if 'A' <= c <= 'Z' then (c as int + 32) as char else c
  }

  function Lower(s: string): (r: string)
    ensures |r| == |s|
    ensures forall i :: 0 <= i < |s| ==> r[i] == LowerChar(s[i])
  {
    seq(|s|, i requires 0 <= i < |s| => LowerChar(s[i]))
  }

  predicate OccursAt(s: string, pat: string, i: int) {
    0 <= i && i + |pat| <= |s| && s[i..i + |pat|] == pat
  }

  /** The first position at or after `from` where `pat` occurs in `s`. */
  function IndexFrom(s: string, pat: string, from: nat): (r: Option<nat>)
    requires from <= |s|
    ensures r.Some? ==> from <= r.value && OccursAt(s, pat, r.value)
    ensures r.Some? ==> forall j :: from <= j < r.value ==> !OccursAt(s, pat, j)
    ensures r.None? ==> forall j :: from <= j ==> !OccursAt(s, pat, j)
    decreases |s| - from
  {
    if from + |pat| > |s| then None
    else if s[from..from + |pat|] == pat then Some(from)
    else IndexFrom(s, pat, from + 1)
  }

  /** `s.indexOf(pat)`, with -1 written as None. */
  function IndexOf(s: string, pat: string): (r: Option<nat>)
    ensures r.Some? ==> OccursAt(s, pat, r.value) && forall j :: 0 <= j < r.value ==> !OccursAt(s, pat, j)
    ensures r.None? ==> forall j :: !OccursAt(s, pat, j)
  {
    IndexFrom(s, pat, 0)
  }

  /** `s.includes(pat)`. */
  function Contains(s: string, pat: string): (b: bool)
    ensures b <==> exists i :: OccursAt(s, pat, i)
  {
    IndexOf(s, pat).Some?
  }

  /** Case-insensitive `includes`, as `a.toLowerCase().includes(b.toLowerCase())`. */
  function ContainsIgnoringCase(s: string, pat: string): bool {
    Contains(Lower(s), Lower(pat))
  }

  predicate StartsWith(s: string, prefix: string) {
    |prefix| <= |s| && s[..|prefix|] == prefix
  }

  function Join(parts: seq<string>, sep: string): string
    decreases |parts|
  {
    if |parts| == 0 then ""
    else if |parts| == 1 then parts[0]
    else parts[0] + sep + Join(parts[1..], sep)
  }

  lemma PrefixHasNoEarlierOccurrence(s: string, pat: string, i: nat)
    requires i <= |s|
    requires forall j :: 0 <= j < i ==> !OccursAt(s, pat, j)
    requires |pat| > 0
    ensures !Contains(s[..i], pat)
  {
    forall j | OccursAt(s[..i], pat, j)
      ensures false
    {
      assert s[..i][j..j + |pat|] == s[j..j + |pat|];
      assert OccursAt(s, pat, j);
    }
  }

  /** `s.split(sep)` for a non-empty literal separator: the pieces between the
      occurrences of `sep` found scanning left to right. Joining the pieces
      with `sep` gives `s` back, and no piece contains `sep`. */
  function Split(s: string, sep: string): (parts: seq<string>)
    requires |sep| > 0
    ensures |parts| >= 1
    ensures Join(parts, sep) == s
    ensures forall k :: 0 <= k < |parts| ==> !Contains(parts[k], sep)
    ensures |parts| == 1 <==> IndexOf(s, sep).None?
    ensures |parts| >= 2 ==> IndexOf(s, sep) == Some(|parts[0]|)
    decreases |s|
  {
    match IndexOf(s, sep)
    case None => [s]
    case Some(i) =>
      var rest := Split(s[i + |sep|..], sep);
      PrefixHasNoEarlierOccurrence(s, sep, i);
      assert ([s[..i]] + rest)[1..] == rest;
      assert s == s[..i] + sep + s[i + |sep|..];
      [s[..i]] + rest
  }

  /** Where the `k`-th piece starts once the pieces are joined with `sep`. */
  function CutStart(parts: seq<string>, sep: string, k: nat): nat
    requires k <= |parts|
    decreases k
  {
    if k == 0 then 0 else |parts[0]| + |sep| + CutStart(parts[1..], sep, k - 1)
  }

  lemma OccursShift(s: string, pat: string, a: nat, j: nat)
    requires a <= |s|
    ensures OccursAt(s, pat, a + j) <==> OccursAt(s[a..], pat, j)
  {
    if a + j + |pat| <= |s| {
      assert s[a..][j..j + |pat|] == s[a + j..a + j + |pat|];
    }
  }

  /** Searching a suffix is searching the whole string from further on. */
  lemma IndexFromShift(s: string, pat: string, a: nat, b: nat, found: Option<nat>)
    requires a + b <= |s| && IndexFrom(s[a..], pat, b) == found
    ensures IndexFrom(s, pat, a + b) == if found.Some? then Some(a + found.value) else None
  {
    var r1 := IndexFrom(s, pat, a + b);
    var r2 := found;
    if r2.Some? {
      OccursShift(s, pat, a, r2.value);
      forall j | a + b <= j < a + r2.value
        ensures !OccursAt(s, pat, j)
      {
        OccursShift(s, pat, a, j - a);
      }
    }
    if r1.Some? {
      OccursShift(s, pat, a, r1.value - a);
      forall j | b <= j < r1.value - a
        ensures !OccursAt(s[a..], pat, j)
      {
        OccursShift(s, pat, a, j);
      }
    }
  }

  /** The `k`-th cut is made at the first occurrence of `sep` at or after the
      start of the `k`-th piece, and after the last piece there is none. */
  predicate CutAtFirst(s: string, sep: string, parts: seq<string>, k: nat)
    requires k < |parts|
  {
    && CutStart(parts, sep, k) + |parts[k]| <= |s|
    && IndexFrom(s, sep, CutStart(parts, sep, k)) ==
         (if k < |parts| - 1 then Some(CutStart(parts, sep, k) + |parts[k]|) else None)
  }

  /** A cut found in the rest of the text, after the first piece and its
      separator, is a cut of the whole text. */
  lemma CutInRest(s: string, sep: string, parts: seq<string>, k: nat)
    requires 1 <= k < |parts| && |parts[0]| + |sep| <= |s|
    requires CutAtFirst(s[|parts[0]| + |sep|..], sep, parts[1..], k - 1)
    ensures CutAtFirst(s, sep, parts, k)
  {
    var a := |parts[0]| + |sep|;
    var c := CutStart(parts[1..], sep, k - 1);
    assert CutStart(parts, sep, k) == a + c;
    assert parts[1..][k - 1] == parts[k];
    var found := if k < |parts| - 1 then Some(c + |parts[k]|) else None;
    IndexFromShift(s, sep, a, c, found);
  }

  lemma {:induction false} SplitCutAt(s: string, sep: string, k: nat)
    requires |sep| > 0 && k < |Split(s, sep)|
    ensures CutAtFirst(s, sep, Split(s, sep), k)
    decreases |s|
  {
    var parts := Split(s, sep);
    if k > 0 {
      var i := |parts[0]|;
      assert IndexOf(s, sep) == Some(i);
      var t := s[i + |sep|..];
      assert parts == [s[..i]] + Split(t, sep);
      assert parts[1..] == Split(t, sep);
      SplitCutAt(t, sep, k - 1);
      CutInRest(s, sep, parts, k);
    }
  }

  /** Every cut of `split` is made at the leftmost remaining occurrence of
      `sep`: the pieces are those a left-to-right scan produces. */
  lemma SplitCutsLeftmost(s: string, sep: string)
    requires |sep| > 0
    ensures forall k :: 0 <= k < |Split(s, sep)| ==> CutAtFirst(s, sep, Split(s, sep), k)
  {
    forall k | 0 <= k < |Split(s, sep)|
      ensures CutAtFirst(s, sep, Split(s, sep), k)
    {
      SplitCutAt(s, sep, k);
    }
  }

  /** `s.replace(/pat/g, '')` for a literal non-empty pattern: occurrences are
      found left to right without overlapping and deleted. */
  function RemoveAll(s: string, pat: string): (r: string)
    requires |pat| > 0
    ensures |r| <= |s|
    decreases |s|
  {
    if |s| < |pat| then s
    else if s[..|pat|] == pat then RemoveAll(s[|pat|..], pat)
    else [s[0]] + RemoveAll(s[1..], pat)
  }

  /** The characters of `s` other than `c`, in order. */
  function Drop(s: string, c: char): (r: string)
    ensures c !in r
    decreases |s|
  {
    if |s| == 0 then "" else (if s[0] == c then "" else [s[0]]) + Drop(s[1..], c)
  }

  lemma OccursAfterHead(c: char, x: string, pat: string, i: int)
    requires OccursAt([c] + x, pat, i) && i > 0
    ensures OccursAt(x, pat, i - 1)
  {
    assert ([c] + x)[i..i + |pat|] == x[i - 1..i - 1 + |pat|];
  }

  /** After the global replace of "**" by the empty string no "**" is left, even where the input had
      three or more asterisks in a row. */
  lemma {:induction false} NoDoubleStarLeft(s: string)
    ensures !Contains(RemoveAll(s, "**"), "**")
    decreases |s|
  {
    var r := RemoveAll(s, "**");
    if |s| < 2 {
    } else if s[..2] == "**" {
      NoDoubleStarLeft(s[2..]);
    } else {
      var x := RemoveAll(s[1..], "**");
      NoDoubleStarLeft(s[1..]);
      assert r == [s[0]] + x;
      forall i | OccursAt(r, "**", i)
        ensures false
      {
        if i > 0 {
          OccursAfterHead(s[0], x, "**", i);
        }
      }
    }
  }

  /** The global replace of "**" by the empty string deletes asterisks only: every other character
      survives, in order. */
  lemma {:induction false} RemoveStarsKeepsText(s: string)
    ensures Drop(RemoveAll(s, "**"), '*') == Drop(s, '*')
    decreases |s|
  {
    if |s| < 2 {
    } else if s[..2] == "**" {
      RemoveStarsKeepsText(s[2..]);
      assert s[1..][1..] == s[2..];
    } else {
      RemoveStarsKeepsText(s[1..]);
      var x := RemoveAll(s[1..], "**");
      assert ([s[0]] + x)[1..] == x;
    }
  }
}
