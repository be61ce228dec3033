/**
 * The few `java.lang.String` operations the controllers rely on:
 * `trim`, `replaceAll` with a pattern free of regular-expression
 * metacharacters, and string concatenation of a possibly-null value.
 */
module JavaText {
  import opened Wrappers

  /** `trim` treats every char at or below U+0020 as blank. */
  predicate Blank(c: char) {
    c <= ' '
  }

  predicate BlankBetween(s: string, lo: int, hi: int)
    requires 0 <= lo <= hi <= |s|
  {
    forall i :: lo <= i < hi ==> Blank(s[i])
  }

  /** No leading and no trailing blank. */
  predicate Trimmed(s: string) {
    |s| == 0 || (!Blank(s[0]) && !Blank(s[|s| - 1]))
  }

  /** `s[a..b]` is what trimming keeps: everything outside it is blank, and it is trimmed itself. */
  predicate TrimBounds(s: string, a: int, b: int) {
    && 0 <= a <= b <= |s|
    && BlankBetween(s, 0, a)
    && BlankBetween(s, b, |s|)
    && Trimmed(s[a..b])
  }

  /** The first loop of `trim`: advance `st` over blanks. */
  function SkipLeading(s: string, st: nat): (r: nat)
    requires st <= |s|
    ensures st <= r <= |s|
    ensures BlankBetween(s, st, r)
    ensures r < |s| ==> !Blank(s[r])
    decreases |s| - st
  {
    if st < |s| && Blank(s[st]) then SkipLeading(s, st + 1) else st
  }

  /** The second loop of `trim`: pull `len` back over blanks, never below `st`. */
  function SkipTrailing(s: string, st: nat, len: nat): (r: nat)
    requires st <= len <= |s|
    ensures st <= r <= len
    ensures BlankBetween(s, r, len)
    ensures st < r ==> !Blank(s[r - 1])
    decreases len
  {
    if st < len && Blank(s[len - 1]) then SkipTrailing(s, st, len - 1) else len
  }

  /** `String.trim`. */
  function Trim(s: string): (r: string)
    ensures Trimmed(r)
    ensures exists a, b :: TrimBounds(s, a, b) && r == s[a..b]
  {
    var st := SkipLeading(s, 0);
    var len := SkipTrailing(s, st, |s|);
    assert TrimBounds(s, st, len);
    s[st..len]
  }

  /** There is only one way to cut a string into blank margins around a trimmed middle. */
  lemma TrimBoundsUnique(s: string, a: int, b: int, a': int, b': int)
    requires TrimBounds(s, a, b) && TrimBounds(s, a', b')
    ensures s[a..b] == s[a'..b']
  {
  }

  /** The cut `Trim` makes. */
  lemma TrimWitness(s: string) returns (a: int, b: int)
    ensures TrimBounds(s, a, b) && Trim(s) == s[a..b]
  {
    var r := Trim(s);
    a, b :| TrimBounds(s, a, b) && r == s[a..b];
  }

  /** Any blank-margin cut of `s` is exactly what `Trim` returns. */
  lemma TrimCharacterized(s: string, a: int, b: int)
    requires TrimBounds(s, a, b)
    ensures Trim(s) == s[a..b]
  {
    var a', b' := TrimWitness(s);
    TrimBoundsUnique(s, a, b, a', b');
  }

  /** `trim` leaves a string alone exactly when it has no outer blank. */
  lemma TrimFixedPoint(s: string)
    ensures Trim(s) == s <==> Trimmed(s)
  {
    if Trimmed(s) {
      assert s[0..|s|] == s;
      TrimCharacterized(s, 0, |s|);
    }
  }

  /** Blank padding on either side does not change what `trim` returns. */
  lemma TrimIgnoresPadding(pre: string, x: string, post: string)
    requires BlankBetween(pre, 0, |pre|) && BlankBetween(post, 0, |post|)
    ensures Trim(pre + x + post) == Trim(x)
  {
    var a, b := TrimWitness(x);
    PaddedBounds(pre, x, post, a, b);
  }

  /** The cut of `x` moved right by `|pre|` is the cut of the padded string. */
  lemma PaddedBounds(pre: string, x: string, post: string, a: int, b: int)
    requires BlankBetween(pre, 0, |pre|) && BlankBetween(post, 0, |post|)
    requires TrimBounds(x, a, b)
    ensures Trim(pre + x + post) == x[a..b]
  {
    var s := pre + x + post;
    PaddedSlice(pre, x, post, a, b);
    PaddedMargins(pre, x, post, a, b);
    assert TrimBounds(s, |pre| + a, |pre| + b);
    TrimCharacterized(s, |pre| + a, |pre| + b);
  }

  lemma PaddedSlice(pre: string, x: string, post: string, a: int, b: int)
    requires 0 <= a <= b <= |x|
    ensures (pre + x + post)[|pre| + a .. |pre| + b] == x[a..b]
  {
    var s := pre + x + post;
    assert forall i | |pre| <= i < |pre| + |x| :: s[i] == x[i - |pre|];
  }

  lemma PaddedMargins(pre: string, x: string, post: string, a: int, b: int)
    requires BlankBetween(pre, 0, |pre|) && BlankBetween(post, 0, |post|)
    requires TrimBounds(x, a, b)
    ensures BlankBetween(pre + x + post, 0, |pre| + a)
    ensures BlankBetween(pre + x + post, |pre| + b, |pre + x + post|)
  {
    var s := pre + x + post;
    assert forall i | |pre| <= i < |pre| + |x| :: s[i] == x[i - |pre|];
    assert forall i | |pre| + |x| <= i < |s| :: s[i] == post[i - |pre| - |x|];
  }

  /** `p` occurs in `s` starting at index `i`. */
  predicate OccursAt(s: string, p: string, i: int) {
    0 <= i && i + |p| <= |s| && s[i..i + |p|] == p
  }

  predicate Contains(s: string, p: string) {
    exists i | 0 <= i <= |s| :: OccursAt(s, p, i)
  }

  /**
   * `s.replaceAll(p, "")` for a pattern `p` without regular-expression
   * metacharacters: the matcher scans left to right, deletes the leftmost
   * occurrence and resumes right after it.
   */
  function RemoveAll(s: string, p: string): (r: string)
    requires |p| > 0
    ensures |r| <= |s|
    ensures !Contains(s, p) ==> r == s
    ensures Contains(s, p) ==> |r| < |s|
    decreases |s|
  {
    if |s| < |p| then s
    else if s[..|p|] == p then
      assert OccursAt(s, p, 0);
      RemoveAll(s[|p|..], p)
    else
      ShiftAbsence(s, p);
      ShiftPresence(s, p);
      [s[0]] + RemoveAll(s[1..], p)
  }

  /** An occurrence that does not start at the front lies in the suffix. */
  lemma ShiftPresence(s: string, p: string)
    requires |s| > 0
    ensures Contains(s, p) && !OccursAt(s, p, 0) ==> Contains(s[1..], p)
  {
    if i :| 0 <= i <= |s| && OccursAt(s, p, i) {
      if i > 0 {
        SliceOfSlice(s, 1, |s|, i - 1, i - 1 + |p|);
        assert s[1..|s|] == s[1..];
        assert OccursAt(s[1..], p, i - 1);
      }
    }
  }

  /**
   * `replaceAll` deletes the leftmost occurrence: when no match of `p`
   * starts inside `x`, the `p` that follows it is removed and the scan
   * resumes on `y`.
   */
  lemma RemoveLeftmost(x: string, p: string, y: string)
    requires |p| > 0
    requires forall i :: 0 <= i < |x| ==> !OccursAt(x + p + y, p, i)
    ensures RemoveAll(x + p + y, p) == x + RemoveAll(y, p)
  {
    CutAfter(x, p + y);
    assert x + p + y == x + (p + y);
    RemoveAllPastPrefix(x + (p + y), |x|, p);
    RemoveAllFront(p, y);
  }

  lemma CutAfter(x: string, z: string)
    ensures (x + z)[..|x|] == x && (x + z)[|x|..] == z
  {
  }

  /** A match at the front is deleted and the scan resumes right after it. */
  lemma RemoveAllFront(p: string, y: string)
    requires |p| > 0
    ensures RemoveAll(p + y, p) == RemoveAll(y, p)
  {
    assert (p + y)[..|p|] == p && (p + y)[|p|..] == y;
  }

  /** An occurrence in a suffix is an occurrence in the whole. */
  lemma ShiftAbsence(s: string, p: string)
    requires |s| > 0
    ensures !Contains(s, p) ==> !Contains(s[1..], p)
  {
    SliceKeepsAbsence(s, 1, |s|, p);
    assert s[1..|s|] == s[1..];
  }

  /** A piece cut out of a string cannot contain what the string does not. */
  lemma SliceKeepsAbsence(s: string, a: int, b: int, p: string)
    requires 0 <= a <= b <= |s|
    ensures !Contains(s, p) ==> !Contains(s[a..b], p)
  {
    if i :| 0 <= i <= b - a && OccursAt(s[a..b], p, i) {
      SliceOfSlice(s, a, b, i, i + |p|);
      assert OccursAt(s, p, a + i);
    }
  }

  /** Trimming cannot create what the string did not contain. */
  lemma TrimKeepsAbsence(s: string, p: string)
    ensures !Contains(s, p) ==> !Contains(Trim(s), p)
  {
    var a, b := TrimWitness(s);
    SliceKeepsAbsence(s, a, b, p);
  }

  lemma SliceOfSlice(s: string, a: int, b: int, i: int, j: int)
    requires 0 <= a <= b <= |s| && 0 <= i <= j <= b - a
    ensures s[a..b][i..j] == s[a + i .. a + j]
  {
    assert forall k | 0 <= k < j - i :: s[a..b][i..j][k] == s[a + i + k];
  }

  /**
   * When no occurrence of `p` starts before index `k`, the scan copies
   * `s[..k]` unchanged and carries on from `k`.
   */
  lemma {:induction false} RemoveAllPastPrefix(s: string, k: nat, p: string)
    requires |p| > 0 && k <= |s|
    requires forall i :: 0 <= i < k ==> !OccursAt(s, p, i)
    ensures RemoveAll(s, p) == s[..k] + RemoveAll(s[k..], p)
    decreases k
  {
    if k == 0 {
      assert s[k..] == s;
    } else if |s| < |p| {
      assert s[..k] + s[k..] == s;
    } else {
      assert !OccursAt(s, p, 0);
      NoOccurrenceAfterShift(s, k, p);
      RemoveAllPastPrefix(s[1..], k - 1, p);
      PastPrefixStep(s, k, p);
    }
  }

  /** One step of the scan: a character that starts no match is kept, and the rest is scanned. */
  lemma PastPrefixStep(s: string, k: nat, p: string)
    requires |p| > 0 && 0 < k <= |s| && |s| >= |p| && !OccursAt(s, p, 0)
    requires RemoveAll(s[1..], p) == s[1..][..k - 1] + RemoveAll(s[1..][k - 1..], p)
    ensures RemoveAll(s, p) == s[..k] + RemoveAll(s[k..], p)
  {
    assert s[..|p|] != p;
    assert RemoveAll(s, p) == [s[0]] + RemoveAll(s[1..], p);
    assert s[1..][k - 1..] == s[k..];
    assert [s[0]] + s[1..][..k - 1] == s[..k];
    ConsAppend(s[0], s[1..][..k - 1], RemoveAll(s[k..], p));
  }

  lemma ConsAppend(c: char, a: string, b: string)
    ensures [c] + (a + b) == [c] + a + b
  {
  }

  /** Dropping the first character shifts every occurrence one place to the left. */
  lemma NoOccurrenceAfterShift(s: string, k: nat, p: string)
    requires 0 < k <= |s|
    requires forall i :: 0 <= i < k ==> !OccursAt(s, p, i)
    ensures forall i :: 0 <= i < k - 1 ==> !OccursAt(s[1..], p, i)
  {
    forall i | 0 <= i < k - 1
      ensures !OccursAt(s[1..], p, i)
    {
      assert !OccursAt(s, p, i + 1);
      if i + |p| <= |s| - 1 {
        SliceOfSlice(s, 1, |s|, i, i + |p|);
        assert s[1..|s|] == s[1..];
      }
    }
  }

  /** Java's `"..." + v` where `v` may be `null`: a null reference prints as "null". */
  function Show(v: Option<string>): string {
    match v
    case Some(s) => s
    case None => "null"
  }
}
