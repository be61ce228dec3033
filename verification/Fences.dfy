/**
 * The clean-up `generateSkills` applies to the model's reply before parsing
 * it: delete every "```json", then every "```", then `trim`.
 */
module Fences {
  import opened JavaText

  const Fence: string := "```"
  const JsonFence: string := "```json"

  /** Two backticks in a row at the front: one more in front of them makes a fence. */
  predicate StartsWithTwoTicks(s: string) {
    |s| >= 2 && s[0] == '`' && s[1] == '`'
  }

  /** The stripped reply: it holds no fence and has no outer blank. */
  function StripFences(content: string): (r: string)
    ensures !Contains(r, Fence)
    ensures Trimmed(r)
  {
    var unfenced := RemoveAll(RemoveAll(content, JsonFence), Fence);
    NoFenceSurvives(RemoveAll(content, JsonFence));
    TrimKeepsAbsence(unfenced, Fence);
    Trim(unfenced)
  }

  /** If the scan keeps the first char and it is not a backtick, the result starts with it. */
  lemma KeepsFirst(t: string)
    requires |t| > 0 && t[0] != '`'
    ensures |RemoveAll(t, Fence)| > 0 && RemoveAll(t, Fence)[0] == t[0]
  {
    if |t| >= |Fence| {
      assert t[..|Fence|] != Fence;
    }
  }

  /** Putting one char in front of a fence-free string creates a fence only with two backticks behind it. */
  lemma ConsKeepsAbsence(c: char, r: string)
    requires !Contains(r, Fence)
    requires c == '`' ==> !StartsWithTwoTicks(r)
    ensures !Contains([c] + r, Fence)
  {
    var s := [c] + r;
    forall i | 0 <= i <= |s|
      ensures !OccursAt(s, Fence, i)
    {
      if i == 0 && |s| >= 3 {
        assert s[0..3][0] == c && s[0..3][1] == r[0] && s[0..3][2] == r[1];
      } else if 0 < i && i + 3 <= |s| {
        assert s[i .. i + 3] == r[i - 1 .. i + 2];
        assert !OccursAt(r, Fence, i - 1);
      }
    }
  }

  /**
   * Deleting every "```" left to right leaves none behind: a run of backticks
   * keeps fewer than three, and two runs never meet across a deletion.
   */
  lemma {:induction false} NoFenceSurvives(s: string)
    ensures !Contains(RemoveAll(s, Fence), Fence)
    decreases |s|
  {
    if |s| < |Fence| {
      assert RemoveAll(s, Fence) == s;
    } else if s[..|Fence|] == Fence {
      NoFenceSurvives(s[|Fence|..]);
    } else {
      var rest := RemoveAll(s[1..], Fence);
      NoFenceSurvives(s[1..]);
      if s[0] == '`' {
        if s[1] != '`' {
          KeepsFirst(s[1..]);
        } else {
          assert s[2] != '`';
          var t := s[1..];
          if |t| < |Fence| {
            assert rest == t;
          } else {
            assert t[..|Fence|] != Fence;
            KeepsFirst(t[1..]);
          }
        }
      }
      ConsKeepsAbsence(s[0], rest);
    }
  }

  /** Every "```json" begins with "```". */
  lemma JsonFenceNeedsFence(s: string)
    ensures Contains(s, JsonFence) ==> Contains(s, Fence)
  {
    if i :| 0 <= i <= |s| && OccursAt(s, JsonFence, i) {
      assert s[i .. i + 3] == s[i .. i + 7][..3];
      assert OccursAt(s, Fence, i);
    }
  }

  /** The strings stripping leaves alone are exactly those with no fence and no outer blank. */
  lemma StripFixedPoint(s: string)
    ensures StripFences(s) == s <==> !Contains(s, Fence) && Trimmed(s)
  {
    if !Contains(s, Fence) && Trimmed(s) {
      JsonFenceNeedsFence(s);
      TrimFixedPoint(s);
    }
  }

  /** Stripping twice is stripping once. */
  lemma StripIdempotent(s: string)
    ensures StripFences(StripFences(s)) == StripFences(s)
  {
    StripFixedPoint(StripFences(s));
  }

  /**
   * The usual shape of a fenced reply: an opening "```json" line, the JSON,
   * a closing "```" line. Stripping yields the trimmed JSON.
   */
  lemma StripFencedBlock(x: string)
    requires !Contains(x, Fence)
    ensures StripFences(JsonFence + "\n" + x + "\n" + Fence) == Trim(x)
  {
    OpeningFenceRemoved(x);
    ClosingFenceRemoved(x);
    TrimIgnoresPadding("\n", x, "\n");
  }

  /** The first pass deletes the opening "```json" and nothing else. */
  lemma OpeningFenceRemoved(x: string)
    requires !Contains(x, Fence)
    ensures RemoveAll(JsonFence + "\n" + x + "\n" + Fence, JsonFence) == "\n" + x + "\n" + Fence
  {
    var s := JsonFence + "\n" + x + "\n" + Fence;
    var body := "\n" + x + "\n" + Fence;
    assert s == JsonFence + body;
    assert s[..|JsonFence|] == JsonFence;
    assert s[|JsonFence|..] == body;
    JsonFenceAbsent(x);
  }

  /** The second pass deletes the closing "```" and nothing else. */
  lemma ClosingFenceRemoved(x: string)
    requires !Contains(x, Fence)
    ensures RemoveAll("\n" + x + "\n" + Fence, Fence) == "\n" + x + "\n"
  {
    var body := "\n" + x + "\n" + Fence;
    var kept := "\n" + x + "\n";
    assert body == kept + Fence;
    forall i | 0 <= i < |kept|
      ensures !OccursAt(body, Fence, i)
    {
      NoFenceBeforeClosing(x, i);
    }
    assert kept + Fence + "" == body;
    RemoveLeftmost(kept, Fence, "");
    assert kept + RemoveAll("", Fence) == kept;
  }

  /** No fence starts inside "\n" + x + "\n" when x holds none. */
  lemma NoFenceBeforeClosing(x: string, i: int)
    requires !Contains(x, Fence) && 0 <= i < |x| + 2
    ensures !OccursAt("\n" + x + "\n" + Fence, Fence, i)
  {
    var body := "\n" + x + "\n" + Fence;
    assert body[0] == '\n' && body[|x| + 1] == '\n';
    if i + 3 <= |body| {
      if i == 0 {
        assert body[0..3][0] == '\n';
      } else if i + 3 <= |x| + 1 {
        assert forall j | 1 <= j <= |x| :: body[j] == x[j - 1];
        assert body[i .. i + 3] == x[i - 1 .. i + 2];
        assert !OccursAt(x, Fence, i - 1);
      } else {
        assert body[i .. i + 3][|x| + 1 - i] == '\n';
      }
    }
  }

  /** "\n" + x + "\n```" holds no "```json" when x holds no "```". */
  lemma JsonFenceAbsent(x: string)
    requires !Contains(x, Fence)
    ensures !Contains("\n" + x + "\n" + Fence, JsonFence)
  {
    var body := "\n" + x + "\n" + Fence;
    if i :| 0 <= i <= |body| && OccursAt(body, JsonFence, i) {
      assert body[i .. i + 7][..3] == Fence;
      assert body[i] == '`';
      assert i != 0;
      assert body[i .. i + 3] == x[i - 1 .. i + 2];
      assert OccursAt(x, Fence, i - 1);
      assert false;
    }
  }

  /** A fenced empty array strips to the bare array, although the reply holds fences. */
  lemma StripFencedEmptyArray()
    ensures StripFences(JsonFence + "\n[]\n" + Fence) == "[]"
    ensures Contains(JsonFence + "\n[]\n" + Fence, Fence)
  {
    assert !OccursAt("[]", Fence, 0);
    StripFencedBlock("[]");
    TrimFixedPoint("[]");
    assert JsonFence + "\n" + "[]" + "\n" + Fence == JsonFence + "\n[]\n" + Fence;
    assert OccursAt(JsonFence + "\n[]\n" + Fence, Fence, 0);
  }
}
