/** `extractJSONFromString`: locating the JSON payload inside a model's free-text reply.

    The source tries the regular expression /```(?:json)?\s*([\s\S]*?)\s*```/ first.
    Working through its backtracking, it matches exactly when the first triple backtick
    (at `o`) is followed by another one at `o + 3` or later; the capture is then the text
    between the opening fence (plus a `json` tag only if that tag follows immediately)
    and the first closing fence, with whitespace stripped from both ends. Failing that,
    it slices from the first `{` to the last `}`; failing that, it returns the input. */
module Extract {
  import opened Wrappers
  import opened Text

  const Fence: string := "```"
  const JsonTag: string := "json"

  /** The text holds two non-overlapping fences, which is when the regex matches. */
  predicate HasFence(s: string) {
    exists i, j :: 0 <= i && i + 3 <= j < |s| && OccursAt(s, Fence, i) && OccursAt(s, Fence, j)
  }

  /** Some `{` comes before some `}`. */
  predicate HasBraceSpan(s: string) {
    exists i, j :: 0 <= i < j < |s| && s[i] == '{' && s[j] == '}'
  }

  /** The brace branch's test, first `{` before last `}`, is exactly HasBraceSpan. */
  lemma BraceSpanIff(s: string)
    ensures HasBraceSpan(s) <==> ('{' in s && '}' in s && IndexOf(s, '{').value < LastIndexOf(s, '}').value)
  {
    if HasBraceSpan(s) {
      var i, j :| 0 <= i < j < |s| && s[i] == '{' && s[j] == '}';
    }
  }

  /** Where the captured text may begin: `(?:json)?` consumes a tag that immediately
      follows the opening fence; the fence ends at `afterFence`. */
  function ContentStart(s: string, afterFence: nat): nat {
    if OccursAt(s, JsonTag, afterFence) then afterFence + |JsonTag| else afterFence
  }

  /** The opening fence and the closing fence the regex pairs with it. */
  function FencePair(s: string): (r: Option<(nat, nat)>)
    ensures r.Some? ==> IsFirstOccurrence(s, Fence, 0, r.value.0)
    ensures r.Some? ==> IsFirstOccurrence(s, Fence, r.value.0 + 3, r.value.1)
    ensures r.Some? <==> HasFence(s)
  {
    match FindFrom(s, Fence, 0)
    case None => None
    case Some(o) =>
      match FindFrom(s, Fence, o + 3)
      case None =>
        assert !HasFence(s) by {
          forall i, j | i + 3 <= j && OccursAt(s, Fence, i) ensures !OccursAt(s, Fence, j) { }
        }
        None
      case Some(c) => Some((o, c))
  }

  /** A `json` tag holds no backtick, so the closing fence cannot start inside it. */
  lemma TagBeforeClose(s: string, o: nat, c: nat)
    requires IsFirstOccurrence(s, Fence, o + 3, c)
    ensures ContentStart(s, o + 3) <= c
  {
    if OccursAt(s, JsonTag, o + 3) {
      forall k | o + 3 <= k < o + 7 ensures !OccursAt(s, Fence, k) {
        assert s[o + 3..o + 7][k - (o + 3)] == s[k];
        OccursAtHead(s, Fence, k);
      }
    }
  }

  /** A stretch without backticks holds no fence. */
  lemma NoFenceWithoutBacktick(s: string, lo: nat, hi: nat)
    requires hi <= |s|
    requires forall k :: lo <= k < hi ==> s[k] != '`'
    ensures forall k :: lo <= k < hi ==> !OccursAt(s, Fence, k)
  {
    forall k | lo <= k < hi ensures !OccursAt(s, Fence, k) {
      OccursAtHead(s, Fence, k);
    }
  }

  /** `extractJSONFromString`: fenced block first, then the brace slice, else the input. */
  function ExtractJson(s: string): (r: string)
    ensures |r| <= |s|
    ensures HasFence(s) ==> IsTrimmed(r)
    ensures !HasFence(s) && HasBraceSpan(s) ==> |r| >= 2 && r[0] == '{' && r[|r| - 1] == '}'
    ensures !HasFence(s) && !HasBraceSpan(s) ==> r == s
  {
    BraceSpanIff(s);
    match FencePair(s)
    case Some((o, c)) =>
      TagBeforeClose(s, o, c);
      Trim(s[ContentStart(s, o + 3)..c])
    case None =>
      var first := IndexOf(s, '{');
      var last := LastIndexOf(s, '}');
      if first.Some? && last.Some? && last.value > first.value then
        s[first.value..last.value + 1]
      else
        s
  }

  /** Fence precedence: whenever a fenced block exists, the result is the trimmed text
      of the first one, whatever braces the rest of the reply holds. */
  lemma FencePrecedence(s: string, o: nat, c: nat)
    requires IsFirstOccurrence(s, Fence, 0, o)
    requires IsFirstOccurrence(s, Fence, o + 3, c)
    ensures ContentStart(s, o + 3) <= c
    ensures ExtractJson(s) == Trim(s[ContentStart(s, o + 3)..c])
    ensures IsTrimmed(ExtractJson(s))
  {
    TagBeforeClose(s, o, c);
    var p := FencePair(s);
    assert HasFence(s);
    assert p.value.0 == o;
    assert p.value.1 == c;
  }

  /** A fenced block whose opening fence is the first backtick of `s`, at `o`, and
      whose body holds no backtick: the result is that body, less a leading `json` tag,
      trimmed. */
  lemma FencedBlockAt(s: string, o: nat, body: string)
    requires o + 6 + |body| <= |s|
    requires s[o..o + 3] == Fence && s[o + 3..o + 3 + |body|] == body
    requires s[o + 3 + |body|..o + 6 + |body|] == Fence
    requires forall k :: 0 <= k < o ==> s[k] != '`'
    requires forall k :: 0 <= k < |body| ==> body[k] != '`'
    ensures ExtractJson(s) == Trim(if StartsWith(body, JsonTag) then body[|JsonTag|..] else body)
  {
    var c := o + 3 + |body|;
    assert forall k :: o + 3 <= k < c ==> s[k] != '`' by {
      forall k | o + 3 <= k < c ensures s[k] != '`' { assert s[o + 3..c][k - o - 3] == s[k]; }
    }
    NoFenceWithoutBacktick(s, 0, o);
    NoFenceWithoutBacktick(s, o + 3, c);
    FencePrecedence(s, o, c);
    OccursAtHead(s, Fence, c);
    ContentIsBody(s, o, body);
    var inner := if StartsWith(body, JsonTag) then body[|JsonTag|..] else body;
    var captured := s[ContentStart(s, o + 3)..c];
    assert captured == inner;
    assert ExtractJson(s) == Trim(captured);
  }

  /** The captured range of a fenced block is its body, less a leading `json` tag. */
  lemma ContentIsBody(s: string, o: nat, body: string)
    requires o + 6 + |body| <= |s|
    requires s[o + 3..o + 3 + |body|] == body
    requires s[o + 3 + |body|] == '`'
    ensures o + 3 <= ContentStart(s, o + 3) <= o + 3 + |body|
    ensures s[ContentStart(s, o + 3)..o + 3 + |body|]
            == if StartsWith(body, JsonTag) then body[|JsonTag|..] else body
  {
    var c := o + 3 + |body|;
    if StartsWith(body, JsonTag) {
      assert s[o + 3..o + 7] == body[..4];
      assert s[o + 7..c] == body[4..];
    } else if o + 7 <= c {
      assert s[o + 3..o + 7] == body[..4];
    } else {
      assert o + 7 <= |s| ==> s[o + 3..o + 7][c - o - 3] == s[c];
    }
  }

  /** A fenced block embedded in backtick-free prose: the result is the block's body,
      less a leading `json` tag, trimmed; the prose before and anything after the block
      (braces included) play no part. */
  lemma FencedBlockInProse(prose: string, body: string, rest: string)
    requires '`' !in prose && '`' !in body
    ensures ExtractJson(prose + Fence + body + Fence + rest)
            == Trim(if StartsWith(body, JsonTag) then body[|JsonTag|..] else body)
  {
    var s := prose + Fence + body + Fence + rest;
    var o := |prose|;
    assert s[..o] == prose;
    assert s[o..o + 3] == Fence;
    assert s[o + 3..o + 3 + |body|] == body;
    assert s[o + 3 + |body|..o + 6 + |body|] == Fence;
    assert forall k :: 0 <= k < o ==> s[k] != '`' by {
      forall k | 0 <= k < o ensures s[k] != '`' { assert s[..o][k] == s[k]; }
    }
    FencedBlockAt(s, o, body);
  }

  /** Without a fence, a `{` followed somewhere later by a `}` yields the contiguous
      slice from the first `{` through the last `}`. */
  lemma BraceSlice(s: string, i: nat, j: nat)
    requires !HasFence(s)
    requires i < j < |s| && s[i] == '{' && s[j] == '}'
    requires forall k :: 0 <= k < i ==> s[k] != '{'
    requires forall k :: j < k < |s| ==> s[k] != '}'
    ensures ExtractJson(s) == s[i..j + 1]
  {
    assert HasBraceSpan(s);
  }

  /** Without a fence, when no `}` follows any `{`, the reply is passed on unchanged. */
  lemma NoBraceSpanIsIdentity(s: string)
    requires !HasFence(s)
    requires forall i, j :: 0 <= i < |s| && 0 <= j < |s| && s[i] == '{' && s[j] == '}' ==> j < i
    ensures ExtractJson(s) == s
  {
  }
}
