/** `splitMeetingMinutesForSlack`: a body cut into thread messages, at line breaks or spaces where it can. */
module SlackSplit {
  import opened Options
  import opened Utf16

  const NEWLINE: Unit := 10
  const SPACE: Unit := 32
  const MIN_CHARS := 100
  const MAX_SAFE_INTEGER := 0x1f_ffff_ffff_ffff

  /** The last position before `end` at which `pattern` starts, or -1. */
  function LastIndexOf(s: Text, pattern: Text, end: nat): (at: int)
    requires pattern != [] && end <= |s|
    ensures -1 <= at < end
    ensures at >= 0 ==> pattern <= s[at..]
    ensures forall i :: at < i < end ==> !(pattern <= s[i..])
  {
    if end == 0 then -1
    else if pattern <= s[end - 1..] then end - 1
    else LastIndexOf(s, pattern, end - 1)
  }

  function Max(a: int, b: int): int {
    if a < b then b else a
  }

  /** Where the first message of an over-long text ends. */
  function Cut(text: Text, maxChars: nat): int
    requires |text| > maxChars
  {
    var window := text[..maxChars + 1];
    var blank := LastIndexOf(window, [NEWLINE, NEWLINE], |window|);
    var line := LastIndexOf(window, [NEWLINE], |window|);
    var boundary := Max(Max(blank, line), LastIndexOf(window, [SPACE], |window|));
    if boundary >= maxChars / 2 then boundary else maxChars
  }

  predicate IsBreak(u: Unit) {
    u == NEWLINE || u == SPACE
  }

  lemma StartsWithOne(s: Text, i: nat, u: Unit)
    requires i < |s|
    ensures [u] <= s[i..] <==> s[i] == u
  {
  }

  /**
   * The cut is at the last line break or space that fits, unless none lies in the second half of what fits;
   * then the text is cut in the middle of a word, at full length.
   */
  lemma CutIsLastBreak(text: Text, maxChars: nat)
    requires |text| > maxChars
    ensures maxChars / 2 <= Cut(text, maxChars) <= maxChars
    ensures forall i :: Cut(text, maxChars) < i <= maxChars ==> !IsBreak(text[i])
    ensures IsBreak(text[Cut(text, maxChars)])
         || (Cut(text, maxChars) == maxChars && forall i :: maxChars / 2 <= i <= maxChars ==> !IsBreak(text[i]))
  {
    var window := text[..maxChars + 1];
    forall i | 0 <= i <= maxChars
      ensures ([NEWLINE] <= window[i..] <==> text[i] == NEWLINE) && ([SPACE] <= window[i..] <==> text[i] == SPACE)
      ensures [NEWLINE, NEWLINE] <= window[i..] ==> text[i] == NEWLINE
    {
      StartsWithOne(window, i, NEWLINE);
      StartsWithOne(window, i, SPACE);
      assert [NEWLINE, NEWLINE] <= window[i..] ==> window[i..][0] == NEWLINE;
    }
  }

  function Chunks(text: Text, maxChars: nat): seq<Text>
    requires maxChars >= MIN_CHARS
    decreases |text|
  {
    if |text| <= maxChars then (if text == [] then [] else [text])
    else
      CutShortens(text, maxChars);
      var cut := Cut(text, maxChars);
      [Trim(text[..cut])] + Chunks(Trim(text[cut..]), maxChars)
  }

  lemma CutShortens(text: Text, maxChars: nat)
    requires |text| > maxChars >= MIN_CHARS
    ensures 0 < Cut(text, maxChars) <= |text| && |Trim(text[Cut(text, maxChars)..])| < |text|
  {
    CutIsLastBreak(text, maxChars);
  }

  /** The loop of the source, on a working copy of the trimmed body. */
  method Split(body: Text, maxChars: int) returns (result: Option<seq<Text>>)
    ensures result.None? <==> maxChars < MIN_CHARS || maxChars > MAX_SAFE_INTEGER
    ensures result.Some? ==> result.value == Chunks(Trim(body), maxChars)
  {
    if maxChars < MIN_CHARS || maxChars > MAX_SAFE_INTEGER { return None; }
    var chunks: seq<Text> := [];
    var remaining := Trim(body);
    while |remaining| > maxChars
      invariant chunks + Chunks(remaining, maxChars) == Chunks(Trim(body), maxChars)
      decreases |remaining|
    {
      CutShortens(remaining, maxChars);
      var cut := Cut(remaining, maxChars);
      chunks := chunks + [Trim(remaining[..cut])];
      remaining := Trim(remaining[cut..]);
    }
    if remaining != [] { chunks := chunks + [remaining]; }
    result := Some(chunks);
  }

  // ---- Nothing but white space is lost ----

  /** Where the text before a cut ends, and where the text after it goes on. */
  ghost function Before(text: Text, cut: nat): nat
    requires cut <= |text|
  {
    Stop(text[..cut], cut)
  }

  ghost function Behind(text: Text, cut: nat): nat
    requires cut <= |text|
  {
    cut + Lead(text[cut..], 0)
  }

  /** Cutting a trimmed text: what the pieces are, and that only white space lies between them. */
  lemma CutPieces(text: Text, cut: nat)
    requires 0 < cut < |text| && Trimmed(text)
    ensures 0 < Before(text, cut) <= cut <= Behind(text, cut) < |text|
    ensures Trim(text[..cut]) == text[..Before(text, cut)] && Trim(text[cut..]) == text[Behind(text, cut)..]
    ensures forall i :: Before(text, cut) <= i < Behind(text, cut) ==> IsSpace(text[i])
  {
    var head, tail := text[..cut], text[cut..];
    assert head[0] == text[0] && tail[|tail| - 1] == text[|text| - 1];
    TrimOfStarted(head);
    TrimOfEnded(tail);
    assert head[..Before(text, cut)] == text[..Before(text, cut)];
    assert tail[Lead(tail, 0)..] == text[Behind(text, cut)..];
    forall i | cut <= i < Behind(text, cut) ensures IsSpace(text[i]) {
      assert IsSpace(tail[i - cut]);
    }
    forall i | Before(text, cut) <= i < cut ensures IsSpace(text[i]) {
      assert IsSpace(head[i]);
    }
  }

  /** The white space dropped after each chunk. */
  ghost function Gaps(text: Text, maxChars: nat): (gaps: seq<Text>)
    requires maxChars >= MIN_CHARS
    decreases |text|
  {
    if |text| <= maxChars then (if text == [] then [] else [[]])
    else
      CutShortens(text, maxChars);
      var cut := Cut(text, maxChars);
      [text[Before(text, cut)..Behind(text, cut)]] + Gaps(Trim(text[cut..]), maxChars)
  }

  ghost function Weave(chunks: seq<Text>, gaps: seq<Text>): Text
    requires |chunks| == |gaps|
  {
    if chunks == [] then [] else chunks[0] + (gaps[0] + Weave(chunks[1..], gaps[1..]))
  }

  lemma InPieces(text: Text, i: nat, j: nat)
    requires i <= j <= |text|
    ensures text == text[..i] + (text[i..j] + text[j..])
  {
  }

  ghost predicate AllBlank(gaps: seq<Text>) {
    forall i :: 0 <= i < |gaps| ==> Blank(gaps[i])
  }

  ghost predicate Woven(text: Text, chunks: seq<Text>, gaps: seq<Text>) {
    && |gaps| == |chunks| && text == Weave(chunks, gaps) && AllBlank(gaps)
    && (gaps != [] ==> gaps[|gaps| - 1] == []) && (text != [] ==> chunks != [])
  }

  lemma WovenStep(text: Text, i: nat, j: nat, chunks: seq<Text>, gaps: seq<Text>)
    requires i <= j < |text| && Woven(text[j..], chunks, gaps) && Blank(text[i..j])
    ensures Woven(text, [text[..i]] + chunks, [text[i..j]] + gaps)
  {
    InPieces(text, i, j);
    var chunks', gaps' := [text[..i]] + chunks, [text[i..j]] + gaps;
    assert chunks'[1..] == chunks && gaps'[1..] == gaps;
    assert gaps'[|gaps'| - 1] == gaps[|gaps| - 1];
  }

  lemma ChunksUnfold(text: Text, maxChars: nat)
    requires |text| > maxChars >= MIN_CHARS && Trimmed(text)
    ensures var cut := Cut(text, maxChars);
      && 0 < cut < |text| && 0 < Before(text, cut) <= Behind(text, cut) < |text|
      && Blank(text[Before(text, cut)..Behind(text, cut)]) && Trimmed(text[Behind(text, cut)..])
      && Chunks(text, maxChars) == [text[..Before(text, cut)]] + Chunks(text[Behind(text, cut)..], maxChars)
      && Gaps(text, maxChars)
           == [text[Before(text, cut)..Behind(text, cut)]] + Gaps(text[Behind(text, cut)..], maxChars)
  {
    hide Cut, Trim, Before, Behind;
    CutShortens(text, maxChars);
    CutIsLastBreak(text, maxChars);
    CutPieces(text, Cut(text, maxChars));
  }

  /** The text is its chunks with white space between them, none after the last. */
  lemma {:induction false} ChunksLoseOnlySpace(text: Text, maxChars: nat)
    requires maxChars >= MIN_CHARS && Trimmed(text)
    ensures Woven(text, Chunks(text, maxChars), Gaps(text, maxChars))
    decreases |text|
  {
    if |text| > maxChars {
      hide Cut, Trimmed, Woven, Before, Behind, Chunks, Gaps, Blank;
      ChunksUnfold(text, maxChars);
      var i, j := Before(text, Cut(text, maxChars)), Behind(text, Cut(text, maxChars));
      ChunksLoseOnlySpace(text[j..], maxChars);
      WovenStep(text, i, j, Chunks(text[j..], maxChars), Gaps(text[j..], maxChars));
    } else if text != [] {
      assert Weave([text], [[]]) == text + ([] + Weave([], []));
    }
  }

  ghost predicate Fits(chunk: Text, maxChars: nat) {
    chunk != [] && Trimmed(chunk) && |chunk| <= maxChars
  }

  /** Every chunk is a message that can be posted: non-empty, without white space at its ends, not too long. */
  lemma {:induction false} ChunksFit(text: Text, maxChars: nat)
    requires maxChars >= MIN_CHARS && Trimmed(text)
    ensures forall chunk :: chunk in Chunks(text, maxChars) ==> Fits(chunk, maxChars)
    decreases |text|
  {
    if |text| > maxChars {
      hide Cut, Trim, Before, Behind;
      var cut := Cut(text, maxChars);
      CutShortens(text, maxChars);
      CutIsLastBreak(text, maxChars);
      CutPieces(text, cut);
      assert Fits(Trim(text[..cut]), maxChars);
      ChunksFit(Trim(text[cut..]), maxChars);
    }
  }

  /** What one round of the loop leaves. */
  ghost function Rest(text: Text, maxChars: nat): Text
    requires |text| > maxChars >= MIN_CHARS
  {
    CutShortens(text, maxChars);
    Trim(text[Cut(text, maxChars)..])
  }

  lemma RoundTakesHalf(text: Text, maxChars: nat)
    requires |text| > maxChars >= MIN_CHARS && Trimmed(text)
    ensures var rest := Rest(text, maxChars);
      && rest != [] && Trimmed(rest) && |rest| + maxChars / 2 <= |text|
      && |Chunks(text, maxChars)| == 1 + |Chunks(rest, maxChars)|
  {
    hide Cut, Trim, Before, Behind;
    CutShortens(text, maxChars);
    CutIsLastBreak(text, maxChars);
    CutPieces(text, Cut(text, maxChars));
  }

  /** `n` rounds of at least `half` each, added up. */
  ghost function Rounds(n: nat, half: nat): nat {
    if n == 0 then 0 else Rounds(n - 1, half) + half
  }

  lemma {:induction false} RoundsAreProduct(n: nat, half: nat)
    ensures Rounds(n, half) == n * half
  {
    if n > 0 { RoundsAreProduct(n - 1, half); }
  }

  lemma {:induction false} RoundsFit(text: Text, maxChars: nat)
    requires maxChars >= MIN_CHARS && Trimmed(text) && text != []
    ensures |Chunks(text, maxChars)| >= 1
    ensures Rounds(|Chunks(text, maxChars)| - 1, maxChars / 2) < |text|
    decreases |text|
  {
    hide Trimmed, Rest, Chunks, Rounds;
    if |text| > maxChars {
      RoundTakesHalf(text, maxChars);
      RoundsFit(Rest(text, maxChars), maxChars);
      NextRound(|Chunks(text, maxChars)| - 1, maxChars / 2);
    } else {
      ShortIsOneChunk(text, maxChars);
    }
  }

  lemma NextRound(n: nat, half: nat)
    requires n > 0
    ensures Rounds(n, half) == Rounds(n - 1, half) + half
  {
  }

  lemma ShortIsOneChunk(text: Text, maxChars: nat)
    requires MIN_CHARS <= maxChars && 0 < |text| <= maxChars
    ensures Chunks(text, maxChars) == [text] && Rounds(0, maxChars / 2) == 0
  {
  }

  /** Every chunk but the last takes at least half a message off the text. */
  lemma ChunkCount(text: Text, maxChars: nat)
    requires maxChars >= MIN_CHARS && Trimmed(text) && text != []
    ensures 1 <= |Chunks(text, maxChars)|
    ensures (|Chunks(text, maxChars)| - 1) * (maxChars / 2) < |text|
  {
    hide Chunks, Trimmed, Rounds;
    RoundsFit(text, maxChars);
    RoundsAreProduct(|Chunks(text, maxChars)| - 1, maxChars / 2);
  }
}
