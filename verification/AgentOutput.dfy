/** `parseAutonomyAgentOutput`: the first JSON object in the agent's text that is a well-formed answer. */
module AgentOutput {
  import opened Options
  import opened Utf16
  import opened BraceScanner
  import opened JsonText

  const MAX_OUTPUT_CHARS := 12_000

  datatype Decision = NoAction | TaskWritten | EscalationRequired

  datatype Evidence = Evidence(kind: Text, id: Text)

  datatype Output = Output(decision: Decision, summary: Text, evidence: seq<Evidence>)

  /** JSON parsing with all checks of the answer's fields; nothing if either fails. */
  type Decode = Text -> Option<Output>

  function RemoveNul(raw: Text): Text {
    if raw == [] then []
    else if raw[0] == 0 then RemoveNul(raw[1..])
    else [raw[0]] + RemoveNul(raw[1..])
  }

  function Take(t: Text, limit: nat): Text {
    if |t| <= limit then t else t[..limit]
  }

  function Normalize(raw: Text): Text {
    Take(Trim(RemoveNul(raw)), MAX_OUTPUT_CHARS)
  }

  function Candidates(raw: Text): seq<Text> {
    [Normalize(raw)] + Slices(Normalize(raw), 0)
  }

  function FirstAnswer(candidates: seq<Text>, decode: Decode): Option<Output> {
    if candidates == [] then None
    else if decode(candidates[0]).Some? then decode(candidates[0])
    else FirstAnswer(candidates[1..], decode)
  }

  /** The candidate at `i` is an answer, and none before it is. */
  ghost predicate IsFirst(candidates: seq<Text>, decode: Decode, i: nat) {
    && i < |candidates| && decode(candidates[i]).Some?
    && forall k :: 0 <= k < i ==> decode(candidates[k]).None?
  }

  lemma LaterIsFirst(candidates: seq<Text>, decode: Decode, i: nat)
    requires candidates != [] && decode(candidates[0]).None? && IsFirst(candidates[1..], decode, i)
    ensures IsFirst(candidates, decode, i + 1) && candidates[i + 1] == candidates[1..][i]
  {
    forall k | 0 <= k < i + 1 ensures decode(candidates[k]).None? {
      assert k > 0 ==> candidates[k] == candidates[1..][k - 1];
    }
  }

  lemma {:induction false} SkipRejected(candidates: seq<Text>, decode: Decode, n: nat)
    requires n <= |candidates| && forall k :: 0 <= k < n ==> decode(candidates[k]).None?
    ensures FirstAnswer(candidates, decode) == FirstAnswer(candidates[n..], decode)
  {
    if n > 0 {
      SkipRejected(candidates, decode, n - 1);
      assert candidates[n - 1..][1..] == candidates[n..];
    } else {
      assert candidates[0..] == candidates;
    }
  }

  /** There is no answer exactly if no candidate holds one; an answer is that of the first that does. */
  lemma {:induction false} FirstAnswerIsFirst(candidates: seq<Text>, decode: Decode)
    ensures FirstAnswer(candidates, decode).None? <==> forall c :: c in candidates ==> decode(c).None?
    ensures FirstAnswer(candidates, decode).Some? ==>
      exists i: nat :: IsFirst(candidates, decode, i) && FirstAnswer(candidates, decode) == decode(candidates[i])
  {
    if candidates == [] {
    } else if decode(candidates[0]).Some? {
      assert IsFirst(candidates, decode, 0);
    } else {
      FirstAnswerIsFirst(candidates[1..], decode);
      assert candidates == [candidates[0]] + candidates[1..];
      var tail := candidates[1..];
      if i: nat :| IsFirst(tail, decode, i) && FirstAnswer(tail, decode) == decode(tail[i]) {
        LaterIsFirst(candidates, decode, i);
      }
    }
  }

  /** The answer in the first candidate that holds one. */
  method ParseAgentOutput(raw: Text, decode: Decode) returns (output: Option<Output>)
    ensures output == FirstAnswer(Candidates(raw), decode)
  {
    hide FirstAnswer;
    var normalized := Normalize(raw);
    var objects := BalancedObjects(normalized);
    var candidates := [normalized] + objects;
    for i := 0 to |candidates|
      invariant forall k :: 0 <= k < i ==> decode(candidates[k]).None?
    {
      output := decode(candidates[i]);
      if output.Some? {
        AnswerIs(candidates, decode, i);
        return;
      }
    }
    FirstAnswerIsFirst(candidates, decode);
    output := None;
  }

  lemma AnswerIs(candidates: seq<Text>, decode: Decode, i: nat)
    requires IsFirst(candidates, decode, i)
    ensures FirstAnswer(candidates, decode) == decode(candidates[i])
  {
    SkipRejected(candidates, decode, i);
    assert candidates[i..][0] == candidates[i];
  }

  // ---- What the source relies on from JSON parsing ----

  /** Only the text of one JSON object, with white space around it, is an answer; the white space is immaterial. */
  ghost predicate DecodesObjects(decode: Decode) {
    forall t :: decode(t).Some? ==> HoldsObject(t, decode)
  }

  ghost predicate HoldsObject(t: Text, decode: Decode) {
    exists before, obj, after :: IsObjectText(t, before, obj, after) && decode(t) == decode(JsonString(obj))
  }

  ghost predicate IsObjectText(t: Text, before: Text, obj: Json, after: Text) {
    && obj.Object? && JsonOk(obj) && Ws(before) && Ws(after)
    && t == before + (JsonString(obj) + after)
  }

  // ---- Wrapped answers are recovered ----

  lemma SliceAtFirstBrace(prefix: Text, obj: Json, suffix: Text)
    requires OPEN !in prefix && obj.Object? && JsonOk(obj)
    ensures var text := prefix + (JsonString(obj) + suffix);
      Slices(text, 0) != [] && Slices(text, 0)[0] == JsonString(obj)
  {
    var text := prefix + (JsonString(obj) + suffix);
    EmbeddedObjectIsFound(prefix, obj, suffix);
    assert forall i :: 0 <= i < |prefix| ==> text[i] == prefix[i];
    SlicesSkip(text, 0, |prefix|);
  }

  /** If the whole text is itself accepted, it is because of the same object. */
  lemma WholeTextIsSameObject(prefix: Text, obj: Json, suffix: Text, before: Text, obj': Json, after: Text)
    requires OPEN !in prefix && obj.Object? && JsonOk(obj)
    requires IsObjectText(prefix + (JsonString(obj) + suffix), before, obj', after)
    ensures JsonString(obj') == JsonString(obj)
  {
    var text := prefix + (JsonString(obj) + suffix);
    assert OPEN !in before;
    SliceAtFirstBrace(prefix, obj, suffix);
    SliceAtFirstBrace(before, obj', after);
  }

  /** On normalised text: if the whole of it is an answer, it is the answer of its first object. */
  lemma FirstObjectDecides(prefix: Text, obj: Json, suffix: Text, decode: Decode)
    requires OPEN !in prefix && obj.Object? && JsonOk(obj) && DecodesObjects(decode)
    requires decode(prefix + (JsonString(obj) + suffix)).Some?
    ensures decode(prefix + (JsonString(obj) + suffix)) == decode(JsonString(obj))
  {
    hide IsObjectText, JsonOk, JsonString;
    var text := prefix + (JsonString(obj) + suffix);
    assert HoldsObject(text, decode);
    var before, obj', after :| IsObjectText(text, before, obj', after) && decode(text) == decode(JsonString(obj'));
    WholeTextIsSameObject(prefix, obj, suffix, before, obj', after);
  }

  // ---- Normalising keeps an embedded object ----

  lemma {:induction false} RemoveNulConcat(a: Text, b: Text)
    ensures RemoveNul(a + b) == RemoveNul(a) + RemoveNul(b)
  {
    if a == [] {
      assert a + b == b;
    } else {
      assert (a + b)[1..] == a[1..] + b;
      RemoveNulConcat(a[1..], b);
    }
  }

  lemma {:induction false} RemoveNulKeeps(t: Text)
    requires 0 !in t
    ensures RemoveNul(t) == t
  {
    if t != [] {
      RemoveNulKeeps(t[1..]);
      assert t == [t[0]] + t[1..];
    }
  }

  lemma {:induction false} RemoveNulAddsNothing(t: Text, u: Unit)
    requires u !in t
    ensures u !in RemoveNul(t)
  {
    if t != [] { RemoveNulAddsNothing(t[1..], u); }
  }

  lemma TrimStartOfConcat(prefix: Text, body: Text)
    requires body != [] && !IsSpace(body[0])
    ensures TrimStart(prefix + body) == TrimStart(prefix) + body
  {
    var n := Lead(prefix, 0);
    assert (prefix + body)[..n] == prefix[..n];
    LeadIs(prefix + body, n);
  }

  lemma TrimEndOfConcat(body: Text, suffix: Text)
    requires body != [] && !IsSpace(body[|body| - 1])
    ensures TrimEnd(body + suffix) == body + TrimEnd(suffix)
  {
    var n := Stop(suffix, |suffix|);
    assert (body + suffix)[|body| + n..] == suffix[n..];
    StopIs(body + suffix, |body| + n);
    assert (body + suffix)[..|body| + n] == body + suffix[..n];
  }

  lemma TakeOfConcat(a: Text, b: Text, limit: nat)
    requires |a| <= limit
    ensures Take(a + b, limit) == a + Take(b, limit - |a|)
  {
  }

  lemma Associative(a: Text, b: Text, c: Text)
    ensures (a + b) + c == a + (b + c)
  {
  }

  /** What remains of the text around a body that is neither cut nor trimmed. */
  function Remains(prefix: Text, body: Text, suffix: Text): Text
    requires |TrimStart(RemoveNul(prefix))| + |body| <= MAX_OUTPUT_CHARS
  {
    Take(TrimEnd(RemoveNul(suffix)), MAX_OUTPUT_CHARS - (|TrimStart(RemoveNul(prefix))| + |body|))
  }

  lemma NormalizeKeeps(prefix: Text, body: Text, suffix: Text)
    requires body != [] && 0 !in body && !IsSpace(body[0]) && !IsSpace(body[|body| - 1])
    requires |TrimStart(RemoveNul(prefix))| + |body| <= MAX_OUTPUT_CHARS
    ensures Normalize(prefix + (body + suffix)) == TrimStart(RemoveNul(prefix)) + (body + Remains(prefix, body, suffix))
  {
    hide RemoveNul, TrimStart, TrimEnd, Take, IsSpace;
    RemoveNulConcat(prefix, body + suffix);
    RemoveNulConcat(body, suffix);
    RemoveNulKeeps(body);
    var p, s := RemoveNul(prefix), RemoveNul(suffix);
    TrimStartOfConcat(p, body + s);
    var head := TrimStart(p) + body;
    Associative(TrimStart(p), body, s);
    TrimEndOfConcat(head, s);
    TakeOfConcat(head, TrimEnd(s), MAX_OUTPUT_CHARS);
    Associative(TrimStart(p), body, Remains(prefix, body, suffix));
  }

  lemma ObjectText(obj: Json)
    requires obj.Object? && JsonOk(obj)
    ensures var t := JsonString(obj); t != [] && 0 !in t && !IsSpace(t[0]) && !IsSpace(t[|t| - 1])
  {
    JsonIsWhole(obj);
    BalancedStartsWithOpen(JsonString(obj));
  }

  lemma TrimStartAddsNothing(t: Text, u: Unit)
    requires u !in t
    ensures u !in TrimStart(t)
  {
  }

  /**
   * An answer object anywhere in the output is what is returned, if no brace precedes it and it lies within the
   * first 12,000 characters of the normalised text; whatever follows it.
   */
  lemma WrappedAnswerIsRecovered(prefix: Text, obj: Json, suffix: Text, decode: Decode)
    requires OPEN !in prefix && obj.Object? && JsonOk(obj)
    requires DecodesObjects(decode) && decode(JsonString(obj)).Some?
    requires |TrimStart(RemoveNul(prefix))| + |JsonString(obj)| <= MAX_OUTPUT_CHARS
    ensures FirstAnswer(Candidates(prefix + (JsonString(obj) + suffix)), decode) == decode(JsonString(obj))
  {
    hide JsonString, JsonOk, RemoveNul, TrimStart, Normalize, Slices, DecodesObjects, IsSpace;
    var body := JsonString(obj);
    ObjectText(obj);
    NormalizeKeeps(prefix, body, suffix);
    var prefix', suffix' := TrimStart(RemoveNul(prefix)), Remains(prefix, body, suffix);
    RemoveNulAddsNothing(prefix, OPEN);
    TrimStartAddsNothing(RemoveNul(prefix), OPEN);
    SliceAtFirstBrace(prefix', obj, suffix');
    var candidates := Candidates(prefix + (body + suffix));
    assert candidates[0] == prefix' + (body + suffix') && candidates[1] == body;
    if decode(candidates[0]).Some? {
      FirstObjectDecides(prefix', obj, suffix', decode);
      AnswerIs(candidates, decode, 0);
    } else {
      AnswerIs(candidates, decode, 1);
    }
  }
}
