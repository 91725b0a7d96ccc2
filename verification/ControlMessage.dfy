/** Control requests that travel inside a development request's text. */
module ControlMessage {
  import opened Options
  import opened Utf16
  import opened Base64Url

  const MAX_CONTROL_LENGTH := 7_500
  const MAX_ANSWERS := 10
  const MAX_ANSWER_LENGTH := 2_000

  datatype Answer = Answer(id: Text, answer: Text)

  datatype Control =
    | New(request: Text)
    | Resume(storyId: Text, answers: seq<Answer>)
    | ContinueGates(storyId: Text)

  datatype Error = StoryInvalid | AnswersInvalid | ControlTooLarge | ControlInvalid | RequestEmpty

  datatype Result<T> = Ok(value: T) | Err(error: Error)

  /** A parsed JSON value, as far as it is looked at: `None` where the expected string or array is missing. */
  datatype RawAnswer = RawAnswer(id: Option<Text>, answer: Option<Text>) | NoAnswer

  datatype Value = Fields(mode: Option<Text>, storyId: Option<Text>, answers: Option<seq<RawAnswer>>) | NoRecord

  /** JSON text in UTF-8 of a record, and back; reading may fail. */
  datatype Codec = Codec(write: Value -> seq<Byte>, read: seq<Byte> -> Option<Value>)

  function ControlPrefix(): Text {
    Units("[mana_development_control_v1]")
  }

  // ---- Validation ----

  predicate IsLowerOrDigit(u: Unit) {
    97 <= u <= 122 || 48 <= u <= 57
  }

  /** `story-[a-z0-9-]+` */
  predicate StoryOk(id: Text) {
    && Units("story-") <= id && |id| > 6
    && forall i :: 6 <= i < |id| ==> IsLowerOrDigit(id[i]) || id[i] == MINUS
  }

  /** `[a-z0-9_-]{1,64}` */
  predicate AnswerIdOk(id: Text) {
    1 <= |id| <= 64 && forall i :: 0 <= i < |id| ==> IsLowerOrDigit(id[i]) || id[i] == MINUS || id[i] == UNDERSCORE
  }

  predicate AnswerOk(a: RawAnswer) {
    && a.RawAnswer? && a.id.Some? && AnswerIdOk(a.id.value)
    && a.answer.Some? && 1 <= |a.answer.value| <= MAX_ANSWER_LENGTH
  }

  /** One to ten answers, each well formed, no two under one id. */
  predicate AnswersOk(raw: Option<seq<RawAnswer>>) {
    && raw.Some? && 1 <= |raw.value| <= MAX_ANSWERS
    && (forall i :: 0 <= i < |raw.value| ==> AnswerOk(raw.value[i]))
    && (forall i, j :: 0 <= i < j < |raw.value| ==> raw.value[i].id != raw.value[j].id)
  }

  function AnswersIn(raw: seq<RawAnswer>): (answers: seq<Answer>)
    requires forall i :: 0 <= i < |raw| ==> AnswerOk(raw[i])
    ensures |answers| == |raw|
  {
    seq(|raw|, i requires 0 <= i < |raw| && AnswerOk(raw[i]) => Answer(raw[i].id.value, raw[i].answer.value))
  }

  /** `validateAnswers`. */
  method ValidateAnswers(raw: Option<seq<RawAnswer>>) returns (answers: Result<seq<Answer>>)
    ensures answers == if AnswersOk(raw) then Ok(AnswersIn(raw.value)) else Err(AnswersInvalid)
  {
    if raw.None? || |raw.value| < 1 || |raw.value| > MAX_ANSWERS { return Err(AnswersInvalid); }
    var list := raw.value;
    var ids: set<Option<Text>> := {};
    var result: seq<Answer> := [];
    for i := 0 to |list|
      invariant forall k :: 0 <= k < i ==> AnswerOk(list[k])
      invariant forall j, k :: 0 <= j < k < i ==> list[j].id != list[k].id
      invariant ids == set k | 0 <= k < i :: list[k].id
      invariant result == AnswersIn(list[..i])
    {
      if !AnswerOk(list[i]) { return Err(AnswersInvalid); }
      if list[i].id in ids { return Err(AnswersInvalid); }
      ids := ids + {list[i].id};
      result := result + [Answer(list[i].id.value, list[i].answer.value)];
    }
    assert list[..|list|] == list;
    answers := Ok(result);
  }

  function RawAnswers(answers: seq<Answer>): (raw: seq<RawAnswer>)
    ensures |raw| == |answers|
  {
    seq(|answers|, i requires 0 <= i < |answers| => RawAnswer(Some(answers[i].id), Some(answers[i].answer)))
  }

  // ---- Serialising ----

  function ValueOf(c: Control): Value
    requires !c.New?
  {
    match c
    case Resume(storyId, answers) => Fields(Some(Units("resume")), Some(storyId), Some(RawAnswers(answers)))
    case ContinueGates(storyId) => Fields(Some(Units("continueGates")), Some(storyId), None)
  }

  function Encoded(v: Value, codec: Codec): Text {
    ControlPrefix() + Encode(codec.write(v))
  }

  /** The parts of a request that are validated before it is written. */
  predicate Acceptable(c: Control) {
    match c
    case New(_) => false
    case Resume(storyId, answers) => StoryOk(storyId) && AnswersOk(Some(RawAnswers(answers)))
    case ContinueGates(storyId) => StoryOk(storyId)
  }

  /** Reading gives back every request that was written, and none is written as no bytes. */
  ghost predicate Faithful(codec: Codec) {
    forall c :: Acceptable(c) ==>
      codec.write(ValueOf(c)) != [] && codec.read(codec.write(ValueOf(c))) == Some(ValueOf(c))
  }

  method SerializeValue(v: Value, codec: Codec) returns (message: Result<Text>)
    ensures message == if |Encoded(v, codec)| > MAX_CONTROL_LENGTH then Err(ControlTooLarge) else Ok(Encoded(v, codec))
  {
    var encoded := Encoded(v, codec);
    message := if |encoded| > MAX_CONTROL_LENGTH then Err(ControlTooLarge) else Ok(encoded);
  }

  lemma AnswersRoundTrip(answers: seq<Answer>)
    requires AnswersOk(Some(RawAnswers(answers)))
    ensures AnswersIn(RawAnswers(answers)) == answers
  {
  }

  /** What is accepted comes back to the reader as the request it was, also out of white space around it. */
  ghost predicate ReadBack(message: Text, c: Control, codec: Codec) {
    forall text :: text == message || Trim(text) == message ==> ControlIn(text, codec) == Ok(c)
  }

  method SerializeResume(storyId: Text, answers: seq<Answer>, codec: Codec) returns (message: Result<Text>)
    ensures var c := Resume(storyId, answers);
      message == if !StoryOk(storyId) then Err(StoryInvalid)
        else if !Acceptable(c) then Err(AnswersInvalid)
        else if |Encoded(ValueOf(c), codec)| > MAX_CONTROL_LENGTH then Err(ControlTooLarge)
        else Ok(Encoded(ValueOf(c), codec))
    ensures Faithful(codec) && message.Ok? ==> ReadBack(message.value, Resume(storyId, answers), codec)
  {
    hide ControlIn, Encoded;
    if !StoryOk(storyId) { return Err(StoryInvalid); }
    var checked := ValidateAnswers(Some(RawAnswers(answers)));
    if checked.Err? { return Err(checked.error); }
    AnswersRoundTrip(answers);
    message := SerializeValue(ValueOf(Resume(storyId, checked.value)), codec);
    if message.Ok? { AcceptedIsReadBack(Resume(storyId, answers), codec); }
  }

  method SerializeContinueGates(storyId: Text, codec: Codec) returns (message: Result<Text>)
    ensures message.Ok? <==>
      StoryOk(storyId) && |Encoded(ValueOf(ContinueGates(storyId)), codec)| <= MAX_CONTROL_LENGTH
    ensures message.Err? ==> message.error == if StoryOk(storyId) then ControlTooLarge else StoryInvalid
    ensures message.Ok? ==> message.value == Encoded(ValueOf(ContinueGates(storyId)), codec)
    ensures Faithful(codec) && message.Ok? ==> ReadBack(message.value, ContinueGates(storyId), codec)
  {
    hide ControlIn, Encoded;
    if !StoryOk(storyId) { return Err(StoryInvalid); }
    message := SerializeValue(ValueOf(ContinueGates(storyId)), codec);
    if message.Ok? { AcceptedIsReadBack(ContinueGates(storyId), codec); }
  }

  lemma AcceptedIsReadBack(c: Control, codec: Codec)
    requires Acceptable(c) && |Encoded(ValueOf(c), codec)| <= MAX_CONTROL_LENGTH
    ensures Faithful(codec) ==> ReadBack(Encoded(ValueOf(c), codec), c, codec)
  {
    hide Faithful, ControlIn, Encoded, Trim, ReadBack, StoryOk, AnswersOk;
    if Faithful(codec) {
      forall text | text == Encoded(ValueOf(c), codec) || Trim(text) == Encoded(ValueOf(c), codec)
        ensures ControlIn(text, codec) == Ok(c)
      {
        SerializedIsParsedBack(c, codec, text);
      }
      EachIsReadBack(Encoded(ValueOf(c), codec), c, codec);
    }
  }

  lemma EachIsReadBack(message: Text, c: Control, codec: Codec)
    requires forall text :: text == message || Trim(text) == message ==> ControlIn(text, codec) == Ok(c)
    ensures ReadBack(message, c, codec)
  {
  }

  // ---- Parsing ----

  function ControlOf(v: Value): Result<Control> {
    if v.NoRecord? then Err(ControlInvalid)
    else if v.storyId.None? || !StoryOk(v.storyId.value) then Err(StoryInvalid)
    else if v.mode == Some(Units("resume")) then
      if AnswersOk(v.answers) then Ok(Resume(v.storyId.value, AnswersIn(v.answers.value))) else Err(AnswersInvalid)
    else if v.mode == Some(Units("continueGates")) then Ok(ContinueGates(v.storyId.value))
    else Err(ControlInvalid)
  }

  /** What a request's text means. */
  function ControlIn(request: Text, codec: Codec): Result<Control> {
    var trimmed := Trim(request);
    if !(ControlPrefix() <= trimmed) then
      if trimmed == [] then Err(RequestEmpty) else Ok(New(trimmed))
    else
      var encoded := trimmed[|ControlPrefix()|..];
      if encoded == [] || |trimmed| > MAX_CONTROL_LENGTH then Err(ControlInvalid)
      else match Decode(encoded)
        case None => Err(ControlInvalid)
        case Some(bytes) =>
          match codec.read(bytes)
          case None => Err(ControlInvalid)
          case Some(v) => ControlOf(v)
  }

  /** `parseManaDevelopmentControlRequest`. */
  method ParseControlRequest(request: Text, codec: Codec) returns (control: Result<Control>)
    ensures control == ControlIn(request, codec)
  {
    hide Decode, ControlPrefix, Trim, StoryOk, AnswersOk;
    var trimmed := Trim(request);
    if !(ControlPrefix() <= trimmed) {
      return if trimmed == [] then Err(RequestEmpty) else Ok(New(trimmed));
    }
    var encoded := trimmed[|ControlPrefix()|..];
    if encoded == [] || |trimmed| > MAX_CONTROL_LENGTH { return Err(ControlInvalid); }
    var bytes := Decode(encoded);
    if bytes.None? { return Err(ControlInvalid); }
    var parsed := codec.read(bytes.value);
    if parsed.None? || parsed.value.NoRecord? { return Err(ControlInvalid); }
    var v := parsed.value;
    if v.storyId.None? || !StoryOk(v.storyId.value) { return Err(StoryInvalid); }
    if v.mode == Some(Units("resume")) {
      var answers := ValidateAnswers(v.answers);
      return if answers.Ok? then Ok(Resume(v.storyId.value, answers.value)) else Err(answers.error);
    }
    if v.mode == Some(Units("continueGates")) { return Ok(ContinueGates(v.storyId.value)); }
    control := Err(ControlInvalid);
  }

  // ---- The round trip ----

  lemma ModesDiffer()
    ensures Units("resume") != Units("continueGates")
  {
    assert |Units("resume")| == 6 && |Units("continueGates")| == 13;
  }

  lemma ControlOfValue(c: Control)
    requires Acceptable(c)
    ensures ControlOf(ValueOf(c)) == Ok(c)
  {
    hide StoryOk, AnswersOk, Units;
    ModesDiffer();
    if c.Resume? { AnswersRoundTrip(c.answers); }
  }

  lemma EncodedIsTrimmed(body: Text)
    requires IsUrlText(body)
    ensures Trim(ControlPrefix() + body) == ControlPrefix() + body
  {
    var t := ControlPrefix() + body;
    assert ControlPrefix()[0] == 91;
    assert IsUrlUnit(t[|t| - 1]);
    TrimOfTrimmed(t);
  }

  lemma UrlTextIsSome(t: Text)
    ensures IsUrlText(t) ==> t != []
  {
  }

  /** Whatever is serialised is parsed back to the same request, also out of white space around it. */
  lemma SerializedIsParsedBack(c: Control, codec: Codec, text: Text)
    requires Faithful(codec) && Acceptable(c) && |Encoded(ValueOf(c), codec)| <= MAX_CONTROL_LENGTH
    requires text == Encoded(ValueOf(c), codec) || Trim(text) == Encoded(ValueOf(c), codec)
    ensures ControlIn(text, codec) == Ok(c)
  {
    hide Decode, Encode, Trim, ControlPrefix, ControlOf, ValueOf, StoryOk, AnswersOk, IsUrlText;
    var bytes := codec.write(ValueOf(c));
    DecodeOfEncode(bytes);
    UrlTextIsSome(Encode(bytes));
    EncodedIsTrimmed(Encode(bytes));
    ControlOfValue(c);
    assert (ControlPrefix() + Encode(bytes))[|ControlPrefix()|..] == Encode(bytes);
  }

  /** Different requests are never serialised as the same text. */
  lemma SerializingIsInjective(c: Control, d: Control, codec: Codec)
    requires Faithful(codec) && Acceptable(c) && Acceptable(d)
    requires |Encoded(ValueOf(c), codec)| <= MAX_CONTROL_LENGTH
    requires Encoded(ValueOf(c), codec) == Encoded(ValueOf(d), codec)
    ensures c == d
  {
    hide ControlIn, Encoded, ValueOf;
    SerializedIsParsedBack(c, codec, Encoded(ValueOf(c), codec));
    SerializedIsParsedBack(d, codec, Encoded(ValueOf(d), codec));
  }
}
