/**
 * JSON values as texts (sections 2 to 7 of RFC 8259): any value with any white space and any escapes. Numbers
 * and the three literal names are covered by all unquoted runs of the characters they are made of.
 */
module JsonText {
  import opened Options
  import opened Utf16
  import opened BraceScanner

  datatype JsonChar = Raw(u: Unit) | Escape(u: Unit) | Hex(a: Unit, b: Unit, c: Unit, d: Unit)

  datatype Json =
    | Literal(text: Text)
    | Str(chars: seq<JsonChar>)
    | Array(blank: Text, elements: seq<Padded>)
    | Object(blank: Text, members: seq<Member>)

  datatype Padded = Padded(before: Text, value: Json, after: Text)

  datatype Member = Member(before: Text, name: seq<JsonChar>, between: Text, value: Padded)

  const COMMA: Unit := 44
  const COLON: Unit := 58
  const LEFT_BRACKET: Unit := 91
  const RIGHT_BRACKET: Unit := 93
  const LOWER_U: Unit := 117

  // ---- The grammar ----

  predicate IsWs(u: Unit) {
    u == 0x20 || u == 0x09 || u == 0x0a || u == 0x0d
  }

  predicate Ws(t: Text) {
    forall i :: 0 <= i < |t| ==> IsWs(t[i])
  }

  predicate IsHexDigit(u: Unit) {
    0x30 <= u <= 0x39 || 0x41 <= u <= 0x46 || 0x61 <= u <= 0x66
  }

  /** Letters, digits, plus, minus and full stop. */
  predicate IsLiteralUnit(u: Unit) {
    0x30 <= u <= 0x39 || 0x41 <= u <= 0x5a || 0x61 <= u <= 0x7a || u == 0x2b || u == 0x2d || u == 0x2e
  }

  predicate LiteralText(t: Text) {
    t != [] && forall i :: 0 <= i < |t| ==> IsLiteralUnit(t[i])
  }

  predicate CharOk(c: JsonChar) {
    match c
    case Raw(u) => u >= 0x20 && u != QUOTE && u != BACKSLASH
    case Escape(u) => u in [0x22, 0x5c, 0x2f, 0x62, 0x66, 0x6e, 0x72, 0x74]
    case Hex(a, b, c, d) => IsHexDigit(a) && IsHexDigit(b) && IsHexDigit(c) && IsHexDigit(d)
  }

  predicate CharsOk(chars: seq<JsonChar>) {
    forall i :: 0 <= i < |chars| ==> CharOk(chars[i])
  }

  predicate JsonOk(j: Json) {
    match j
    case Literal(t) => LiteralText(t)
    case Str(chars) => CharsOk(chars)
    case Array(blank, elements) => Ws(blank) && ElementsOk(elements)
    case Object(blank, members) => Ws(blank) && MembersOk(members)
  }

  predicate PaddedOk(p: Padded) {
    Ws(p.before) && JsonOk(p.value) && Ws(p.after)
  }

  predicate ElementsOk(elements: seq<Padded>) {
    elements != [] ==> PaddedOk(elements[0]) && ElementsOk(elements[1..])
  }

  predicate MembersOk(members: seq<Member>) {
    members != [] ==>
      && Ws(members[0].before) && CharsOk(members[0].name) && Ws(members[0].between) && PaddedOk(members[0].value)
      && MembersOk(members[1..])
  }

  // ---- The text ----

  function CharText(c: JsonChar): Text {
    match c
    case Raw(u) => [u]
    case Escape(u) => [BACKSLASH, u]
    case Hex(a, b, c, d) => [BACKSLASH, LOWER_U, a, b, c, d]
  }

  function CharsText(chars: seq<JsonChar>): Text {
    if chars == [] then [] else CharText(chars[0]) + CharsText(chars[1..])
  }

  function StringText(chars: seq<JsonChar>): Text {
    [QUOTE] + (CharsText(chars) + [QUOTE])
  }

  function JsonString(j: Json): Text {
    match j
    case Literal(t) => t
    case Str(chars) => StringText(chars)
    case Array(blank, elements) =>
      [LEFT_BRACKET] + ((if elements == [] then blank else ElementsText(elements)) + [RIGHT_BRACKET])
    case Object(blank, members) => [OPEN] + ((if members == [] then blank else MembersText(members)) + [CLOSE])
  }

  function PaddedText(p: Padded): Text {
    p.before + (JsonString(p.value) + p.after)
  }

  function ElementsText(elements: seq<Padded>): Text
    requires elements != []
  {
    if |elements| == 1 then PaddedText(elements[0])
    else PaddedText(elements[0]) + ([COMMA] + ElementsText(elements[1..]))
  }

  function MemberText(m: Member): Text {
    m.before + (StringText(m.name) + (m.between + ([COLON] + PaddedText(m.value))))
  }

  function MembersText(members: seq<Member>): Text
    requires members != []
  {
    if |members| == 1 then MemberText(members[0])
    else MemberText(members[0]) + ([COMMA] + MembersText(members[1..]))
  }

  // ---- The text is made of pieces that the scanner passes over ----

  /** A text without NUL in which everything outside of string literals is balanced. */
  ghost predicate Whole(t: Text) {
    0 !in t && exists pieces :: PiecesOk(pieces) && t == Show(pieces)
  }

  lemma {:induction false} ShowConcat(a: seq<Piece>, b: seq<Piece>)
    requires PiecesOk(a) && PiecesOk(b)
    ensures Show(a + b) == Show(a) + Show(b) && PiecesOk(a + b)
    decreases |a|
  {
    if a == [] {
      assert a + b == b;
    } else {
      assert (a + b)[1..] == a[1..] + b;
      ShowConcat(a[1..], b);
    }
  }

  lemma WholeConcat(a: Text, b: Text)
    requires Whole(a) && Whole(b)
    ensures Whole(a + b)
  {
    var p :| PiecesOk(p) && a == Show(p);
    var q :| PiecesOk(q) && b == Show(q);
    ShowConcat(p, q);
  }

  lemma WholePiece(p: Piece)
    requires PieceOk(p) && 0 !in ShowPiece(p)
    ensures Whole(ShowPiece(p))
  {
    assert [p][1..] == [] && Show([p]) == ShowPiece(p) + [];
    assert PiecesOk([p]);
  }

  lemma WholeUnit(u: Unit)
    requires u != 0 && u != QUOTE && u != OPEN && u != CLOSE
    ensures Whole([u])
  {
    WholePiece(Plain(u));
  }

  lemma {:induction false} WholePlain(t: Text)
    requires forall i :: 0 <= i < |t| ==> t[i] != 0 && t[i] != QUOTE && t[i] != OPEN && t[i] != CLOSE
    ensures Whole(t)
  {
    if t == [] {
      assert PiecesOk([]) && Show([]) == t;
    } else {
      WholeUnit(t[0]);
      WholePlain(t[1..]);
      WholeConcat([t[0]], t[1..]);
      assert t == [t[0]] + t[1..];
    }
  }

  ghost function MarkOf(c: JsonChar): seq<Mark> {
    match c
    case Raw(u) => [Bare(u)]
    case Escape(u) => [Escaped(u)]
    case Hex(x, y, z, w) => [Escaped(LOWER_U), Bare(x), Bare(y), Bare(z), Bare(w)]
  }

  ghost function MarksOf(chars: seq<JsonChar>): seq<Mark> {
    if chars == [] then [] else MarkOf(chars[0]) + MarksOf(chars[1..])
  }

  lemma {:induction false} ShowMarksConcat(a: seq<Mark>, b: seq<Mark>)
    ensures ShowMarks(a + b) == ShowMarks(a) + ShowMarks(b)
  {
    if a == [] {
      assert a + b == b;
    } else {
      assert (a + b)[1..] == a[1..] + b;
      ShowMarksConcat(a[1..], b);
    }
  }

  lemma CharMarks(c: JsonChar)
    requires CharOk(c)
    ensures MarksOk(MarkOf(c)) && ShowMarks(MarkOf(c)) == CharText(c) && 0 !in CharText(c)
  {
    match c {
      case Raw(u) => assert ShowMarks([Bare(u)]) == [u] + ShowMarks([]);
      case Escape(u) => assert ShowMarks([Escaped(u)]) == [BACKSLASH, u] + ShowMarks([]);
      case Hex(x, y, z, w) => HexMarks(x, y, z, w);
    }
  }

  lemma HexMarks(x: Unit, y: Unit, z: Unit, w: Unit)
    ensures ShowMarks([Escaped(LOWER_U), Bare(x), Bare(y), Bare(z), Bare(w)]) == [BACKSLASH, LOWER_U, x, y, z, w]
  {
    var e, a, b, c, d := [Escaped(LOWER_U)], [Bare(x)], [Bare(y)], [Bare(z)], [Bare(w)];
    ShowMarksConcat(e, a + (b + (c + d)));
    ShowMarksConcat(a, b + (c + d));
    ShowMarksConcat(b, c + d);
    ShowMarksConcat(c, d);
    assert [Escaped(LOWER_U), Bare(x), Bare(y), Bare(z), Bare(w)] == e + (a + (b + (c + d)));
    assert ShowMarks(e) == [BACKSLASH, LOWER_U] + ShowMarks([]);
  }

  lemma {:induction false} StringMarks(chars: seq<JsonChar>)
    requires CharsOk(chars)
    ensures MarksOk(MarksOf(chars)) && ShowMarks(MarksOf(chars)) == CharsText(chars) && 0 !in CharsText(chars)
  {
    if chars != [] {
      hide CharOk, CharText, MarkOf, MarksOk, ShowMarks;
      StringMarks(chars[1..]);
      CharMarks(chars[0]);
      ShowMarksConcat(MarkOf(chars[0]), MarksOf(chars[1..]));
      MarksOkConcat(MarkOf(chars[0]), MarksOf(chars[1..]));
    }
  }

  lemma MarksOkConcat(a: seq<Mark>, b: seq<Mark>)
    requires MarksOk(a) && MarksOk(b)
    ensures MarksOk(a + b)
  {
  }

  lemma WholeString(chars: seq<JsonChar>)
    requires CharsOk(chars)
    ensures Whole(StringText(chars))
  {
    StringMarks(chars);
    WholePiece(Quoted(MarksOf(chars)));
  }

  lemma WholeGroup(inner: Text)
    requires Whole(inner)
    ensures Whole([OPEN] + (inner + [CLOSE])) && Balanced([OPEN] + (inner + [CLOSE]))
  {
    var pieces :| PiecesOk(pieces) && inner == Show(pieces);
    assert ShowPiece(Group(pieces)) == [OPEN] + (inner + [CLOSE]);
    WholePiece(Group(pieces));
  }

  lemma WholeBrackets(inner: Text)
    requires Whole(inner)
    ensures Whole([LEFT_BRACKET] + (inner + [RIGHT_BRACKET]))
  {
    WholeUnit(LEFT_BRACKET);
    WholeUnit(RIGHT_BRACKET);
    WholeConcat(inner, [RIGHT_BRACKET]);
    WholeConcat([LEFT_BRACKET], inner + [RIGHT_BRACKET]);
  }

  lemma {:induction false} JsonIsWhole(j: Json)
    requires JsonOk(j)
    ensures Whole(JsonString(j)) && (j.Object? ==> Balanced(JsonString(j)))
    decreases j, 0, 0
  {
    hide Whole, Balanced;
    match j {
      case Literal(t) => WholePlain(t);
      case Str(chars) => WholeString(chars);
      case Array(blank, elements) =>
        if elements == [] { WholePlain(blank); } else { ElementsAreWhole(elements); }
        WholeBrackets(if elements == [] then blank else ElementsText(elements));
      case Object(blank, members) =>
        if members == [] { WholePlain(blank); } else { MembersAreWhole(members); }
        WholeGroup(if members == [] then blank else MembersText(members));
    }
  }

  lemma {:induction false} PaddedIsWhole(p: Padded)
    requires PaddedOk(p)
    ensures Whole(PaddedText(p))
    decreases p, 0, 0
  {
    hide Whole, Balanced;
    WholePlain(p.before);
    JsonIsWhole(p.value);
    WholePlain(p.after);
    WholeConcat(JsonString(p.value), p.after);
    WholeConcat(p.before, JsonString(p.value) + p.after);
  }

  lemma {:induction false} ElementsAreWhole(elements: seq<Padded>)
    requires elements != [] && ElementsOk(elements)
    ensures Whole(ElementsText(elements))
    decreases elements, 1, |elements|
  {
    hide Whole, Balanced;
    PaddedIsWhole(elements[0]);
    if |elements| > 1 {
      ElementsAreWhole(elements[1..]);
      WholeUnit(COMMA);
      WholeConcat([COMMA], ElementsText(elements[1..]));
      WholeConcat(PaddedText(elements[0]), [COMMA] + ElementsText(elements[1..]));
    }
  }

  lemma {:induction false} MemberIsWhole(m: Member)
    requires Ws(m.before) && CharsOk(m.name) && Ws(m.between) && PaddedOk(m.value)
    ensures Whole(MemberText(m))
    decreases m, 0, 0
  {
    hide Whole, Balanced;
    WholePlain(m.before);
    WholeString(m.name);
    WholePlain(m.between);
    WholeUnit(COLON);
    PaddedIsWhole(m.value);
    WholeConcat([COLON], PaddedText(m.value));
    WholeConcat(m.between, [COLON] + PaddedText(m.value));
    WholeConcat(StringText(m.name), m.between + ([COLON] + PaddedText(m.value)));
    WholeConcat(m.before, StringText(m.name) + (m.between + ([COLON] + PaddedText(m.value))));
  }

  lemma {:induction false} MembersAreWhole(members: seq<Member>)
    requires members != [] && MembersOk(members)
    ensures Whole(MembersText(members))
    decreases members, 1, |members|
  {
    hide Whole, Balanced;
    MemberIsWhole(members[0]);
    if |members| > 1 {
      MembersAreWhole(members[1..]);
      WholeUnit(COMMA);
      WholeConcat([COMMA], MembersText(members[1..]));
      WholeConcat(MemberText(members[0]), [COMMA] + MembersText(members[1..]));
    }
  }

  // ---- Every embedded object is found ----

  /** Whatever text surrounds a JSON object, the scanner returns exactly that object from its first brace. */
  lemma EmbeddedObjectIsFound(prefix: Text, obj: Json, suffix: Text)
    requires obj.Object? && JsonOk(obj)
    ensures var text := prefix + (JsonString(obj) + suffix);
      && |prefix| < |text| && text[|prefix|] == OPEN
      && SliceAt(text, |prefix|) == Some(JsonString(obj))
      && JsonString(obj) in Slices(text, 0)
  {
    var text := prefix + (JsonString(obj) + suffix);
    JsonIsWhole(obj);
    assert text[|prefix|..|prefix| + |JsonString(obj)|] == JsonString(obj);
    assert At(text, |prefix|, JsonString(obj));
    BalancedIsFound(text, |prefix|, JsonString(obj));
    var starts := SlicesAreTheBalancedOnes(text, 0);
    assert BalancedAt(text, |prefix|, JsonString(obj));
    assert Listed(|prefix|, JsonString(obj), starts, Slices(text, 0));
  }
}
