/**
 * The scanner that finds JSON objects in model output: from each `{`, up to the `}` that balances it outside
 * of string literals.
 */
module BraceScanner {
  import opened Options
  import opened Utf16

  const QUOTE: Unit := 34
  const BACKSLASH: Unit := 92
  const OPEN: Unit := 123
  const CLOSE: Unit := 125

  // ---- Balanced texts, by their grammar ----

  datatype Mark = Bare(u: Unit) | Escaped(u: Unit)

  datatype Piece = Plain(u: Unit) | Quoted(marks: seq<Mark>) | Group(pieces: seq<Piece>)

  ghost predicate MarksOk(marks: seq<Mark>) {
    forall i :: 0 <= i < |marks| && marks[i].Bare? ==> marks[i].u != QUOTE && marks[i].u != BACKSLASH
  }

  ghost predicate PieceOk(p: Piece) {
    match p
    case Plain(u) => u != QUOTE && u != OPEN && u != CLOSE
    case Quoted(marks) => MarksOk(marks)
    case Group(pieces) => PiecesOk(pieces)
  }

  ghost predicate PiecesOk(pieces: seq<Piece>) {
    pieces != [] ==> PieceOk(pieces[0]) && PiecesOk(pieces[1..])
  }

  ghost function ShowMarks(marks: seq<Mark>): Text {
    if marks == [] then []
    else (if marks[0].Bare? then [marks[0].u] else [BACKSLASH, marks[0].u]) + ShowMarks(marks[1..])
  }

  ghost function ShowPiece(p: Piece): Text {
    match p
    case Plain(u) => [u]
    case Quoted(marks) => [QUOTE] + (ShowMarks(marks) + [QUOTE])
    case Group(pieces) => [OPEN] + (Show(pieces) + [CLOSE])
  }

  ghost function Show(pieces: seq<Piece>): Text {
    if pieces == [] then [] else ShowPiece(pieces[0]) + Show(pieces[1..])
  }

  /** A braced text in which braces outside of string literals are balanced. */
  ghost predicate Balanced(t: Text) {
    exists pieces :: PiecesOk(pieces) && t == ShowPiece(Group(pieces))
  }

  /** `part` stands in `text` at `i`. */
  ghost predicate At(text: Text, i: nat, part: Text) {
    i + |part| <= |text| && text[i..i + |part|] == part
  }

  lemma AtConcat(text: Text, i: nat, a: Text, b: Text)
    ensures At(text, i, a + b) <==> At(text, i, a) && At(text, i + |a|, b)
  {
    var n, m := i + |a|, i + |a| + |b|;
    if m <= |text| {
      assert text[i..m] == text[i..n] + text[n..m];
      assert (a + b)[..|a|] == a && (a + b)[|a|..] == b;
      assert text[i..m][..|a|] == text[i..n] && text[i..m][|a|..] == text[n..m];
    }
  }

  lemma AtOne(text: Text, i: nat, u: Unit)
    ensures At(text, i, [u]) <==> i < |text| && text[i] == u
  {
  }

  lemma AtNothing(text: Text, i: nat)
    requires i <= |text|
    ensures At(text, i, [])
  {
  }

  // ---- The scan ----

  /** The scanner's variables: `depth`, `inString`, `escaped`. */
  datatype State = State(depth: nat, inString: bool, escaped: bool)

  const INSIDE := State(1, false, false)

  /** The variables after one more unit. */
  function Step(s: State, u: Unit): State {
    if s.inString then
      if s.escaped then s.(escaped := false)
      else if u == BACKSLASH then s.(escaped := true)
      else if u == QUOTE then s.(inString := false)
      else s
    else if u == QUOTE then s.(inString := true)
    else if u == OPEN then s.(depth := s.depth + 1)
    else if u == CLOSE && s.depth > 0 then s.(depth := s.depth - 1)
    else s
  }

  /** Just behind the brace that closes the state's depth, scanning from `i`, if it is there. */
  function Closing(s: State, text: Text, i: nat): (end: Option<nat>)
    requires s.depth > 0 && i <= |text|
    ensures end.Some? ==> i < end.value <= |text|
    decreases |text| - i
  {
    if i == |text| then None
    else
      var next := Step(s, text[i]);
      if next.depth == 0 then Some(i + 1) else Closing(next, text, i + 1)
  }

  /** The slice from the brace at `start`, if it is ever closed. */
  function SliceAt(text: Text, start: nat): (slice: Option<Text>)
    requires start < |text| && text[start] == OPEN
  {
    match Closing(INSIDE, text, start + 1)
    case None => None
    case Some(end) => Some(text[start..end])
  }

  /** The slices that start at or after `from`, in order. */
  function Slices(text: Text, from: nat): seq<Text>
    requires from <= |text|
    decreases |text| - from
  {
    if from == |text| then []
    else if text[from] != OPEN then Slices(text, from + 1)
    else match SliceAt(text, from)
      case None => Slices(text, from + 1)
      case Some(slice) => [slice] + Slices(text, from + 1)
  }

  /** `text.indexOf("{", from)`. */
  function IndexOfOpen(text: Text, from: nat): (at: Option<nat>)
    requires from <= |text|
    ensures at.Some? ==> from <= at.value < |text| && text[at.value] == OPEN
    ensures forall i :: from <= i < (if at.Some? then at.value else |text|) ==> text[i] != OPEN
    decreases |text| - from
  {
    if from == |text| then None else if text[from] == OPEN then Some(from) else IndexOfOpen(text, from + 1)
  }

  lemma {:induction false} SlicesSkip(text: Text, from: nat, to: nat)
    requires from <= to <= |text| && forall i :: from <= i < to ==> text[i] != OPEN
    ensures Slices(text, from) == Slices(text, to)
    decreases |text| - from
  {
    if from < to { SlicesSkip(text, from + 1, to); }
  }

  /** The inner loop: scan from the brace at `start`. */
  method ScanFrom(text: Text, start: nat) returns (slice: Option<Text>)
    requires start < |text| && text[start] == OPEN
    ensures slice == SliceAt(text, start)
  {
    var depth: nat, inString, escaped := 0, false, false;
    for index := start to |text|
      invariant index == start ==> depth == 0 && !inString && !escaped
      invariant index > start ==>
        && depth > 0 && Closing(State(depth, inString, escaped), text, index) == Closing(INSIDE, text, start + 1)
    {
      var character := text[index];
      if inString {
        if escaped { escaped := false; }
        else if character == BACKSLASH { escaped := true; }
        else if character == QUOTE { inString := false; }
        continue;
      }
      if character == QUOTE { inString := true; }
      else if character == OPEN { depth := depth + 1; }
      else if character == CLOSE {
        depth := depth - 1;
        if depth == 0 { return Some(text[start..index + 1]); }
      }
    }
    return None;
  }

  /** What the outer loop collects from `start` on, and where it goes next. */
  lemma SlicesFrom(text: Text, start: nat)
    requires start < |text| && text[start] == OPEN
    ensures var next := IndexOfOpen(text, start + 1);
      Slices(text, start) ==
        (if SliceAt(text, start).Some? then [SliceAt(text, start).value] else [])
          + (if next.Some? then Slices(text, next.value) else [])
  {
    hide Closing;
    var next := IndexOfOpen(text, start + 1);
    SlicesSkip(text, start + 1, if next.Some? then next.value else |text|);
  }

  /** The slices still to come when the next brace is at `start`. */
  ghost function SlicesOn(text: Text, start: Option<nat>): seq<Text>
    requires start.Some? ==> start.value <= |text|
  {
    if start.Some? then Slices(text, start.value) else []
  }

  lemma FirstBrace(text: Text)
    ensures Slices(text, 0) == SlicesOn(text, IndexOfOpen(text, 0))
  {
    var start := IndexOfOpen(text, 0);
    SlicesSkip(text, 0, if start.Some? then start.value else |text|);
  }

  lemma Collected(objects: seq<Text>, slice: Option<Text>, later: seq<Text>)
    ensures objects + ((if slice.Some? then [slice.value] else []) + later)
         == (if slice.Some? then objects + [slice.value] else objects) + later
  {
  }

  method BalancedObjects(text: Text) returns (objects: seq<Text>)
    ensures objects == Slices(text, 0)
  {
    hide Slices, SliceAt;
    objects := [];
    var start := IndexOfOpen(text, 0);
    FirstBrace(text);
    while start.Some?
      invariant start.Some? ==> start.value < |text| && text[start.value] == OPEN
      invariant Slices(text, 0) == objects + SlicesOn(text, start)
      decreases if start.Some? then |text| - start.value else -1
    {
      var slice := ScanFrom(text, start.value);
      SlicesFrom(text, start.value);
      var next := IndexOfOpen(text, start.value + 1);
      Collected(objects, slice, SlicesOn(text, next));
      if slice.Some? { objects := objects + [slice.value]; }
      start := next;
    }
  }

  // ---- Balanced texts are found ----

  lemma {:induction false} ClosingPastMarks(text: Text, i: nat, depth: nat, marks: seq<Mark>)
    requires depth > 0 && MarksOk(marks) && At(text, i, ShowMarks(marks) + [QUOTE])
    ensures i + |ShowMarks(marks)| < |text|
    ensures Closing(State(depth, true, false), text, i)
         == Closing(State(depth, false, false), text, i + |ShowMarks(marks)| + 1)
    decreases |marks|
  {
    hide At;
    var s := State(depth, true, false);
    if marks == [] {
      assert ShowMarks(marks) + [QUOTE] == [QUOTE];
      AtOne(text, i, QUOTE);
    } else {
      var u, tail := marks[0].u, ShowMarks(marks[1..]) + [QUOTE];
      if marks[0].Bare? {
        assert ShowMarks(marks) + [QUOTE] == [u] + tail;
        AtConcat(text, i, [u], tail);
        AtOne(text, i, u);
        ClosingPastMarks(text, i + 1, depth, marks[1..]);
      } else {
        assert ShowMarks(marks) + [QUOTE] == [BACKSLASH] + ([u] + tail);
        AtConcat(text, i, [BACKSLASH], [u] + tail);
        AtConcat(text, i + 1, [u], tail);
        AtOne(text, i, BACKSLASH);
        AtOne(text, i + 1, u);
        ClosingPastMarks(text, i + 2, depth, marks[1..]);
      }
    }
  }

  lemma {:induction false} ClosingPastPiece(text: Text, i: nat, depth: nat, p: Piece)
    requires depth > 0 && PieceOk(p) && At(text, i, ShowPiece(p))
    ensures i + |ShowPiece(p)| <= |text|
    ensures var s := State(depth, false, false); Closing(s, text, i) == Closing(s, text, i + |ShowPiece(p)|)
    decreases p, 1, 0
  {
    hide At;
    match p {
      case Plain(u) =>
        AtOne(text, i, u);
      case Quoted(marks) =>
        AtConcat(text, i, [QUOTE], ShowMarks(marks) + [QUOTE]);
        AtOne(text, i, QUOTE);
        ClosingPastMarks(text, i + 1, depth, marks);
      case Group(pieces) =>
        AtConcat(text, i, [OPEN], Show(pieces) + [CLOSE]);
        AtConcat(text, i + 1, Show(pieces), [CLOSE]);
        AtOne(text, i, OPEN);
        ClosingPast(text, i + 1, depth + 1, pieces);
        AtOne(text, i + 1 + |Show(pieces)|, CLOSE);
    }
  }

  lemma {:induction false} ClosingPast(text: Text, i: nat, depth: nat, pieces: seq<Piece>)
    requires depth > 0 && PiecesOk(pieces) && At(text, i, Show(pieces))
    ensures i + |Show(pieces)| <= |text|
    ensures var s := State(depth, false, false); Closing(s, text, i) == Closing(s, text, i + |Show(pieces)|)
    decreases pieces, 0, |pieces|
  {
    if pieces != [] {
      hide At, ShowPiece;
      AtConcat(text, i, ShowPiece(pieces[0]), Show(pieces[1..]));
      ClosingPastPiece(text, i, depth, pieces[0]);
      ClosingPast(text, i + |ShowPiece(pieces[0])|, depth, pieces[1..]);
    }
  }

  // ---- What is found is balanced ----

  lemma {:induction false} ReadMarks(text: Text, i: nat, depth: nat) returns (marks: seq<Mark>, k: nat)
    requires depth > 0 && i <= |text| && Closing(State(depth, true, false), text, i).Some?
    ensures i <= k < |text| && MarksOk(marks) && At(text, i, ShowMarks(marks)) && k == i + |ShowMarks(marks)|
    ensures text[k] == QUOTE
    ensures Closing(State(depth, true, false), text, i) == Closing(State(depth, false, false), text, k + 1)
    decreases |text| - i
  {
    hide At;
    var u := text[i];
    AtNothing(text, i);
    AtOne(text, i, u);
    if u == QUOTE {
      marks, k := [], i;
    } else if u == BACKSLASH {
      var more;
      more, k := ReadMarks(text, i + 2, depth);
      marks := [Escaped(text[i + 1])] + more;
      AtOne(text, i + 1, text[i + 1]);
      AtConcat(text, i, [BACKSLASH], [text[i + 1]]);
      ShowMore(text, i, marks, more);
    } else {
      var more;
      more, k := ReadMarks(text, i + 1, depth);
      marks := [Bare(u)] + more;
      ShowMore(text, i, marks, more);
    }
  }

  lemma ShowMore(text: Text, i: nat, marks: seq<Mark>, more: seq<Mark>)
    requires marks != [] && marks[1..] == more
    ensures var first := if marks[0].Bare? then [marks[0].u] else [BACKSLASH] + [marks[0].u];
      && ShowMarks(marks) == first + ShowMarks(more)
      && (At(text, i, first) && At(text, i + |first|, ShowMarks(more)) ==> At(text, i, ShowMarks(marks)))
  {
    var first := if marks[0].Bare? then [marks[0].u] else [BACKSLASH] + [marks[0].u];
    AtConcat(text, i, first, ShowMarks(more));
  }

  /** The pieces up to the brace that closes the current depth. */
  lemma {:induction false} ReadPieces(text: Text, i: nat, depth: nat) returns (pieces: seq<Piece>, k: nat)
    requires depth > 0 && i <= |text| && Closing(State(depth, false, false), text, i).Some?
    ensures i <= k < |text| && PiecesOk(pieces) && At(text, i, Show(pieces)) && k == i + |Show(pieces)|
    ensures text[k] == CLOSE
    ensures Closing(State(depth, false, false), text, i) ==
      if depth == 1 then Some(k + 1) else Closing(State(depth - 1, false, false), text, k + 1)
    decreases |text| - i, 1
  {
    hide At, ShowPiece;
    AtNothing(text, i);
    if text[i] == CLOSE {
      pieces, k := [], i;
    } else {
      var first, n := ReadPiece(text, i, depth);
      var more;
      more, k := ReadPieces(text, n, depth);
      pieces := [first] + more;
      assert pieces[1..] == more;
      AtConcat(text, i, ShowPiece(first), Show(more));
    }
  }

  lemma {:induction false} ReadPiece(text: Text, i: nat, depth: nat) returns (piece: Piece, n: nat)
    requires depth > 0 && i < |text| && Closing(State(depth, false, false), text, i).Some? && text[i] != CLOSE
    ensures i < n <= |text| && PieceOk(piece) && At(text, i, ShowPiece(piece)) && n == i + |ShowPiece(piece)|
    ensures Closing(State(depth, false, false), text, i) == Closing(State(depth, false, false), text, n)
    decreases |text| - i, 0
  {
    hide At;
    var u := text[i];
    AtOne(text, i, u);
    if u == QUOTE {
      var marks, k := ReadMarks(text, i + 1, depth);
      piece, n := Quoted(marks), k + 1;
      AtOne(text, k, QUOTE);
      AtConcat(text, i + 1, ShowMarks(marks), [QUOTE]);
      AtConcat(text, i, [QUOTE], ShowMarks(marks) + [QUOTE]);
    } else if u == OPEN {
      var inner, k := ReadPieces(text, i + 1, depth + 1);
      piece, n := Group(inner), k + 1;
      AtOne(text, k, CLOSE);
      AtConcat(text, i + 1, Show(inner), [CLOSE]);
      AtConcat(text, i, [OPEN], Show(inner) + [CLOSE]);
    } else {
      piece, n := Plain(u), i + 1;
    }
  }

  // ---- The scanner is exact ----

  lemma BalancedIsFound(text: Text, start: nat, slice: Text)
    requires At(text, start, slice) && Balanced(slice)
    ensures start < |text| && text[start] == OPEN && SliceAt(text, start) == Some(slice)
  {
    var pieces :| PiecesOk(pieces) && slice == ShowPiece(Group(pieces));
    AtConcat(text, start, [OPEN], Show(pieces) + [CLOSE]);
    AtConcat(text, start + 1, Show(pieces), [CLOSE]);
    AtOne(text, start, OPEN);
    ClosingPast(text, start + 1, 1, pieces);
    AtOne(text, start + 1 + |Show(pieces)|, CLOSE);
  }

  lemma FoundIsBalanced(text: Text, start: nat)
    requires start < |text| && text[start] == OPEN && SliceAt(text, start).Some?
    ensures Balanced(SliceAt(text, start).value) && At(text, start, SliceAt(text, start).value)
  {
    var pieces, k := ReadPieces(text, start + 1, 1);
    AtOne(text, start, OPEN);
    AtOne(text, k, CLOSE);
    AtConcat(text, start + 1, Show(pieces), [CLOSE]);
    AtConcat(text, start, [OPEN], Show(pieces) + [CLOSE]);
    assert SliceAt(text, start).value == ShowPiece(Group(pieces));
  }

  /** From a brace, the scanner returns the balanced text that starts there; there is at most one. */
  lemma SliceIsTheBalancedOne(text: Text, start: nat, slice: Text)
    requires start < |text| && text[start] == OPEN
    ensures SliceAt(text, start) == Some(slice) <==> At(text, start, slice) && Balanced(slice)
  {
    if SliceAt(text, start) == Some(slice) {
      FoundIsBalanced(text, start);
    }
    if At(text, start, slice) && Balanced(slice) {
      BalancedIsFound(text, start, slice);
    }
  }

  lemma BalancedStartsWithOpen(t: Text)
    requires Balanced(t)
    ensures |t| >= 2 && t[0] == OPEN && t[|t| - 1] == CLOSE
  {
  }

  ghost predicate BalancedAt(text: Text, start: nat, slice: Text) {
    At(text, start, slice) && Balanced(slice)
  }

  /** The slices are balanced texts that begin at `starts`, in order. */
  ghost predicate StartAt(text: Text, from: nat, starts: seq<nat>, slices: seq<Text>) {
    && |starts| == |slices|
    && (forall i :: 0 <= i < |starts| ==> from <= starts[i] && BalancedAt(text, starts[i], slices[i]))
    && (forall i, j :: 0 <= i < j < |starts| ==> starts[i] < starts[j])
  }

  ghost predicate Listed(p: nat, slice: Text, starts: seq<nat>, slices: seq<Text>)
    requires |starts| == |slices|
  {
    exists i :: 0 <= i < |starts| && starts[i] == p && slices[i] == slice
  }

  lemma ListedLater(p: nat, slice: Text, q: nat, first: Text, starts: seq<nat>, slices: seq<Text>)
    requires |starts| == |slices|
    ensures Listed(p, slice, starts, slices) ==> Listed(p, slice, [q] + starts, [first] + slices)
    ensures Listed(q, first, [q] + starts, [first] + slices)
  {
    if i :| 0 <= i < |starts| && starts[i] == p && slices[i] == slice {
      assert ([q] + starts)[i + 1] == p && ([first] + slices)[i + 1] == slice;
    }
    assert ([q] + starts)[0] == q && ([first] + slices)[0] == first;
  }

  /**
   * The result lists exactly the balanced texts that begin at some brace, each at its own place, in the order
   * in which they begin.
   */
  lemma {:induction false} SlicesAreTheBalancedOnes(text: Text, from: nat) returns (starts: seq<nat>)
    requires from <= |text|
    ensures StartAt(text, from, starts, Slices(text, from))
    ensures forall p: nat, slice :: from <= p && BalancedAt(text, p, slice) ==>
      Listed(p, slice, starts, Slices(text, from))
    decreases |text| - from
  {
    hide BalancedAt, SliceAt;
    forall p: nat, slice | BalancedAt(text, p, slice)
      ensures p < |text| && text[p] == OPEN && SliceAt(text, p) == Some(slice)
    {
      FoundAt(text, p, slice);
    }
    if from == |text| {
      starts := [];
    } else {
      starts := SlicesAreTheBalancedOnes(text, from + 1);
      if text[from] == OPEN && SliceAt(text, from).Some? {
        FoundHere(text, from);
        forall p: nat, slice
          ensures (|| Listed(p, slice, starts, Slices(text, from + 1))
                   || (p == from && Some(slice) == SliceAt(text, from)))
            ==> Listed(p, slice, [from] + starts, Slices(text, from))
        {
          ListedLater(p, slice, from, SliceAt(text, from).value, starts, Slices(text, from + 1));
        }
        starts := [from] + starts;
      }
    }
  }

  lemma FoundAt(text: Text, p: nat, slice: Text)
    requires BalancedAt(text, p, slice)
    ensures p < |text| && text[p] == OPEN && SliceAt(text, p) == Some(slice)
  {
    BalancedIsFound(text, p, slice);
  }

  lemma FoundHere(text: Text, start: nat)
    requires start < |text| && text[start] == OPEN && SliceAt(text, start).Some?
    ensures BalancedAt(text, start, SliceAt(text, start).value)
  {
    FoundIsBalanced(text, start);
  }
}
