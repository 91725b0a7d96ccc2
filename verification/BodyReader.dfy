/** `readAdminRequestBody`: a request body of at most 64 KiB collected in a growing buffer. */
module BodyReader {
  import opened Options
  import opened Decimal

  newtype Byte = n: int | 0 <= n < 256

  const MAX_BYTES := 64 * 1024
  const FIRST_CAPACITY := 1_024

  /** What one `read` of the stream gives; the end of the stream is the end of the list. */
  datatype Read = Chunk(bytes: seq<Byte>) | Failed

  datatype Error = BodyTooLarge | ContentLengthInvalid | BodyInvalid

  datatype Result<T> = Ok(value: T) | Err(error: Error)

  // ---- The declared length ----

  predicate IsLength(raw: string) {
    raw == "0" || (raw != "" && AllDigits(raw) && raw[0] != '0')
  }

  function DeclaredLength(header: Option<string>): (length: Result<Option<nat>>)
    ensures length.Ok? && length.value.Some? ==> length.value.value <= MAX_BYTES
  {
    match header
    case None => Ok(None)
    case Some(raw) =>
      if !IsLength(raw) then Err(ContentLengthInvalid)
      else if Parse(raw) > MAX_BYTES then Err(BodyTooLarge)
      else Ok(Some(Parse(raw)))
  }

  /** Every length is declared by its own numeral, and by no other text. */
  lemma LengthIsDeclaredByItsNumeral(raw: string, n: nat)
    ensures DeclaredLength(Some(raw)) == Ok(Some(n)) <==> raw == Print(n) && n <= MAX_BYTES
  {
    ParseOfPrint(n);
    NumeralIsLength(n);
    if IsLength(raw) { LengthIsNumeral(raw); }
  }

  lemma {:induction false} NumeralIsLength(n: nat)
    ensures IsLength(Print(n)) && (n > 0 ==> Print(n)[0] != '0')
  {
    if n >= 10 { NumeralIsLength(n / 10); }
  }

  lemma {:induction false} LengthIsNumeral(raw: string)
    requires IsLength(raw)
    ensures Print(Parse(raw)) == raw && (raw != "0" ==> Parse(raw) > 0)
  {
    hide Print, Parse, DigitValue;
    var shorter, last := raw[..|raw| - 1], raw[|raw| - 1];
    ParseEnd(raw);
    if |raw| > 1 {
      LengthIsNumeral(shorter);
      PrintNextDigit(Parse(shorter), last);
    }
  }

  lemma ParseEnd(raw: string)
    requires IsLength(raw)
    ensures var shorter, last := raw[..|raw| - 1], raw[|raw| - 1];
      && Parse(raw) == 10 * Parse(shorter) + DigitValue(last) && raw == shorter + [last]
      && (|raw| > 1 ==> IsLength(shorter) && shorter != "0")
      && (|raw| == 1 ==> Print(Parse(raw)) == raw && (raw != "0" ==> Parse(raw) > 0))
  {
    DigitRoundTrip(raw[|raw| - 1]);
    assert |raw| == 1 ==> raw[..|raw| - 1] == [];
    assert |raw| > 1 ==> raw[..|raw| - 1][0] == raw[0];
  }

  lemma PrintNextDigit(n: nat, c: char)
    requires n > 0 && IsDigit(c)
    ensures Print(10 * n + DigitValue(c)) == Print(n) + [c]
  {
    DigitRoundTrip(c);
  }

  lemma DigitRoundTrip(c: char)
    requires IsDigit(c)
    ensures DigitChar(DigitValue(c)) == c && (c != '0' ==> DigitValue(c) > 0)
  {
  }

  // ---- What a stream holds ----

  /** The chunks up to the first failing read. */
  function Chunks(stream: seq<Read>): seq<seq<Byte>> {
    if stream == [] || stream[0].Failed? then [] else [stream[0].bytes] + Chunks(stream[1..])
  }

  function Concat(chunks: seq<seq<Byte>>): seq<Byte> {
    if chunks == [] then [] else chunks[0] + Concat(chunks[1..])
  }

  predicate Breaks(stream: seq<Read>) {
    Failed in stream
  }

  /**
   * Reading the stream into the buffer: it fails exactly if more than 64 KiB arrive before a read fails, or
   * else if a read fails; otherwise it is the concatenation of all chunks.
   */
  function Contents(stream: seq<Read>): Result<seq<Byte>> {
    if |Concat(Chunks(stream))| > MAX_BYTES then Err(BodyTooLarge)
    else if Breaks(stream) then Err(BodyInvalid)
    else Ok(Concat(Chunks(stream)))
  }

  function BodyText(header: Option<string>, body: Option<seq<Read>>, decode: seq<Byte> -> Option<string>)
    : Result<string>
  {
    match DeclaredLength(header)
    case Err(error) => Err(error)
    case Ok(declared) =>
      if body.None? then
        if declared.Some? && declared.value != 0 then Err(ContentLengthInvalid) else Ok("")
      else match Contents(body.value)
        case Err(error) => Err(error)
        case Ok(bytes) =>
          if declared.Some? && declared.value != |bytes| then Err(ContentLengthInvalid)
          else match decode(bytes)
            case Some(text) => Ok(text)
            case None => Err(BodyInvalid)
  }

  // ---- The growing buffer ----

  lemma {:induction false} ChunksFrom(stream: seq<Read>, i: nat)
    requires i < |stream|
    ensures stream[i].Chunk? ==> Concat(Chunks(stream[i..])) == stream[i].bytes + Concat(Chunks(stream[i + 1..]))
    ensures stream[i].Failed? ==> Chunks(stream[i..]) == []
  {
    assert stream[i..][1..] == stream[i + 1..];
  }

  function Min(a: int, b: int): int {
    if a < b then a else b
  }

  function Max(a: int, b: int): int {
    if a < b then b else a
  }

  /** All that growing has cost so far, for the capacity at hand. */
  ghost predicate Cheap(copied: nat, capacity: nat) {
    capacity <= MAX_BYTES && (copied <= capacity || (capacity == MAX_BYTES && copied < 2 * MAX_BYTES))
  }

  method Grow(body: array<Byte>, used: nat, needed: nat) returns (expanded: array<Byte>)
    requires used <= body.Length < needed <= MAX_BYTES
    ensures fresh(expanded) && needed <= expanded.Length <= MAX_BYTES && expanded[..used] == body[..used]
    ensures forall copied: nat :: Cheap(copied, body.Length) ==> Cheap(copied + used, expanded.Length)
  {
    var capacity := Min(MAX_BYTES, Max(needed, Max(1, body.Length * 2)));
    expanded := new Byte[capacity](_ => 0);
    Blit(body[..used], expanded, 0);
    assert expanded[..used] == expanded[0..used];
  }

  /** `target.set(source, at)`. */
  method Blit(source: seq<Byte>, target: array<Byte>, at: nat)
    requires at + |source| <= target.Length
    modifies target
    ensures target[..at] == old(target[..at]) && target[at..at + |source|] == source
  {
    for i := 0 to |source|
      invariant target[..at] == old(target[..at])
      invariant forall k :: 0 <= k < i ==> target[at + k] == source[k]
    {
      target[at + i] := source[i];
    }
  }

  /** Put the next chunk behind the bytes in use, in a larger buffer if it does not fit. */
  method Append(body: array<Byte>, used: nat, bytes: seq<Byte>, ghost copied: nat)
    returns (grown: array<Byte>, ghost copied': nat)
    requires used <= body.Length && used + |bytes| <= MAX_BYTES && Cheap(copied, body.Length)
    modifies body
    ensures grown == body || fresh(grown)
    ensures used + |bytes| <= grown.Length && Cheap(copied', grown.Length)
    ensures grown[..used + |bytes|] == old(body[..used]) + bytes
  {
    grown, copied' := body, copied;
    if used + |bytes| > body.Length {
      grown := Grow(body, used, used + |bytes|);
      copied' := copied + used;
    }
    Blit(bytes, grown, used);
    assert grown[..used + |bytes|] == grown[..used] + grown[used..used + |bytes|];
  }

  /** `used` bytes were read, and `rest` is still to come. */
  ghost predicate ReadSoFar(stream: seq<Read>, i: nat, used: seq<Byte>)
    requires i <= |stream|
  {
    Failed !in stream[..i] && Concat(Chunks(stream)) == used + Concat(Chunks(stream[i..]))
  }

  lemma NothingRead(stream: seq<Read>)
    ensures ReadSoFar(stream, 0, [])
  {
    assert stream[0..] == stream;
  }

  lemma ReadNext(stream: seq<Read>, i: nat, used: seq<Byte>)
    requires i < |stream| && ReadSoFar(stream, i, used) && |used| <= MAX_BYTES
    ensures stream[i].Failed? ==> Contents(stream) == Err(BodyInvalid)
    ensures stream[i].Chunk? ==>
      && ReadSoFar(stream, i + 1, used + stream[i].bytes)
      && (|used + stream[i].bytes| > MAX_BYTES ==> Contents(stream) == Err(BodyTooLarge))
  {
    ChunksFrom(stream, i);
    if stream[i].Chunk? {
      var bytes, rest := stream[i].bytes, Concat(Chunks(stream[i + 1..]));
      assert used + (bytes + rest) == (used + bytes) + rest;
    }
  }

  lemma AllRead(stream: seq<Read>, used: seq<Byte>)
    requires ReadSoFar(stream, |stream|, used) && |used| <= MAX_BYTES
    ensures Contents(stream) == Ok(used)
  {
    assert stream[..|stream|] == stream && stream[|stream|..] == [];
    assert used + [] == used;
  }

  /** The read loop. The last two results are bookkeeping of the proof: capacity reached, bytes recopied. */
  method Collect(stream: seq<Read>, declared: Option<nat>)
    returns (result: Result<seq<Byte>>, ghost capacity: nat, ghost copied: nat)
    ensures result == Contents(stream)
    ensures capacity <= MAX_BYTES && copied < 2 * MAX_BYTES
  {
    hide Contents, ReadSoFar;
    var body := new Byte[Min(if declared.Some? then declared.value else FIRST_CAPACITY, MAX_BYTES)](_ => 0);
    var total: nat := 0;
    capacity, copied := body.Length, 0;
    NothingRead(stream);
    assert body[..0] == [];
    for i := 0 to |stream|
      invariant fresh(body) && total <= body.Length == capacity && Cheap(copied, capacity)
      invariant ReadSoFar(stream, i, body[..total])
    {
      ReadNext(stream, i, body[..total]);
      match stream[i] {
        case Failed => return Err(BodyInvalid), capacity, copied;
        case Chunk(bytes) =>
          if total + |bytes| > MAX_BYTES { return Err(BodyTooLarge), capacity, copied; }
          body, copied := Append(body, total, bytes, copied);
          total, capacity := total + |bytes|, body.Length;
      }
    }
    AllRead(stream, body[..total]);
    result := Ok(body[..total]);
  }

  method ReadBody(header: Option<string>, body: Option<seq<Read>>, decode: seq<Byte> -> Option<string>)
    returns (text: Result<string>)
    ensures text == BodyText(header, body, decode)
  {
    var declared := DeclaredLength(header);
    if declared.Err? { return Err(declared.error); }
    if body.None? {
      return if declared.value.Some? && declared.value.value != 0 then Err(ContentLengthInvalid) else Ok("");
    }
    var contents, capacity, copied := Collect(body.value, declared.value);
    if contents.Err? { return Err(contents.error); }
    if declared.value.Some? && declared.value.value != |contents.value| { return Err(ContentLengthInvalid); }
    var decoded := decode(contents.value);
    text := if decoded.Some? then Ok(decoded.value) else Err(BodyInvalid);
  }

  // ---- How the chunks are cut does not matter ----

  lemma {:induction false} ChunksOfUnbroken(chunks: seq<seq<Byte>>)
    ensures var stream := seq(|chunks|, i requires 0 <= i < |chunks| => Chunk(chunks[i]));
      Chunks(stream) == chunks && !Breaks(stream)
  {
    if chunks != [] {
      ChunksOfUnbroken(chunks[1..]);
      var stream := seq(|chunks|, i requires 0 <= i < |chunks| => Chunk(chunks[i]));
      assert stream[1..] == seq(|chunks[1..]|, i requires 0 <= i < |chunks[1..]| => Chunk(chunks[1..][i]));
      assert chunks == [chunks[0]] + chunks[1..];
    }
  }

  /** A stream that does not break is accepted exactly if its bytes fit, however they are cut into chunks. */
  lemma UnbrokenStreamIsItsBytes(chunks: seq<seq<Byte>>)
    ensures var stream := seq(|chunks|, i requires 0 <= i < |chunks| => Chunk(chunks[i]));
      Contents(stream) == if |Concat(chunks)| > MAX_BYTES then Err(BodyTooLarge) else Ok(Concat(chunks))
  {
    ChunksOfUnbroken(chunks);
  }
}
