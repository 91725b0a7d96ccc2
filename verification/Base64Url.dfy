/** Base64 in the URL alphabet without padding (sections 3.2 and 5 of RFC 4648), as the runtime composes it. */
module Base64Url {
  import opened Options
  import opened Utf16

  type Byte = n: nat | n < 256

  type Sextet = n: nat | n < 64

  const PAD: Unit := 61
  const PLUS: Unit := 43
  const SLASH: Unit := 47
  const MINUS: Unit := 45
  const UNDERSCORE: Unit := 95

  // ---- The alphabet of `btoa` and `atob` ----

  function Symbol(s: Sextet): Unit {
    if s < 26 then 65 + s
    else if s < 52 then 97 + (s - 26)
    else if s < 62 then 48 + (s - 52)
    else if s == 62 then PLUS
    else SLASH
  }

  function SymbolValue(u: Unit): Option<Sextet> {
    if 65 <= u <= 90 then Some(u - 65)
    else if 97 <= u <= 122 then Some(u - 97 + 26)
    else if 48 <= u <= 57 then Some(u - 48 + 52)
    else if u == PLUS then Some(62)
    else if u == SLASH then Some(63)
    else None
  }

  lemma SymbolRoundTrip(s: Sextet)
    ensures SymbolValue(Symbol(s)) == Some(s)
  {
  }

  // ---- Three bytes in four sextets ----

  function First(x: Byte): Sextet {
    x / 4
  }

  function Second(x: Byte, y: Byte): Sextet {
    x % 4 * 16 + y / 16
  }

  function Third(y: Byte, z: Byte): Sextet {
    y % 16 * 4 + z / 64
  }

  function Fourth(z: Byte): Sextet {
    z % 64
  }

  function High(a: Sextet, b: Sextet): Byte {
    a * 4 + b / 16
  }

  function Middle(b: Sextet, c: Sextet): Byte {
    b % 16 * 16 + c / 4
  }

  function Low(c: Sextet, d: Sextet): Byte {
    c % 4 * 64 + d
  }

  lemma Recombined(x: Byte, y: Byte, z: Byte)
    ensures High(First(x), Second(x, y)) == x
    ensures Middle(Second(x, y), Third(y, z)) == y
    ensures Low(Third(y, z), Fourth(z)) == z
  {
  }

  // ---- `btoa` and `atob` ----

  function Btoa(bytes: seq<Byte>): Text {
    if bytes == [] then []
    else if |bytes| == 1 then [Symbol(First(bytes[0])), Symbol(Second(bytes[0], 0)), PAD, PAD]
    else if |bytes| == 2 then
      [Symbol(First(bytes[0])), Symbol(Second(bytes[0], bytes[1])), Symbol(Third(bytes[1], 0)), PAD]
    else Group(bytes[0], bytes[1], bytes[2]) + Btoa(bytes[3..])
  }

  function Group(x: Byte, y: Byte, z: Byte): Text {
    [Symbol(First(x)), Symbol(Second(x, y)), Symbol(Third(y, z)), Symbol(Fourth(z))]
  }

  function WithoutPads(t: Text): Text {
    if |t| % 4 != 0 || t == [] || t[|t| - 1] != PAD then t
    else if t[|t| - 2] == PAD then t[..|t| - 2]
    else t[..|t| - 1]
  }

  function Sextets(t: Text): (values: Option<seq<Sextet>>)
    ensures values.Some? ==> |values.value| == |t|
  {
    if t == [] then Some([])
    else match (SymbolValue(t[0]), Sextets(t[1..]))
      case (Some(v), Some(rest)) => Some([v] + rest)
      case _ => None
  }

  /** Whole bytes of the bits; what is left over is dropped. */
  function Bytes(s: seq<Sextet>): seq<Byte> {
    if |s| < 2 then []
    else if |s| == 2 then [High(s[0], s[1])]
    else if |s| == 3 then [High(s[0], s[1]), Middle(s[1], s[2])]
    else [High(s[0], s[1]), Middle(s[1], s[2]), Low(s[2], s[3])] + Bytes(s[4..])
  }

  /** On text without white space. */
  function Atob(t: Text): Option<seq<Byte>> {
    var stripped := WithoutPads(t);
    if |stripped| % 4 == 1 then None
    else match Sextets(stripped)
      case Some(values) => Some(Bytes(values))
      case None => None
  }

  // ---- The source's encoder and decoder of bytes ----

  function Replace(t: Text, from: Unit, to: Unit): (r: Text)
    ensures |r| == |t| && forall i :: 0 <= i < |t| ==> r[i] == if t[i] == from then to else t[i]
  {
    seq(|t|, i requires 0 <= i < |t| => if t[i] == from then to else t[i])
  }

  /** `replace(/=/g, "")` */
  function RemovePads(t: Text): Text {
    if t == [] then []
    else if t[0] == PAD then RemovePads(t[1..])
    else [t[0]] + RemovePads(t[1..])
  }

  function Encode(bytes: seq<Byte>): Text {
    Replace(Replace(RemovePads(Btoa(bytes)), PLUS, MINUS), SLASH, UNDERSCORE)
  }

  predicate IsUrlUnit(u: Unit) {
    65 <= u <= 90 || 97 <= u <= 122 || 48 <= u <= 57 || u == UNDERSCORE || u == MINUS
  }

  predicate IsUrlText(t: Text) {
    t != [] && forall i :: 0 <= i < |t| ==> IsUrlUnit(t[i])
  }

  function PadEnd(t: Text, width: nat): Text {
    if |t| >= width then t else t + seq(width - |t|, _ => PAD)
  }

  function Decode(t: Text): Option<seq<Byte>> {
    if !IsUrlText(t) then None
    else Atob(PadEnd(Replace(Replace(t, MINUS, PLUS), UNDERSCORE, SLASH), (|t| + 3) / 4 * 4))
  }

  // ---- The round trip ----

  /** The symbols of the bytes without padding. */
  ghost function Bare(bytes: seq<Byte>): Text {
    if bytes == [] then []
    else if |bytes| == 1 then [Symbol(First(bytes[0])), Symbol(Second(bytes[0], 0))]
    else if |bytes| == 2 then [Symbol(First(bytes[0])), Symbol(Second(bytes[0], bytes[1])), Symbol(Third(bytes[1], 0))]
    else Group(bytes[0], bytes[1], bytes[2]) + Bare(bytes[3..])
  }

  ghost predicate AllSymbols(t: Text) {
    forall i :: 0 <= i < |t| ==> SymbolValue(t[i]).Some?
  }

  lemma {:induction false} BareIsSymbols(bytes: seq<Byte>)
    ensures AllSymbols(Bare(bytes)) && |Bare(bytes)| % 4 != 1 && (bytes != [] ==> Bare(bytes) != [])
  {
    hide Symbol, SymbolValue, First, Second, Third, Fourth;
    forall s: Sextet ensures SymbolValue(Symbol(s)).Some? {
      SymbolRoundTrip(s);
    }
    if |bytes| > 2 {
      BareIsSymbols(bytes[3..]);
      FourMore(|Bare(bytes[3..])|);
    }
  }

  lemma FourMore(n: nat)
    ensures (n + 4) % 4 == n % 4
  {
  }

  lemma {:induction false} RemovePadsOfSymbols(t: Text, rest: Text)
    requires AllSymbols(t)
    ensures RemovePads(t + rest) == t + RemovePads(rest)
  {
    if t == [] {
      assert t + rest == rest;
    } else {
      assert (t + rest)[1..] == t[1..] + rest;
      RemovePadsOfSymbols(t[1..], rest);
    }
  }

  lemma {:induction false} RemovePadsOfBtoa(bytes: seq<Byte>)
    ensures RemovePads(Btoa(bytes)) == Bare(bytes)
  {
    assert RemovePads([]) == [] && RemovePads([PAD]) == RemovePads([]) && RemovePads([PAD, PAD]) == RemovePads([PAD]);
    if |bytes| > 2 {
      RemovePadsOfSymbols(Group(bytes[0], bytes[1], bytes[2]), Btoa(bytes[3..]));
      RemovePadsOfBtoa(bytes[3..]);
    } else {
      RemovePadsOfSymbols(Bare(bytes), Btoa(bytes)[|Bare(bytes)|..]);
      assert Btoa(bytes) == Bare(bytes) + Btoa(bytes)[|Bare(bytes)|..];
    }
  }

  /** Mapping symbols to the URL alphabet and back. */
  lemma UrlAlphabet(t: Text)
    requires AllSymbols(t)
    ensures var url := Replace(Replace(t, PLUS, MINUS), SLASH, UNDERSCORE);
      && (forall i :: 0 <= i < |t| ==> IsUrlUnit(url[i]))
      && Replace(Replace(url, MINUS, PLUS), UNDERSCORE, SLASH) == t
  {
  }

  lemma PaddedWidth(n: nat)
    ensures (n + 3) / 4 * 4 - n == if n % 4 == 0 then 0 else 4 - n % 4
    ensures (n + 3) / 4 * 4 % 4 == 0
  {
  }

  lemma StripsPadding(t: Text)
    requires AllSymbols(t) && |t| % 4 != 1
    ensures WithoutPads(PadEnd(t, (|t| + 3) / 4 * 4)) == t
  {
    PaddedWidth(|t|);
    var width := (|t| + 3) / 4 * 4;
    StripsTo(t, width);
  }

  lemma StripsTo(t: Text, width: nat)
    requires AllSymbols(t) && width % 4 == 0 && |t| <= width <= |t| + 2
    ensures WithoutPads(PadEnd(t, width)) == t
  {
    var padded := PadEnd(t, width);
    assert t != [] ==> SymbolValue(t[|t| - 1]).Some?;
    assert |padded| == width && padded[..|t|] == t;
  }

  lemma SextetsOfOne(a: Sextet, rest: Text)
    requires Sextets(rest).Some?
    ensures Sextets([Symbol(a)] + rest) == Some([a] + Sextets(rest).value)
  {
    SymbolRoundTrip(a);
    assert ([Symbol(a)] + rest)[1..] == rest;
  }

  lemma SextetsOfGroup(x: Byte, y: Byte, z: Byte, rest: Text)
    requires Sextets(rest).Some?
    ensures Sextets(Group(x, y, z) + rest)
         == Some([First(x), Second(x, y), Third(y, z), Fourth(z)] + Sextets(rest).value)
  {
    hide Sextets, Symbol;
    var d := [Symbol(Fourth(z))] + rest;
    var c := [Symbol(Third(y, z))] + d;
    var b := [Symbol(Second(x, y))] + c;
    SextetsOfOne(Fourth(z), rest);
    SextetsOfOne(Third(y, z), d);
    SextetsOfOne(Second(x, y), c);
    SextetsOfOne(First(x), b);
    assert Group(x, y, z) + rest == [Symbol(First(x))] + b;
    var v := Sextets(rest).value;
    assert [First(x)] + ([Second(x, y)] + ([Third(y, z)] + ([Fourth(z)] + v)))
        == [First(x), Second(x, y), Third(y, z), Fourth(z)] + v;
  }

  lemma ShortGroup(x: Byte, y: Byte)
    ensures Sextets([Symbol(First(x)), Symbol(Second(x, y))]) == Some([First(x), Second(x, y)])
    ensures Sextets([Symbol(First(x)), Symbol(Second(x, y)), Symbol(Third(y, 0))])
         == Some([First(x), Second(x, y), Third(y, 0)])
  {
    hide Symbol;
    NoSextets();
    SextetsOfTwo(First(x), Second(x, y), []);
    SextetsOfOne(Third(y, 0), []);
    SextetsOfTwo(First(x), Second(x, y), [Symbol(Third(y, 0))] + []);
    assert [Symbol(First(x)), Symbol(Second(x, y))] + [] == [Symbol(First(x)), Symbol(Second(x, y))];
    assert [Symbol(First(x)), Symbol(Second(x, y))] + ([Symbol(Third(y, 0))] + [])
        == [Symbol(First(x)), Symbol(Second(x, y)), Symbol(Third(y, 0))];
    assert [First(x), Second(x, y)] + [] == [First(x), Second(x, y)];
    assert [First(x), Second(x, y)] + ([Third(y, 0)] + []) == [First(x), Second(x, y), Third(y, 0)];
  }

  lemma SextetsOfTwo(a: Sextet, b: Sextet, rest: Text)
    requires Sextets(rest).Some?
    ensures Sextets([Symbol(a), Symbol(b)] + rest) == Some([a, b] + Sextets(rest).value)
  {
    hide Symbol, Sextets;
    SextetsOfOne(b, rest);
    SextetsOfOne(a, [Symbol(b)] + rest);
    assert [Symbol(a), Symbol(b)] + rest == [Symbol(a)] + ([Symbol(b)] + rest);
    assert [a, b] + Sextets(rest).value == [a] + ([b] + Sextets(rest).value);
  }

  lemma {:induction false} BytesOfBare(bytes: seq<Byte>)
    ensures Sextets(Bare(bytes)).Some? && Bytes(Sextets(Bare(bytes)).value) == bytes
  {
    hide Symbol, Sextets, First, Second, Third, Fourth, High, Middle, Low;
    if |bytes| == 0 {
      NoSextets();
    } else if |bytes| == 1 {
      ShortGroup(bytes[0], 0);
      Recombined(bytes[0], 0, 0);
    } else if |bytes| == 2 {
      ShortGroup(bytes[0], bytes[1]);
      Recombined(bytes[0], bytes[1], 0);
    } else {
      var x, y, z, rest := bytes[0], bytes[1], bytes[2], bytes[3..];
      BytesOfBare(rest);
      SextetsOfGroup(x, y, z, Bare(rest));
      Recombined(x, y, z);
      var values := Sextets(Bare(rest)).value;
      assert ([First(x), Second(x, y), Third(y, z), Fourth(z)] + values)[4..] == values;
      assert bytes == [x, y, z] + rest;
    }
  }

  lemma NoSextets()
    ensures Sextets([]) == Some([])
  {
  }

  /** Decoding undoes encoding for every sequence of bytes, of any length, except the empty one. */
  lemma DecodeOfEncode(bytes: seq<Byte>)
    ensures Decode(Encode(bytes)) == Some(bytes) <==> bytes != []
    ensures bytes != [] ==> IsUrlText(Encode(bytes))
  {
    RemovePadsOfBtoa(bytes);
    BareIsSymbols(bytes);
    UrlAlphabet(Bare(bytes));
    StripsPadding(Bare(bytes));
    BytesOfBare(bytes);
  }
}
