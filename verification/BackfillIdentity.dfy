/** The synthetic event id of a backfilled message: two 64-bit FNV-1a words over the message's coordinates. */
module BackfillIdentity {
  import opened Options
  import opened Decimal
  import opened Utf16

  const PRIME: nat := 1_099_511_628_211
  const MODULUS: nat := 0x1_0000_0000_0000_0000
  const FIRST_SEED: nat := 14_695_981_039_346_656_037
  const SECOND_SEED: nat := 1_099_511_628_211
  /** `PRIME * INVERSE == CARRY * MODULUS + 1`: multiplying by the prime can be undone. */
  const INVERSE: nat := 14_886_173_955_864_302_971
  const CARRY: nat := 887_285_111_055

  // ---- Exclusive or ----

  function Bit(a: nat, b: nat): nat {
    if a % 2 == b % 2 then 0 else 1
  }

  function Xor(a: nat, b: nat): nat {
    if a == 0 && b == 0 then 0 else Bit(a, b) + 2 * Xor(a / 2, b / 2)
  }

  lemma XorParts(a: nat, b: nat)
    ensures Xor(a, b) % 2 == Bit(a, b) && Xor(a, b) / 2 == Xor(a / 2, b / 2)
  {
  }

  lemma {:induction false} XorTwice(a: nat, b: nat)
    ensures Xor(Xor(a, b), b) == a
    decreases a + b
  {
    if a != 0 || b != 0 {
      hide Xor;
      XorParts(a, b);
      XorParts(Xor(a, b), b);
      XorTwice(a / 2, b / 2);
    }
  }

  lemma {:induction false} XorSymmetric(a: nat, b: nat)
    ensures Xor(a, b) == Xor(b, a)
    decreases a + b
  {
    if a != 0 || b != 0 { XorSymmetric(a / 2, b / 2); }
  }

  function Power2(k: nat): nat {
    if k == 0 then 1 else 2 * Power2(k - 1)
  }

  lemma {:induction false} XorBound(a: nat, b: nat, k: nat)
    requires a < Power2(k) && b < Power2(k)
    ensures Xor(a, b) < Power2(k)
  {
    if k > 0 { XorBound(a / 2, b / 2, k - 1); }
  }

  // ---- The hash ----

  function Mix(hash: nat, u: Unit): nat {
    (Xor(hash, u) * PRIME) % MODULUS
  }

  /** The hash after all units. */
  function Hash(value: Text, seed: nat): nat {
    if value == [] then seed else Mix(Hash(value[..|value| - 1], seed), value[|value| - 1])
  }

  method StableHash(value: Text, seed: nat) returns (hash: nat)
    ensures hash == Hash(value, seed)
  {
    hash := seed;
    for index := 0 to |value|
      invariant hash == Hash(value[..index], seed)
    {
      assert value[..index + 1][..index] == value[..index];
      hash := Xor(hash, value[index]);
      hash := (hash * PRIME) % MODULUS;
    }
    assert value[..|value|] == value;
  }

  lemma HashBound(value: Text, seed: nat)
    requires seed < MODULUS
    ensures Hash(value, seed) < MODULUS
  {
  }

  /** Multiplication by the prime loses nothing. */
  lemma MultiplyInjective(a: nat, b: nat)
    requires a < MODULUS && b < MODULUS && (a * PRIME) % MODULUS == (b * PRIME) % MODULUS
    ensures a == b
  {
    Undo(a);
    Undo(b);
  }

  lemma Undo(a: nat)
    requires a < MODULUS
    ensures (((a * PRIME) % MODULUS) * INVERSE) % MODULUS == a
  {
    var q, r := (a * PRIME) / MODULUS, (a * PRIME) % MODULUS;
    assert a * PRIME == q * MODULUS + r;
    assert r * INVERSE == a + MODULUS * (a * CARRY - q * INVERSE);
    Remainder(r * INVERSE, a, a * CARRY - q * INVERSE);
  }

  lemma Remainder(x: nat, a: nat, k: int)
    requires a < MODULUS && x == a + MODULUS * k
    ensures x % MODULUS == a
  {
  }

  lemma MixInjective(a: nat, u: Unit, b: nat, v: Unit)
    requires a < MODULUS && b < MODULUS && Mix(a, u) == Mix(b, v)
    ensures a == b <==> u == v
  {
    PowerOfModulus();
    XorBound(a, u, 64);
    XorBound(b, v, 64);
    MultiplyInjective(Xor(a, u), Xor(b, v));
    XorTwice(a, u);
    XorTwice(b, v);
    XorSymmetric(a, u);
    XorSymmetric(b, v);
    XorTwice(u, a);
    XorTwice(v, b);
  }

  lemma PowerOfModulus()
    ensures Power2(64) == MODULUS
  {
    assert Power2(8) == 0x100;
    PowerAdds(8, 8);
    PowerAdds(16, 16);
    PowerAdds(32, 32);
  }

  lemma {:induction false} PowerAdds(a: nat, b: nat)
    ensures Power2(a + b) == Power2(a) * Power2(b)
  {
    if a > 0 { PowerAdds(a - 1, b); }
  }

  ghost predicate DifferOnlyAt(s: Text, t: Text, i: nat) {
    |s| == |t| && i < |s| && s[i] != t[i] && forall k :: 0 <= k < |s| && k != i ==> s[k] == t[k]
  }

  /** Texts of equal length that differ in exactly one unit have different hashes, from any seed. */
  lemma {:induction false} OneChangeIsSeen(s: Text, t: Text, i: nat, seed: nat)
    requires DifferOnlyAt(s, t, i) && seed < MODULUS
    ensures Hash(s, seed) != Hash(t, seed)
  {
    hide Mix;
    var n := |s| - 1;
    HashBound(s[..n], seed);
    HashBound(t[..n], seed);
    if Hash(s, seed) == Hash(t, seed) {
      MixInjective(Hash(s[..n], seed), s[n], Hash(t[..n], seed), t[n]);
    }
    if i == n {
      assert s[..n] == t[..n];
    } else {
      OneChangeIsSeen(s[..n], t[..n], i, seed);
    }
  }

  // ---- Hexadecimal words ----

  predicate IsHex(c: char) {
    '0' <= c <= '9' || 'a' <= c <= 'f'
  }

  function HexChar(d: nat): (c: char)
    requires d < 16
    ensures IsHex(c)
  {
    "0123456789abcdef"[d]
  }

  function HexValue(c: char): nat
    requires IsHex(c)
  {
    if c <= '9' then (c - '0') as int else (c - 'a') as int + 10
  }

  predicate AllHex(s: string) {
    forall i :: 0 <= i < |s| ==> IsHex(s[i])
  }

  /** `n.toString(16)`. */
  function HexText(n: nat): (s: string)
    ensures s != [] && AllHex(s)
  {
    if n < 16 then [HexChar(n)] else HexText(n / 16) + [HexChar(n % 16)]
  }

  function ParseHex(s: string): nat
    requires AllHex(s)
  {
    if s == [] then 0 else 16 * ParseHex(s[..|s| - 1]) + HexValue(s[|s| - 1])
  }

  function Power16(k: nat): nat {
    if k == 0 then 1 else 16 * Power16(k - 1)
  }

  lemma HexDigit(d: nat)
    requires d < 16
    ensures HexValue(HexChar(d)) == d
  {
  }

  lemma ParseHexEnd(s: string, c: char)
    requires AllHex(s) && IsHex(c)
    ensures AllHex(s + [c]) && ParseHex(s + [c]) == 16 * ParseHex(s) + HexValue(c)
  {
    assert (s + [c])[..|s + [c]| - 1] == s;
  }

  lemma {:induction false} ParseOfHex(n: nat)
    ensures ParseHex(HexText(n)) == n
  {
    hide HexValue, HexChar;
    HexDigit(n % 16);
    if n >= 16 {
      hide ParseHex;
      ParseOfHex(n / 16);
      ParseHexEnd(HexText(n / 16), HexChar(n % 16));
    } else {
      assert HexText(n)[..0] == [];
    }
  }

  lemma {:induction false} ParseOfHexZero(s: string)
    requires AllHex(s)
    ensures ParseHex(['0'] + s) == ParseHex(s)
  {
    var t := ['0'] + s;
    if s == [] {
      assert t[..0] == [];
    } else {
      ParseOfHexZero(s[..|s| - 1]);
      assert t[..|t| - 1] == ['0'] + s[..|s| - 1] && t[|t| - 1] == s[|s| - 1];
    }
  }

  lemma {:induction false} PaddedHex(s: string, width: nat)
    requires AllHex(s) && |s| <= width
    ensures |PadStart(s, width)| == width && AllHex(PadStart(s, width)) && ParseHex(PadStart(s, width)) == ParseHex(s)
    decreases width - |s|
  {
    if |s| < width {
      ParseOfHexZero(s);
      PaddedHex(['0'] + s, width);
    }
  }

  lemma {:induction false} HexLength(n: nat, k: nat)
    requires k > 0 && n < Power16(k)
    ensures |HexText(n)| <= k
  {
    if n >= 16 { HexLength(n / 16, k - 1); }
  }

  lemma WordIsPower()
    ensures Power16(16) == MODULUS
  {
    assert Power16(8) == 0x1_0000_0000;
  }

  function Word(hash: nat): string {
    PadStart(HexText(hash), 16)
  }

  /** A 64-bit word is sixteen hexadecimal digits, and can be read back from them. */
  lemma WordShape(hash: nat)
    requires hash < MODULUS
    ensures |Word(hash)| == 16 && AllHex(Word(hash)) && ParseHex(Word(hash)) == hash
  {
    WordIsPower();
    HexLength(hash, 16);
    PaddedHex(HexText(hash), 16);
    ParseOfHex(hash);
  }

  // ---- The event id ----

  datatype Source = Source(workspaceId: string, channelId: string, messageTs: string, recoveryRevision: Option<int>)

  datatype Error = WorkspaceInvalid | ChannelInvalid | MessageInvalid | RevisionInvalid | EventInvalid

  datatype Result = Ok(eventId: string) | Err(error: Error)

  const PREFIX := "meeting_minutes_backfill_"
  const DISPATCH_PREFIX := "meeting_minutes_backfill_dispatch_"

  /** `[A-Z0-9]{2,64}` */
  predicate IsSlackId(s: string) {
    2 <= |s| <= 64 && forall i :: 0 <= i < |s| ==> 'A' <= s[i] <= 'Z' || '0' <= s[i] <= '9'
  }

  /** One to twenty digits before the dot at `k`, one to twelve behind it. */
  predicate DotAt(s: string, k: nat) {
    && 1 <= k <= 20 && k < |s| && s[k] == '.' && 2 <= |s| - k <= 13
    && AllDigits(s[..k]) && AllDigits(s[k + 1..])
  }

  /** `\d{1,20}(?:\.\d{1,12})?` */
  predicate IsTimestamp(s: string) {
    || (1 <= |s| <= 20 && AllDigits(s))
    || exists k: nat :: k < |s| && DotAt(s, k)
  }

  function RevisionText(revision: Option<int>): string
    requires revision.Some? ==> revision.value >= 1
  {
    if revision.None? then "" else ['\0'] + ("recovery:" + Print(revision.value))
  }

  /** What is hashed. */
  function SourceText(s: Source): string
    requires s.recoveryRevision.Some? ==> s.recoveryRevision.value >= 1
  {
    s.workspaceId + ['\0'] + (s.channelId + ['\0'] + (s.messageTs + RevisionText(s.recoveryRevision)))
  }

  predicate ValidSource(s: Source) {
    && IsSlackId(s.workspaceId) && IsSlackId(s.channelId) && IsTimestamp(s.messageTs)
    && (s.recoveryRevision.Some? ==> 1 <= s.recoveryRevision.value <= 999)
  }

  function EventId(s: Source): string
    requires ValidSource(s)
  {
    var units := Units(SourceText(s));
    PREFIX + (Word(Hash(units, FIRST_SEED)) + Word(Hash(units, SECOND_SEED)))
  }

  /** `stableWord`. */
  method StableWord(value: Text, seed: nat) returns (word: string)
    ensures word == Word(Hash(value, seed))
  {
    var hash := StableHash(value, seed);
    word := Word(hash);
  }

  method DeriveEventId(s: Source) returns (result: Result)
    ensures result == if ValidSource(s) then Ok(EventId(s)) else Err(FirstError(s))
  {
    if !IsSlackId(s.workspaceId) { return Err(WorkspaceInvalid); }
    if !IsSlackId(s.channelId) { return Err(ChannelInvalid); }
    if !IsTimestamp(s.messageTs) { return Err(MessageInvalid); }
    if s.recoveryRevision.Some? && !(1 <= s.recoveryRevision.value <= 999) { return Err(RevisionInvalid); }
    var units := Units(SourceText(s));
    var first := StableWord(units, FIRST_SEED);
    var second := StableWord(units, SECOND_SEED);
    result := Ok(PREFIX + (first + second));
  }

  /** The first part of a source that is not acceptable, in the order in which they are looked at. */
  function FirstError(s: Source): Error
    requires !ValidSource(s)
  {
    if !IsSlackId(s.workspaceId) then WorkspaceInvalid
    else if !IsSlackId(s.channelId) then ChannelInvalid
    else if !IsTimestamp(s.messageTs) then MessageInvalid
    else RevisionInvalid
  }

  /** `meeting_minutes_backfill_[0-9a-f]{32}` */
  predicate IsBackfillId(id: string) {
    |id| == |PREFIX| + 32 && PREFIX <= id && AllHex(id[|PREFIX|..])
  }

  lemma WordsOfSource(s: Source)
    requires ValidSource(s)
    ensures var units := Units(SourceText(s));
      && Hash(units, FIRST_SEED) < MODULUS && Hash(units, SECOND_SEED) < MODULUS
      && |Word(Hash(units, FIRST_SEED))| == 16 && |Word(Hash(units, SECOND_SEED))| == 16
      && AllHex(Word(Hash(units, FIRST_SEED)) + Word(Hash(units, SECOND_SEED)))
  {
    hide Hash, Word, IsSlackId, IsTimestamp, SourceText, Units;
    var units := Units(SourceText(s));
    HashBound(units, FIRST_SEED);
    HashBound(units, SECOND_SEED);
    WordShape(Hash(units, FIRST_SEED));
    WordShape(Hash(units, SECOND_SEED));
  }

  lemma EventIdIsBackfillId(s: Source)
    requires ValidSource(s)
    ensures IsBackfillId(EventId(s))
  {
    hide Hash, Word, IsSlackId, IsTimestamp, SourceText, Units;
    WordsOfSource(s);
    var words := Word(Hash(Units(SourceText(s)), FIRST_SEED)) + Word(Hash(Units(SourceText(s)), SECOND_SEED));
    assert EventId(s)[|PREFIX|..] == words;
  }

  // ---- The hashed text determines the message ----

  lemma NoNulInDigits(s: string)
    requires AllDigits(s)
    ensures '\0' !in s
  {
  }

  lemma NoNulInTimestamp(s: string)
    requires IsTimestamp(s)
    ensures '\0' !in s
  {
    hide AllDigits;
    if AllDigits(s) {
      NoNulInDigits(s);
    } else {
      var k: nat :| k < |s| && DotAt(s, k);
      NoNulInDigits(s[..k]);
      NoNulInDigits(s[k + 1..]);
      assert s == s[..k] + ['.'] + s[k + 1..];
    }
  }

  lemma NoNul(s: Source)
    requires ValidSource(s)
    ensures '\0' !in s.workspaceId && '\0' !in s.channelId && '\0' !in s.messageTs
  {
    hide IsTimestamp;
    NoNulInTimestamp(s.messageTs);
  }

  lemma RevisionMarked(ts: string, revision: Option<int>)
    requires '\0' !in ts && (revision.Some? ==> revision.value >= 1)
    ensures '\0' in ts + RevisionText(revision) <==> revision.Some?
  {
    assert revision.Some? ==> (ts + RevisionText(revision))[|ts|] == '\0';
  }

  lemma RevisionInjective(m: nat, n: nat)
    requires "recovery:" + Print(m) == "recovery:" + Print(n)
    ensures m == n
  {
    hide Print;
    assert Print(m) == ("recovery:" + Print(m))[9..] && Print(n) == ("recovery:" + Print(n))[9..];
    PrintInjective(m, n);
  }

  lemma Associative(a: string, b: string, c: string)
    ensures a + (b + c) == a + b + c
  {
  }

  /** The step in which a marked revision is split off, once. */
  lemma MarkedRevisions(ts: string, m: nat, ts': string, n: nat)
    requires '\0' !in ts && '\0' !in ts'
    requires ts + (['\0'] + ("recovery:" + Print(m))) == ts' + (['\0'] + ("recovery:" + Print(n)))
    ensures ts == ts' && m == n
  {
    hide *;
    Associative(ts, ['\0'], "recovery:" + Print(m));
    Associative(ts', ['\0'], "recovery:" + Print(n));
    SplitsOnce(ts, "recovery:" + Print(m), ts', "recovery:" + Print(n), '\0');
    RevisionInjective(m, n);
  }

  lemma UnmarkedRevisions(ts: string, ts': string)
    requires ts + RevisionText(None) == ts' + RevisionText(None)
    ensures ts == ts'
  {
    assert ts + "" == ts && ts' + "" == ts';
  }

  lemma TimestampAndRevision(ts: string, revision: Option<int>, ts': string, revision': Option<int>)
    requires '\0' !in ts && '\0' !in ts'
    requires (revision.Some? ==> revision.value >= 1) && (revision'.Some? ==> revision'.value >= 1)
    requires ts + RevisionText(revision) == ts' + RevisionText(revision')
    ensures ts == ts' && revision == revision'
  {
    RevisionMarked(ts, revision);
    RevisionMarked(ts', revision');
    if revision.Some? {
      RevisionTextIs(revision.value);
      RevisionTextIs(revision'.value);
      hide *;
      MarkedRevisions(ts, revision.value, ts', revision'.value);
    } else {
      UnmarkedRevisions(ts, ts');
    }
  }

  lemma RevisionTextIs(n: int)
    requires n >= 1
    ensures RevisionText(Some(n)) == ['\0'] + ("recovery:" + Print(n))
  {
  }

  /** Two messages, or two recovery revisions of one, are never hashed as the same text. */
  lemma SourceTextInjective(s: Source, t: Source)
    requires ValidSource(s) && ValidSource(t) && SourceText(s) == SourceText(t)
    ensures s == t
  {
    NoNul(s);
    NoNul(t);
    hide ValidSource, RevisionText;
    var inner := s.channelId + ['\0'] + (s.messageTs + RevisionText(s.recoveryRevision));
    var inner' := t.channelId + ['\0'] + (t.messageTs + RevisionText(t.recoveryRevision));
    SplitsOnce(s.workspaceId, inner, t.workspaceId, inner', '\0');
    SplitsOnce(s.channelId, s.messageTs + RevisionText(s.recoveryRevision),
               t.channelId, t.messageTs + RevisionText(t.recoveryRevision), '\0');
    TimestampAndRevision(s.messageTs, s.recoveryRevision, t.messageTs, t.recoveryRevision);
  }

  /** Messages whose hashed texts differ in one character get ids that differ in both of their words. */
  lemma OneCharacterChangesTheId(s: Source, t: Source, i: nat)
    requires ValidSource(s) && ValidSource(t) && DifferOnlyAt(Units(SourceText(s)), Units(SourceText(t)), i)
    ensures IsBackfillId(EventId(s)) && IsBackfillId(EventId(t))
    ensures EventId(s)[25..41] != EventId(t)[25..41] && EventId(s)[41..57] != EventId(t)[41..57]
  {
    hide Hash, Word, IsSlackId, IsTimestamp, SourceText, Units, DifferOnlyAt;
    EventIdIsBackfillId(s);
    EventIdIsBackfillId(t);
    IdWords(s);
    IdWords(t);
    OneChangeIsSeen(Units(SourceText(s)), Units(SourceText(t)), i, FIRST_SEED);
    OneChangeIsSeen(Units(SourceText(s)), Units(SourceText(t)), i, SECOND_SEED);
  }

  /** The two words of an id, and the hashes that can be read back from them. */
  lemma IdWords(s: Source)
    requires ValidSource(s)
    ensures |EventId(s)| == 57 && AllHex(EventId(s)[25..41]) && AllHex(EventId(s)[41..57])
    ensures ParseHex(EventId(s)[25..41]) == Hash(Units(SourceText(s)), FIRST_SEED)
    ensures ParseHex(EventId(s)[41..57]) == Hash(Units(SourceText(s)), SECOND_SEED)
  {
    hide Hash, Word, IsSlackId, IsTimestamp, SourceText, Units;
    WordsOfSource(s);
    var units := Units(SourceText(s));
    WordShape(Hash(units, FIRST_SEED));
    WordShape(Hash(units, SECOND_SEED));
    var a, b := Word(Hash(units, FIRST_SEED)), Word(Hash(units, SECOND_SEED));
    assert EventId(s) == PREFIX + (a + b);
    assert EventId(s)[25..41] == a && EventId(s)[41..57] == b;
  }

  // ---- Dispatch ids ----

  /** The id of the queue envelope that carries the event. */
  function DispatchEventId(id: string): (result: Result)
    ensures result.Ok? <==> IsBackfillId(id)
  {
    if !IsBackfillId(id) then Err(EventInvalid) else Ok(DISPATCH_PREFIX + id[|PREFIX|..])
  }

  /** A dispatch id is never a backfill id, and names one backfill id only. */
  lemma DispatchIdsAreApart(id: string, id': string)
    requires IsBackfillId(id) && IsBackfillId(id')
    ensures !IsBackfillId(DispatchEventId(id).eventId)
    ensures DispatchEventId(id) == DispatchEventId(id') ==> id == id'
  {
    var tail, tail' := id[|PREFIX|..], id'[|PREFIX|..];
    assert id == PREFIX + tail && id' == PREFIX + tail';
    assert (DISPATCH_PREFIX + tail)[|DISPATCH_PREFIX|..] == tail;
    assert (DISPATCH_PREFIX + tail')[|DISPATCH_PREFIX|..] == tail';
  }
}
