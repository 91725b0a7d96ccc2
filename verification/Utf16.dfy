/** JavaScript strings as sequences of UTF-16 code units. */
module Utf16 {
  type Unit = n: nat | n < 0x1_0000

  type Text = seq<Unit>

  /** The code units of a text of characters below U+10000; any other becomes the replacement character. */
  function Units(s: string): (t: Text)
    ensures |t| == |s|
  {
    seq(|s|, i requires 0 <= i < |s| => CharUnit(s[i]))
  }

  function CharUnit(c: char): Unit {
    if (c as int) < 0x1_0000 then c as int else 0xfffd
  }

  /** What `String.prototype.trim` removes: white space and line terminators of ECMAScript. */
  predicate IsSpace(u: Unit) {
    || 0x09 <= u <= 0x0d || u == 0x20 || u == 0xa0 || u == 0x1680 || 0x2000 <= u <= 0x200a
    || u == 0x2028 || u == 0x2029 || u == 0x202f || u == 0x205f || u == 0x3000 || u == 0xfeff
  }

  predicate Blank(s: Text) {
    forall i :: 0 <= i < |s| ==> IsSpace(s[i])
  }

  predicate Trimmed(s: Text) {
    s != [] ==> !IsSpace(s[0]) && !IsSpace(s[|s| - 1])
  }

  /** The number of leading white-space units. */
  function Lead(s: Text, from: nat): (n: nat)
    requires from <= |s|
    ensures from <= n <= |s| && (n < |s| ==> !IsSpace(s[n]))
    ensures forall i :: from <= i < n ==> IsSpace(s[i])
    decreases |s| - from
  {
    if from < |s| && IsSpace(s[from]) then Lead(s, from + 1) else from
  }

  /** Where the trailing white space of the first `to` units starts. */
  function Stop(s: Text, to: nat): (n: nat)
    requires to <= |s|
    ensures n <= to && (n > 0 ==> !IsSpace(s[n - 1]))
    ensures forall i :: n <= i < to ==> IsSpace(s[i])
  {
    if to > 0 && IsSpace(s[to - 1]) then Stop(s, to - 1) else to
  }

  lemma LeadIs(s: Text, n: nat)
    requires n <= |s| && (n < |s| ==> !IsSpace(s[n])) && Blank(s[..n])
    ensures Lead(s, 0) == n
  {
    assert forall i :: 0 <= i < n ==> s[i] == s[..n][i];
  }

  lemma StopIs(s: Text, n: nat)
    requires n <= |s| && (n > 0 ==> !IsSpace(s[n - 1])) && Blank(s[n..])
    ensures Stop(s, |s|) == n
  {
    assert forall i :: n <= i < |s| ==> s[i] == s[n..][i - n];
  }

  function TrimStart(s: Text): Text {
    s[Lead(s, 0)..]
  }

  function TrimEnd(s: Text): Text {
    s[..Stop(s, |s|)]
  }

  function Trim(s: Text): (t: Text)
    ensures Trimmed(t) && |t| <= |s|
  {
    TrimEnd(TrimStart(s))
  }

  lemma TrimOfTrimmed(s: Text)
    requires Trimmed(s)
    ensures Trim(s) == s
  {
  }

  /** Only the end is cut off a text that starts with something else than white space. */
  lemma TrimOfStarted(s: Text)
    requires s != [] && !IsSpace(s[0])
    ensures Trim(s) == s[..Stop(s, |s|)] && Trim(s) != []
  {
    assert Lead(s, 0) == 0 && s[0..] == s;
  }

  /** Only the front is cut off a text that ends with something else than white space. */
  lemma TrimOfEnded(s: Text)
    requires s != [] && !IsSpace(s[|s| - 1])
    ensures Trim(s) == s[Lead(s, 0)..] && Trim(s) != []
  {
    var t := s[Lead(s, 0)..];
    assert Lead(s, 0) < |s| && t[|t| - 1] == s[|s| - 1];
    assert Stop(t, |t|) == |t|;
  }
}
