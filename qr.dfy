/** The patient-id generator (backend/src/utils/qr.js, `generatePatientId`):
    the upper-cased first word of the trimmed name, a dash, and a four-digit
    number from the random draw. */
module Qr {
  import opened Common

  /** The characters JavaScript's `trim` removes and `\s` matches: the
      WhiteSpace and LineTerminator code points. */
  predicate IsSpace(c: char) {
    || c == ' ' || c == '\t' || c == '\n' || c == '\U{000B}' || c == '\U{000C}' || c == '\r'
    || c == '\U{00A0}' || c == '\U{1680}' || ('\U{2000}' <= c <= '\U{200A}')
    || c == '\U{2028}' || c == '\U{2029}' || c == '\U{202F}' || c == '\U{205F}'
    || c == '\U{3000}' || c == '\U{FEFF}'
  }

  predicate NoSpace(s: string) {
    forall i :: 0 <= i < |s| ==> !IsSpace(s[i])
  }

  predicate AllSpace(s: string) {
    forall i :: 0 <= i < |s| ==> IsSpace(s[i])
  }

  lemma AllSpacePrepend(c: char, a: string)
    requires IsSpace(c) && AllSpace(a)
    ensures AllSpace([c] + a)
  {
    assert forall i :: 0 <= i < |a| ==> ([c] + a)[i + 1] == a[i];
  }

  function TrimStart(s: string): (r: string)
    ensures |r| <= |s| && r == s[|s| - |r|..]
    ensures AllSpace(s[..|s| - |r|])
    ensures r == [] || !IsSpace(r[0])
  {
    if s != [] && IsSpace(s[0]) then
      var p := s[1..];
      var r := TrimStart(p);
      assert p[|p| - |r|..] == s[|s| - |r|..];
      assert s[..|s| - |r|] == [s[0]] + p[..|p| - |r|];
      AllSpacePrepend(s[0], p[..|p| - |r|]);
      r
    else s
  }

  lemma AllSpaceAppend(a: string, c: char)
    requires AllSpace(a) && IsSpace(c)
    ensures AllSpace(a + [c])
  {
    assert forall i :: 0 <= i < |a| ==> (a + [c])[i] == a[i];
  }

  function TrimEnd(s: string): (r: string)
    ensures |r| <= |s| && r == s[..|r|]
    ensures AllSpace(s[|r|..])
    ensures r == [] || !IsSpace(r[|r| - 1])
  {
    if s != [] && IsSpace(s[|s| - 1]) then
      var p := s[..|s| - 1];
      var r := TrimEnd(p);
      assert p[..|r|] == s[..|r|];
      assert s[|r|..] == p[|r|..] + [s[|s| - 1]];
      AllSpaceAppend(p[|r|..], s[|s| - 1]);
      r
    else s
  }

  /** `r` stands in `s` at position `k` with only whitespace around it. */
  predicate Framed(s: string, k: nat, r: string) {
    k + |r| <= |s| && s[k..k + |r|] == r && AllSpace(s[..k]) && AllSpace(s[k + |r|..])
  }

  /** `s.trim()`: the text between the leading and the trailing whitespace,
      empty exactly when the text is whitespace throughout. */
  function Trim(s: string): (r: string)
    ensures r == [] <==> AllSpace(s)
    ensures r != [] ==> !IsSpace(r[0]) && !IsSpace(r[|r| - 1])
    ensures exists k: nat :: Framed(s, k, r)
  {
    var t := TrimStart(s);
    var r := TrimEnd(t);
    TrimmedFrame(s, t, r);
    r
  }

  /** What `Trim` states, for any `t` and `r` of the shapes `TrimStart` and
      `TrimEnd` give, with the length of the leading whitespace as the position. */
  lemma TrimmedFrame(s: string, t: string, r: string)
    requires |t| <= |s| && t == s[|s| - |t|..] && AllSpace(s[..|s| - |t|]) && (t == [] || !IsSpace(t[0]))
    requires |r| <= |t| && r == t[..|r|] && AllSpace(t[|r|..])
    ensures r == [] <==> AllSpace(s)
    ensures r != [] ==> !IsSpace(r[0])
    ensures Framed(s, |s| - |t|, r)
    ensures exists k: nat :: Framed(s, k, r)
  {
    var k := |s| - |t|;
    assert s[k..k + |r|] == t[..|r|];
    assert s[k + |r|..] == t[|r|..];
    if r == [] {
      assert s[..k] == s;
    } else {
      assert r[0] == t[0];
    }
    assert Framed(s, k, r);
  }

  /** `s.split(/\s+/)[0]`: the text before the first whitespace character. */
  function FirstField(s: string): (r: string)
    ensures |r| <= |s| && r == s[..|r|]
    ensures NoSpace(r)
    ensures |r| < |s| ==> IsSpace(s[|r|])
  {
    if s == [] || IsSpace(s[0]) then [] else [s[0]] + FirstField(s[1..])
  }

  /** `name.trim().split(/\s+/)[0]` */
  function FirstWord(name: string): string {
    FirstField(Trim(name))
  }

  /** `name` holds the whitespace-free word `w` at position `k`, after
      whitespace only, and followed by whitespace or the end. An empty word
      stands only at the end: the name is whitespace throughout. */
  predicate WordAt(name: string, k: nat, w: string) {
    && k + |w| <= |name| && AllSpace(name[..k]) && name[k..k + |w|] == w && NoSpace(w)
    && (k + |w| == |name| || IsSpace(name[k + |w|]))
    && (w == [] ==> k == |name|)
  }

  /** The first word is the run of non-space characters that follows the
      leading whitespace of the name. */
  lemma FirstWordShape(name: string)
    ensures exists k: nat :: WordAt(name, k, FirstWord(name))
  {
    var s := TrimStart(name);
    var t := TrimEnd(s);
    WordFrame(name, s, t, FirstField(t));
    assert WordAt(name, |name| - |s|, FirstWord(name));
  }

  /** The same, for any `s`, `t` and `w` of the shapes `TrimStart`, `TrimEnd`
      and `FirstField` give. */
  lemma WordFrame(name: string, s: string, t: string, w: string)
    requires |s| <= |name| && s == name[|name| - |s|..] && AllSpace(name[..|name| - |s|])
    requires s == [] || !IsSpace(s[0])
    requires |t| <= |s| && t == s[..|t|] && AllSpace(s[|t|..])
    requires |w| <= |t| && w == t[..|w|] && NoSpace(w) && (|w| < |t| ==> IsSpace(t[|w|]))
    ensures WordAt(name, |name| - |s|, w)
  {
    var k := |name| - |s|;
    assert name[k..k + |w|] == s[..|w|] == w;
    if |w| < |t| {
      assert name[k + |w|] == t[|w|];
    } else if |w| < |s| {
      assert name[k + |w|] == s[|t|..][0];
    }
  }

  lemma {:induction false} WhitespaceNameHasEmptyWord(name: string)
    requires AllSpace(name)
    ensures FirstWord(name) == ""
  {
    if name != [] {
      assert AllSpace(name[1..]);
      WhitespaceNameHasEmptyWord(name[1..]);
    }
  }

  /** `toUpperCase` on the ASCII letters. */
  function UpperChar(c: char): (u: char)
    ensures IsSpace(u) <==> IsSpace(c)
  {
    if 'a' <= c <= 'z' then (c as int - 'a' as int + 'A' as int) as char else c
  }

  function Upper(s: string): (r: string)
    ensures |r| == |s|
    ensures forall i :: 0 <= i < |s| ==> r[i] == UpperChar(s[i])
  {
    if s == [] then [] else [UpperChar(s[0])] + Upper(s[1..])
  }

  predicate IsDigit(c: char) {
    '0' <= c <= '9'
  }

  predicate AllDigits(s: string) {
    forall i :: 0 <= i < |s| ==> IsDigit(s[i])
  }

  function DigitChar(d: nat): (c: char)
    requires d < 10
    ensures IsDigit(c) && c as int - '0' as int == d
  {
    ('0' as int + d) as char
  }

  /** The decimal rendering of a number, as a template literal prints it. */
  function Decimal(n: nat): (s: string)
    ensures |s| >= 1 && AllDigits(s)
  {
    if n < 10 then [DigitChar(n)] else Decimal(n / 10) + [DigitChar(n % 10)]
  }

  /** The value of a string of decimal digits. */
  function DecimalValue(s: string): nat
    requires AllDigits(s)
  {
    if s == [] then 0 else 10 * DecimalValue(s[..|s| - 1]) + (s[|s| - 1] as int - '0' as int)
  }

  lemma {:induction false} DecimalRoundTrip(n: nat)
    ensures DecimalValue(Decimal(n)) == n
  {
    if n >= 10 {
      DecimalRoundTrip(n / 10);
      var s := Decimal(n);
      assert s[..|s| - 1] == Decimal(n / 10);
    }
  }

  lemma FourDigitDecimal(n: nat)
    requires 1000 <= n <= 9999
    ensures |Decimal(n)| == 4
  {
    var a, b, c := n / 10, n / 100, n / 1000;
    assert a / 10 == b && b / 10 == c;
    assert 1 <= c <= 9 && 10 <= b <= 99 && 100 <= a <= 999;
    assert |Decimal(c)| == 1;
    assert |Decimal(b)| == |Decimal(c)| + 1;
    assert |Decimal(a)| == |Decimal(b)| + 1;
    assert |Decimal(n)| == |Decimal(a)| + 1;
  }

  /** `Math.floor(1000 + Math.random() * 9000)`, where `draw` stands for
      `Math.floor(Math.random() * 9000)`, an integer in [0, 8999]. */
  function Suffix(draw: nat): (n: nat)
    requires draw < 9000
    ensures 1000 <= n <= 9999
  {
    1000 + draw
  }

  /** `generatePatientId(name)` with its random draw taken as a parameter. */
  function GeneratePatientId(name: string, draw: nat): (id: string)
    requires draw < 9000
    ensures |id| == |FirstWord(name)| + 5
    ensures id[|id| - 5] == '-' && AllDigits(id[|id| - 4..])
    ensures NoSpace(id[..|id| - 5])
  {
    FourDigitDecimal(Suffix(draw));
    Upper(FirstWord(name)) + "-" + Decimal(Suffix(draw))
  }

  /** Reads a patient id back into its prefix and its number: the dash is the
      fifth character from the end, since the number has four digits. */
  function SplitPatientId(id: string): Option<(string, nat)> {
    if |id| >= 5 && id[|id| - 5] == '-' && AllDigits(id[|id| - 4..]) then
      Some((id[..|id| - 5], DecimalValue(id[|id| - 4..])))
    else
      None
  }

  /** The id carries the upper-cased first word and the suffix, and nothing else. */
  lemma PatientIdRoundTrip(name: string, draw: nat)
    requires draw < 9000
    ensures SplitPatientId(GeneratePatientId(name, draw)) == Some((Upper(FirstWord(name)), 1000 + draw))
  {
    var id := GeneratePatientId(name, draw);
    var w := Upper(FirstWord(name));
    FourDigitDecimal(Suffix(draw));
    assert id[..|id| - 5] == w;
    assert id[|id| - 4..] == Decimal(1000 + draw);
    DecimalRoundTrip(1000 + draw);
  }

  /** A name of whitespace only gives an id that starts with the dash. */
  lemma WhitespaceNameId(name: string, draw: nat)
    requires draw < 9000
    requires AllSpace(name)
    ensures |GeneratePatientId(name, draw)| == 5 && GeneratePatientId(name, draw)[0] == '-'
  {
    WhitespaceNameHasEmptyWord(name);
  }

  /** Nothing makes the id unique: two different names that share a first
      word get the same id from the same draw. */
  lemma SharedFirstWordCollides(c: char, d: char, e: char, draw: nat)
    requires draw < 9000
    requires !IsSpace(c) && !IsSpace(d) && !IsSpace(e)
    ensures GeneratePatientId([c, ' ', d], draw) == GeneratePatientId([c, ' ', e], draw)
  {
    FirstWordOfTwoWords(c, d);
    FirstWordOfTwoWords(c, e);
  }

  lemma FirstWordOfTwoWords(c: char, d: char)
    requires !IsSpace(c) && !IsSpace(d)
    ensures FirstWord([c, ' ', d]) == [c]
  {
    var s := [c, ' ', d];
    assert TrimStart(s) == s;
    assert TrimEnd(s) == s;
    assert s[1..] == [' ', d] && IsSpace(' ');
    assert FirstField(s[1..]) == [];
  }
}
