/** Base64 as RFC 4648 section 4 defines it, the lenient decoder, and how both split at quads. */
module Base64 {

  type Byte = b: nat | b < 256
  type Sextet = s: nat | s < 64

  predicate IsSymbol(c: char) {
    'A' <= c <= 'Z' || 'a' <= c <= 'z' || '0' <= c <= '9' || c == '+' || c == '/'
  }

  function ValueOf(c: char): Sextet
    requires IsSymbol(c)
  {
    if 'A' <= c <= 'Z' then c as int - 'A' as int
    else if 'a' <= c <= 'z' then 26 + (c as int - 'a' as int)
    else if '0' <= c <= '9' then 52 + (c as int - '0' as int)
    else if c == '+' then 62 else 63
  }

  /** Table 1 of section 4. */
  function SymbolOf(v: Sextet): (c: char)
    ensures IsSymbol(c) && ValueOf(c) == v
  {
    if v < 26 then (v + 'A' as int) as char
    else if v < 52 then (v - 26 + 'a' as int) as char
    else if v < 62 then (v - 52 + '0' as int) as char
    else if v == 62 then '+' else '/'
  }

  lemma SymbolOfValue(c: char)
    requires IsSymbol(c)
    ensures SymbolOf(ValueOf(c)) == c
  {}

  predicate AllSymbols(s: string) {
    forall k :: 0 <= k < |s| ==> IsSymbol(s[k])
  }

  // ----- encoding -----

  /** Three bytes are four groups of six bits. */
  function Quad(b: seq<Byte>): (s: string)
    requires |b| == 3
    ensures |s| == 4 && AllSymbols(s)
  {
    [SymbolOf(b[0] / 4), SymbolOf(b[0] % 4 * 16 + b[1] / 16), SymbolOf(b[1] % 16 * 4 + b[2] / 64), SymbolOf(b[2] % 64)]
  }

  /** One or two last bytes, filled up with zero bits. */
  function Rest(b: seq<Byte>): (s: string)
    requires |b| < 3
    ensures AllSymbols(s) && |s| == if b == [] then 0 else |b| + 1
  {
    if |b| == 0 then ""
    else if |b| == 1 then [SymbolOf(b[0] / 4), SymbolOf(b[0] % 4 * 16)]
    else [SymbolOf(b[0] / 4), SymbolOf(b[0] % 4 * 16 + b[1] / 16), SymbolOf(b[1] % 16 * 4)]
  }

  /** The symbols of a byte string, without padding. */
  function Symbols(b: seq<Byte>): (s: string)
    ensures AllSymbols(s) && |s| == (4 * |b| + 2) / 3
  {
    if |b| < 3 then Rest(b) else Quad(b[..3]) + Symbols(b[3..])
  }

  function PadFor(symbols: nat): (p: nat)
    ensures (symbols + p) % 4 == 0 && p < 4
  {
    (4 - symbols % 4) % 4
  }

  function Pads(n: nat): (s: string)
    ensures |s| == n && forall k :: 0 <= k < n ==> s[k] == '='
  {
    seq(n, _ => '=')
  }

  /** With padding, as section 4 requires it. */
  function Encode(b: seq<Byte>): string {
    Symbols(b) + Pads(PadFor(|Symbols(b)|))
  }

  /** The length a caller can announce before encoding. */
  lemma EncodedLength(b: seq<Byte>)
    ensures |Encode(b)| == 4 * ((|b| + 2) / 3)
  {}

  /** Encoding splits wherever the bytes before are whole triples. */
  lemma {:induction false} SymbolsSplit(a: seq<Byte>, b: seq<Byte>)
    requires |a| % 3 == 0
    ensures Symbols(a + b) == Symbols(a) + Symbols(b)
  {
    hide Quad, Rest;
    if a == [] {
      assert a + b == b;
    } else {
      SymbolsSplit(a[3..], b);
      assert (a + b)[3..] == a[3..] + b && (a + b)[..3] == a[..3];
      assert Symbols(a + b) == Quad(a[..3]) + (Symbols(a[3..]) + Symbols(b));
    }
  }

  // ----- decoding -----

  function Triple(s: string): (b: seq<Byte>)
    requires |s| == 4 && AllSymbols(s)
    ensures |b| == 3
  {
    [ValueOf(s[0]) * 4 + ValueOf(s[1]) / 16, ValueOf(s[1]) % 16 * 16 + ValueOf(s[2]) / 4,
     ValueOf(s[2]) % 4 * 64 + ValueOf(s[3])]
  }

  function LastBytes(s: string): (b: seq<Byte>)
    requires |s| < 4 && AllSymbols(s)
    ensures |b| == |s| * 3 / 4
  {
    if |s| < 2 then []
    else if |s| == 2 then [ValueOf(s[0]) * 4 + ValueOf(s[1]) / 16]
    else [ValueOf(s[0]) * 4 + ValueOf(s[1]) / 16, ValueOf(s[1]) % 16 * 16 + ValueOf(s[2]) / 4]
  }

  /** The bytes of a symbol string; bits beyond the last whole byte are dropped. */
  function Bytes(s: string): (b: seq<Byte>)
    requires AllSymbols(s)
    ensures |b| == |s| * 3 / 4
  {
    if |s| < 4 then LastBytes(s) else Triple(s[..4]) + Bytes(s[4..])
  }

  lemma Ungroup(x: Byte, y: Byte, z: Byte)
    ensures var a, b, c, d := x / 4, x % 4 * 16 + y / 16, y % 16 * 4 + z / 64, z % 64;
            b / 16 == x % 4 && b % 16 == y / 16 && c / 4 == y % 16 && c % 4 == z / 64 && b < 64 && c < 64
  {
    assert y / 16 < 16 && z / 64 < 4;
  }

  lemma TripleOfQuad(b: seq<Byte>)
    requires |b| == 3
    ensures Triple(Quad(b)) == b
  {
    hide SymbolOf, ValueOf;
    var x: int, y: int, z: int := b[0], b[1], b[2];
    Ungroup(b[0], b[1], b[2]);
    var s := Quad(b);
    assert ValueOf(s[0]) == x / 4 && ValueOf(s[1]) == x % 4 * 16 + y / 16 && ValueOf(s[2]) == y % 16 * 4 + z / 64
           && ValueOf(s[3]) == z % 64;
    hide Quad;
    assert x == x / 4 * 4 + x % 4 && y == y / 16 * 16 + y % 16 && z == z / 64 * 64 + z % 64;
  }

  /** Twenty-four bits, cut in four and cut in three. */
  lemma Regroup(a: Sextet, b: Sextet, c: Sextet, d: Sextet)
    ensures var x, y, z := a * 4 + b / 16, b % 16 * 16 + c / 4, c % 4 * 64 + d;
            x / 4 == a && x % 4 == b / 16 && y / 16 == b % 16 && y % 16 == c / 4 && z / 64 == c % 4 && z % 64 == d
  {
    assert b / 16 < 4 && c / 4 < 16;
  }

  lemma QuadOfTriple(s: string)
    requires |s| == 4 && AllSymbols(s)
    ensures Quad(Triple(s)) == s
  {
    hide SymbolOf, ValueOf;
    var a: int, b: int, c: int, d: int := ValueOf(s[0]), ValueOf(s[1]), ValueOf(s[2]), ValueOf(s[3]);
    Regroup(a, b, c, d);
    var t := Triple(s);
    assert t[0] == a * 4 + b / 16 && t[1] == b % 16 * 16 + c / 4 && t[2] == c % 4 * 64 + d;
    hide Triple;
    assert t[0] / 4 == a && t[0] % 4 * 16 + t[1] / 16 == b && t[1] % 16 * 4 + t[2] / 64 == c && t[2] % 64 == d;
    SymbolOfValue(s[0]);
    SymbolOfValue(s[1]);
    SymbolOfValue(s[2]);
    SymbolOfValue(s[3]);
  }

  lemma LastBytesOfRest(b: seq<Byte>)
    requires |b| < 3
    ensures LastBytes(Rest(b)) == b
  {
    hide SymbolOf, ValueOf;
    if |b| > 0 { RestBits(b[0], if |b| == 2 then b[1] else 0); }
  }

  lemma RestBits(x: Byte, y: Byte)
    ensures x / 4 * 4 + x % 4 * 16 / 16 == x && x % 4 * 16 < 64
    ensures var v := x % 4 * 16 + y / 16; v < 64 && x / 4 * 4 + v / 16 == x && v % 16 * 16 + y % 16 * 4 / 4 == y
  {
    assert y / 16 < 16;
  }

  /** How many symbols stand before the first padding character. */
  function SymbolCount(text: string): (n: nat)
    ensures n <= |text| && (forall k :: 0 <= k < n ==> text[k] != '=') && (n < |text| ==> text[n] == '=')
  {
    if text == "" || text[0] == '=' then 0 else 1 + SymbolCount(text[1..])
  }

  lemma {:induction false} BytesSplit(s: string, t: string)
    requires AllSymbols(s) && AllSymbols(t) && |s| % 4 == 0
    ensures AllSymbols(s + t) && Bytes(s + t) == Bytes(s) + Bytes(t)
  {
    hide Triple, LastBytes;
    if s == "" {
      assert s + t == t;
    } else {
      BytesSplit(s[4..], t);
      assert (s + t)[4..] == s[4..] + t && (s + t)[..4] == s[..4];
      assert Bytes(s + t) == Triple(s[..4]) + (Bytes(s[4..]) + Bytes(t));
    }
  }

  /** Decoding undoes encoding. */
  lemma {:induction false} BytesOfSymbols(b: seq<Byte>)
    ensures Bytes(Symbols(b)) == b
  {
    hide Triple, LastBytes, Quad, Rest, IsSymbol;
    if |b| < 3 {
      LastBytesOfRest(b);
    } else {
      var s := Symbols(b);
      assert s[..4] == Quad(b[..3]) && s[4..] == Symbols(b[3..]);
      TripleOfQuad(b[..3]);
      BytesOfSymbols(b[3..]);
      assert b == b[..3] + b[3..];
    }
  }

  /** Encoding undoes decoding, on whole quads. */
  lemma {:induction false} SymbolsOfQuads(s: string)
    requires AllSymbols(s) && |s| % 4 == 0
    ensures Symbols(Bytes(s)) == s
  {
    hide Triple, LastBytes, Quad, Rest, IsSymbol;
    if s == "" {
      assert Symbols(Bytes(s)) == "";
    } else {
      var b := Bytes(s);
      assert b[..3] == Triple(s[..4]) && b[3..] == Bytes(s[4..]);
      QuadOfTriple(s[..4]);
      SymbolsOfQuads(s[4..]);
      assert s == s[..4] + s[4..];
    }
  }

  // ----- canonical texts -----

  /** Some byte string has exactly these symbols: no lone symbol, no stray bits at the end. */
  predicate Canonical(s: string)
    requires AllSymbols(s)
  {
    Symbols(Bytes(s)) == s
  }

  lemma CanonicalMeans(s: string, b: seq<Byte>)
    requires AllSymbols(s)
    ensures s == Symbols(b) ==> Canonical(s) && Bytes(s) == b
  {
    BytesOfSymbols(b);
  }

  /** Only the last, incomplete quad can make a text non-canonical. */
  lemma CanonicalTail(s: string, t: string)
    requires AllSymbols(s) && AllSymbols(t) && |s| % 4 == 0
    ensures AllSymbols(s + t) && (Canonical(s + t) <==> Canonical(t))
  {
    hide Bytes, Symbols, IsSymbol;
    BytesSplit(s, t);
    SymbolsOfQuads(s);
    SymbolsSplit(Bytes(s), Bytes(t));
    var u := Symbols(Bytes(t));
    assert Canonical(s + t) <==> s + u == s + t;
    if s + u == s + t { assert u == (s + u)[|s|..] == (s + t)[|s|..] == t; }
  }

  /** A text without white space that RFC 4648 admits as canonical, padded in full (section 3.2) or not at all. */
  ghost predicate Admissible(text: string) {
    exists b: seq<Byte> :: |b| > 0 && Spells(text, b)
  }

  predicate Spells(text: string, b: seq<Byte>) {
    text == Encode(b) || text == Symbols(b)
  }

  /** A text stands for one byte string only. */
  lemma SpellsOne(text: string, a: seq<Byte>, b: seq<Byte>)
    requires Spells(text, a) && Spells(text, b)
    ensures a == b
  {
    SpelledSymbols(text, a);
    SpelledSymbols(text, b);
    BytesOfSymbols(a);
    BytesOfSymbols(b);
  }

  lemma SpelledSymbols(text: string, b: seq<Byte>)
    requires Spells(text, b)
    ensures SymbolCount(text) == |Symbols(b)| && text[..SymbolCount(text)] == Symbols(b)
  {
    var s := Symbols(b);
    assert text[..|s|] == s;
    SymbolsStop(text, |s|);
  }

  lemma {:induction false} SymbolsStop(text: string, n: nat)
    requires n <= |text| && AllSymbols(text[..n]) && forall k :: n <= k < |text| ==> text[k] == '='
    ensures SymbolCount(text) == n
  {
    if n > 0 {
      assert text[0] == text[..n][0];
      assert text[1..][..n - 1] == text[..n][1..];
      SymbolsStop(text[1..], n - 1);
    }
  }

  /** The two ways of telling an admissible text: by what it spells, and by counting. */
  lemma AdmissibleMeans(text: string, n: nat)
    requires n <= |text| && AllSymbols(text[..n]) && forall k :: n <= k < |text| ==> text[k] == '='
    ensures Admissible(text) <==> n > 0 && Canonical(text[..n]) && (|text| == n || |text| == n + PadFor(n))
    ensures Admissible(text) ==> Spells(text, Bytes(text[..n]))
  {
    hide Bytes, Symbols, IsSymbol, SymbolCount;
    var s := text[..n];
    if Admissible(text) {
      var b: seq<Byte> :| |b| > 0 && Spells(text, b);
      SpelledSymbols(text, b);
      SymbolsStop(text, n);
      CanonicalMeans(s, b);
    }
    if n > 0 && Canonical(s) && (|text| == n || |text| == n + PadFor(n)) {
      assert text == s + text[n..];
      assert text[n..] == Pads(|text| - n);
      CanonicalNotEmpty(s);
      assert Spells(text, Bytes(s));
    }
  }

  lemma CanonicalNotEmpty(s: string)
    requires AllSymbols(s) && s != "" && Canonical(s)
    ensures |Bytes(s)| > 0
  {}
}
