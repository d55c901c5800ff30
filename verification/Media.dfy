/**
 The media pipeline: a base64 text checked chunk by chunk, decoded to a file chunk by chunk,
 and re-encoded from the file's own chunks into a request body of announced length.
 */
module Media {
  import opened Base64

  predicate IsBlank(c: char) {
    c == '\t' || c == '\n' || c == '\r' || c == ' '
  }

  /** The text without white space. */
  function Compact(s: string): (t: string)
    ensures |t| <= |s|
  {
    if s == "" then "" else if IsBlank(s[0]) then Compact(s[1..]) else [s[0]] + Compact(s[1..])
  }

  lemma {:induction false} CompactSplit(a: string, b: string)
    ensures Compact(a + b) == Compact(a) + Compact(b)
  {
    if a == "" {
      assert a + b == b;
    } else {
      assert (a + b)[1..] == a[1..] + b;
      CompactSplit(a[1..], b);
    }
  }

  lemma CompactNext(value: string, from: nat, i: nat, j: nat)
    requires from <= i <= j <= |value|
    ensures Compact(value[from..j]) == Compact(value[from..i]) + Compact(value[i..j])
  {
    assert value[from..j] == value[from..i] + value[i..j];
    CompactSplit(value[from..i], value[i..j]);
  }

  // ----- shapes -----

  /** Symbols, then padding characters. */
  predicate Shaped(text: string, n: nat) {
    n <= |text| && AllSymbols(text[..n]) && forall k :: n <= k < |text| ==> text[k] == '='
  }

  /** What one chunk must look like, and what it must be once padding has begun. */
  predicate PartFits(part: string, padded: bool) {
    var n := SymbolCount(part);
    Shaped(part, n) && |part| - n <= 2 && (padded ==> n == 0)
  }

  lemma PaddingIsShort(b: seq<Byte>)
    ensures PadFor(|Symbols(b)|) <= 2 && |Symbols(b)| % 4 != 1
  {
    hide Symbols;
    var q := |b| / 3;
    if |b| % 3 == 0 { assert |Symbols(b)| == 4 * q; }
    else if |b| % 3 == 1 { assert |Symbols(b)| == 4 * q + 2; }
    else { assert |Symbols(b)| == 4 * q + 3; }
  }

  lemma AdmissibleShape(text: string) returns (n: nat)
    requires Admissible(text)
    ensures Shaped(text, n) && |text| - n <= 2 && n > 0 && (|text| == n || (|text| - n == PadFor(n) && |text| % 4 == 0))
  {
    hide Symbols, Bytes, SymbolCount, IsSymbol, PadFor, Canonical;
    var b: seq<Byte> :| |b| > 0 && Spells(text, b);
    n := |Symbols(b)|;
    assert text[..n] == Symbols(b);
    PaddingIsShort(b);
  }

  lemma SymbolIsNoPad(text: string, m: nat, k: nat)
    requires Shaped(text, m) && k < m
    ensures text[k] != '='
  {
    assert text[k] == text[..m][k];
  }

  /** A chunk out of an admissible text fits what stands before it. */
  lemma PartOfAdmissible(before: string, part: string, after: string, n: nat)
    requires Admissible(before + part + after) && Shaped(before, n)
    ensures PartFits(part, n < |before|)
  {
    var text := before + part + after;
    var m := AdmissibleShape(text);
    var k := if m <= |before| then 0 else if m - |before| <= |part| then m - |before| else |part|;
    assert part == text[|before|..|before| + |part|];
    assert Shaped(part, k) by {
      forall j | 0 <= j < k ensures IsSymbol(part[j]) { assert part[j] == text[..m][|before| + j]; }
    }
    SymbolsStop(part, k);
    if n < |before| {
      assert text[n] == before[n];
      if n < m { SymbolIsNoPad(text, m, n); }
    }
  }

  /** Appending a fitting chunk keeps the shape. */
  lemma ShapeGrows(before: string, n: nat, part: string)
    requires Shaped(before, n) && PartFits(part, n < |before|)
    ensures n == |before| ==> Shaped(before + part, n + SymbolCount(part))
    ensures n < |before| ==> Shaped(before + part, n) && SymbolCount(part) == 0
  {
    var text := before + part;
    if n == |before| {
      assert text[..n + SymbolCount(part)] == before[..n] + part[..SymbolCount(part)];
    } else {
      assert text[..n] == before[..n];
    }
  }

  // ----- the validator -----

  datatype Inspection = Accepted(bytes: nat) | Invalid | TooLarge

  function LastFour(s: string): string {
    if |s| <= 4 then s else s[|s| - 4..]
  }

  lemma LastFourGrows(a: string, b: string)
    ensures LastFour(LastFour(a) + b) == LastFour(a + b)
  {}

  /** More symbols than the limit allows already, whatever follows. */
  lemma AlreadyTooLarge(before: string, n: nat, after: string, b: seq<Byte>)
    requires Shaped(before, n) && Spells(before + after, b)
    ensures n * 3 / 4 <= |b|
  {
    var text := before + after;
    SpelledSymbols(text, b);
    var m := SymbolCount(text);
    BytesOfSymbols(b);
    assert |b| == m * 3 / 4;
    if m < n {
      assert text[m] == before[m];
      SymbolIsNoPad(before, n, m);
    }
  }

  lemma Nothing(value: string, offset: nat)
    requires offset <= |value|
    ensures Compact(value[offset..offset]) == "" && LastFour("") == "" && Shaped("", 0)
  {
    assert value[offset..offset] == "";
  }

  lemma Remaining(value: string, from: nat, next: nat)
    requires from <= next <= |value|
    ensures Compact(value[from..]) == Compact(value[from..next]) + Compact(value[next..])
  {
    assert value[from..] == value[from..next] + value[next..];
    CompactSplit(value[from..next], value[next..]);
  }

  function Min(a: nat, b: nat): nat { if a < b then a else b }

  /**
   Which of the two errors comes first, chunk by chunk: a chunk that does not fit what stands
   before it is found before the size is looked at, and the size before the end of the text.
   */
  ghost function Verdict(seen: string, rest: string, chunk: nat, maxBytes: nat): Inspection
    requires chunk > 0
    decreases |rest|
  {
    if rest == "" then (if Admissible(seen) then Accepted(SymbolCount(seen) * 3 / 4) else Invalid)
    else
      var part := Compact(rest[..Min(chunk, |rest|)]);
      if !PartFits(part, SymbolCount(seen) < |seen|) then Invalid
      else if SymbolCount(seen + part) * 3 / 4 > maxBytes then TooLarge
      else Verdict(seen + part, rest[Min(chunk, |rest|)..], chunk, maxBytes)
  }

  lemma CountIs(text: string, n: nat)
    requires Shaped(text, n)
    ensures SymbolCount(text) == n
  {
    SymbolsStop(text, n);
  }

  lemma VerdictNext(value: string, i: nat, next: nat, chunk: nat)
    requires i < |value| && chunk > 0 && next == if i + chunk < |value| then i + chunk else |value|
    ensures value[i..] != "" && value[i..][..Min(chunk, |value[i..]|)] == value[i..next]
            && value[i..][Min(chunk, |value[i..]|)..] == value[next..]
  {}

  /**
   Accepts exactly the admissible texts within the limit, and returns their decoded length,
   wherever the chunks happen to cut the text.
   */
  method InspectBase64(value: string, offset: nat, maxBytes: nat, chunk: nat) returns (r: Inspection)
    requires offset <= |value| && chunk > 0
    ensures r.Accepted? <==> exists b: seq<Byte> :: 0 < |b| <= maxBytes && Spells(Compact(value[offset..]), b)
    ensures r.Accepted? ==> r.bytes <= maxBytes && forall b: seq<Byte> ::
                              Spells(Compact(value[offset..]), b) ==> |b| == r.bytes
    ensures Admissible(Compact(value[offset..])) ==> !r.Invalid?
    ensures r == Verdict("", value[offset..], chunk, maxBytes)
  {
    hide Verdict, Symbols, Bytes, IsSymbol, Compact, Spells, LastFour, PadFor, PartFits, SymbolCount;
    ghost var text := Compact(value[offset..]);
    ghost var seen := "";
    Nothing(value, offset);
    var length, padding, padded, tail := 0, 0, false, "";
    var i := offset;
    while i < |value|
      invariant offset <= i <= |value|
      invariant seen == Compact(value[offset..i])
      invariant length == |seen| && padding <= length && (padded <==> padding > 0)
      invariant Shaped(seen, length - padding)
      invariant tail == LastFour(seen)
      invariant (length - padding) * 3 / 4 <= maxBytes
      invariant Verdict("", value[offset..], chunk, maxBytes) == Verdict(seen, value[i..], chunk, maxBytes)
    {
      var next := if i + chunk < |value| then i + chunk else |value|;
      var part := Compact(value[i..next]);
      CompactNext(value, offset, i, next);
      ghost var after := Compact(value[next..]);
      Remaining(value, offset, next);
      assert text == seen + part + after;
      CountIs(seen, length - padding);
      VerdictNext(value, i, next, chunk);
      OneChunk(seen, value[i..], chunk, maxBytes, part, value[next..]);
      if !PartFits(part, padded) {
        if Admissible(text) { PartOfAdmissible(seen, part, after, length - padding); }
        return Invalid;
      }
      var equals := SymbolCount(part);
      ShapeGrows(seen, length - padding, part);
      LastFourGrows(seen, part);
      if equals < |part| {
        padding := padding + |part| - equals;
        padded := true;
      }
      length := length + |part|;
      tail := LastFour(tail + part);
      seen := seen + part;
      CountIs(seen, length - padding);
      if (length - padding) * 3 / 4 > maxBytes {
        forall b: seq<Byte> | Spells(text, b) ensures |b| > maxBytes {
          AlreadyTooLarge(seen, length - padding, after, b);
        }
        return TooLarge;
      }
      i := next;
    }
    assert value[offset..i] == value[offset..];
    r := Conclude(seen, length, padding, tail);
    CountIs(seen, length - padding);
    LastChunk(seen, value[i..], chunk, maxBytes);
    Concluded(seen, length - padding, r, maxBytes);
  }

  lemma OneChunk(seen: string, rest: string, chunk: nat, maxBytes: nat, part: string, left: string)
    requires chunk > 0 && rest != "" && part == Compact(rest[..Min(chunk, |rest|)])
             && left == rest[Min(chunk, |rest|)..]
    ensures Verdict(seen, rest, chunk, maxBytes) ==
            if !PartFits(part, SymbolCount(seen) < |seen|) then Invalid
            else if SymbolCount(seen + part) * 3 / 4 > maxBytes then TooLarge
            else Verdict(seen + part, left, chunk, maxBytes)
  {
    hide Compact, SymbolCount, PartFits;
  }

  lemma LastChunk(seen: string, rest: string, chunk: nat, maxBytes: nat)
    requires chunk > 0 && rest == ""
    ensures Verdict(seen, rest, chunk, maxBytes) == if Admissible(seen) then Accepted(SymbolCount(seen) * 3 / 4)
                                                    else Invalid
  {
    hide Compact, SymbolCount, PartFits;
  }

  /** The checks after the last chunk, on the counters and the last four characters. */
  method Conclude(ghost text: string, length: nat, padding: nat, tail: string) returns (r: Inspection)
    requires length == |text| && padding <= length && Shaped(text, length - padding) && tail == LastFour(text)
    ensures r == if Admissible(text) then Accepted((length - padding) * 3 / 4) else Invalid
  {
    hide Symbols, Bytes, SymbolCount, IsSymbol, Canonical, Admissible, LastFour;
    var useful := length - padding;
    AdmissibleMeans(text, useful);
    if useful % 4 == 1 { NeverOneOver(text[..useful]); }
    if length == 0 || padding > 2 || useful % 4 == 1 || (padding > 0 && length % 4 != 0)
       || (padding > 0 && padding != (4 - useful % 4) % 4) {
      return Invalid;
    }
    ghost var cut := if useful % 4 != 0 then useful - useful % 4 else useful - 4;
    TailHolds(text, useful, cut);
    var final := if useful % 4 != 0 then tail[|tail| - (useful % 4 + padding)..] else tail;
    assert final == text[cut..];
    assert Shaped(final, useful - cut) by { SuffixShaped(text, useful, cut); }
    var bare := Stripped(final, useful - cut);
    assert bare == text[cut..useful];
    assert text[..useful] == text[..cut] + bare;
    assert AllSymbols(text[..cut]) by { PrefixSymbols(text, useful, cut); }
    CanonicalTail(text[..cut], bare);
    assert Canonical(bare) <==> Symbols(Bytes(bare)) == bare by { CanonicalIs(bare); }
    if Symbols(Bytes(bare)) != bare { return Invalid; }
    return Accepted(useful * 3 / 4);
  }

  lemma CanonicalIs(s: string)
    requires AllSymbols(s)
    ensures Canonical(s) <==> Symbols(Bytes(s)) == s
  {
    hide Symbols, Bytes;
  }

  /** The last incomplete quad and its padding, or the last quad, lies within the last four characters. */
  lemma TailHolds(text: string, useful: nat, cut: nat)
    requires useful <= |text| && |text| - useful <= 2
             && (|text| == useful || (|text| - useful == PadFor(useful) && |text| % 4 == 0)) && |text| > 0
    requires useful % 4 != 1 && cut as int == if useful % 4 != 0 then useful - useful % 4 else useful - 4
    ensures cut % 4 == 0
    ensures var tail := LastFour(text);
            if useful % 4 != 0
              then useful % 4 + (|text| - useful) <= |tail|
                   && tail[|tail| - (useful % 4 + (|text| - useful))..] == text[cut..]
            else tail == text[cut..]
  {}

  lemma SuffixShaped(text: string, useful: nat, cut: nat)
    requires Shaped(text, useful) && cut <= useful
    ensures Shaped(text[cut..], useful - cut)
  {
    forall k | 0 <= k < useful - cut ensures IsSymbol(text[cut..][k]) {
      assert text[cut..][k] == text[..useful][cut + k];
    }
  }

  lemma PrefixSymbols(text: string, useful: nat, cut: nat)
    requires Shaped(text, useful) && cut <= useful
    ensures AllSymbols(text[..cut])
  {
    forall k | 0 <= k < cut ensures IsSymbol(text[..cut][k]) { assert text[..cut][k] == text[..useful][k]; }
  }

  /** The symbols before the padding characters at the end. */
  method Stripped(final: string, ghost n: nat) returns (bare: string)
    requires Shaped(final, n)
    ensures bare == final[..n] && AllSymbols(bare)
  {
    SymbolsStop(final, n);
    bare := final[..SymbolCount(final)];
  }

  lemma NeverOneOver(s: string)
    requires AllSymbols(s) && |s| % 4 == 1
    ensures !Canonical(s)
  {}

  lemma Concluded(text: string, n: nat, r: Inspection, maxBytes: nat)
    requires Shaped(text, n) && n * 3 / 4 <= maxBytes
    requires r == if Admissible(text) then Accepted(n * 3 / 4) else Invalid
    ensures r.Accepted? <==> exists b: seq<Byte> :: 0 < |b| <= maxBytes && Spells(text, b)
    ensures r.Accepted? ==> forall b: seq<Byte> :: Spells(text, b) ==> |b| == r.bytes
  {
    AdmissibleMeans(text, n);
    if Admissible(text) {
      var b := Bytes(text[..n]);
      assert Spells(text, b);
      forall a: seq<Byte> | Spells(text, a) ensures a == b { SpellsOne(text, a, b); }
    }
  }

  // ----- the decoder -----

  function Flatten(blocks: seq<seq<Byte>>): seq<Byte> {
    if blocks == [] then [] else blocks[0] + Flatten(blocks[1..])
  }

  lemma {:induction false} FlattenAppend(blocks: seq<seq<Byte>>, last: seq<Byte>)
    ensures Flatten(blocks + [last]) == Flatten(blocks) + last
  {
    if blocks == [] {
      assert blocks + [last] == [last];
      assert [last][1..] == [];
    } else {
      assert (blocks + [last])[1..] == blocks[1..] + [last];
      FlattenAppend(blocks[1..], last);
    }
  }

  /** The runtime's decoder: it stops at the first padding character. */
  function FromBase64(text: string): seq<Byte>
    requires AllSymbols(text[..SymbolCount(text)])
  {
    Bytes(text[..SymbolCount(text)])
  }

  /** How far the symbols among the first `k` characters go. */
  function Useful(n: nat, k: nat): nat {
    if k <= n then k else n
  }

  lemma UsefulSymbols(text: string, n: nat, k: nat)
    requires Shaped(text, n) && k <= |text|
    ensures Useful(n, k) <= |text| && AllSymbols(text[..Useful(n, k)])
  {
    PrefixSymbols(text, n, Useful(n, k));
  }

  /** Decoding a run of whole quads, or the end of the text, continues what was decoded before it. */
  lemma DecodesNext(text: string, n: nat, d: nat, e: nat)
    requires Shaped(text, n) && d <= e <= |text| && d % 4 == 0 && d <= n
    ensures AllSymbols(text[d..e][..SymbolCount(text[d..e])])
    ensures AllSymbols(text[..Useful(n, d)]) && AllSymbols(text[..Useful(n, e)])
    ensures Bytes(text[..Useful(n, e)]) == Bytes(text[..Useful(n, d)]) + FromBase64(text[d..e])
  {
    hide Bytes, IsSymbol, SymbolCount;
    UsefulSymbols(text, n, d);
    UsefulSymbols(text, n, e);
    var m := Useful(n, e) - d;
    SuffixShaped(text, n, d);
    var piece := text[d..e];
    assert piece == text[d..][..e - d];
    assert piece[..m] == text[d..][..n - d][..m];
    assert Shaped(piece, m);
    SymbolsStop(piece, m);
    BytesSplit(text[..d], piece[..m]);
    assert text[..Useful(n, e)] == text[..d] + piece[..m];
  }

  /** The blocks so far are the bytes of the first `d` characters. */
  ghost predicate DecodedTo(text: string, n: nat, d: nat, blocks: seq<seq<Byte>>) {
    d <= |text| && AllSymbols(text[..Useful(n, d)]) && Flatten(blocks) == Bytes(text[..Useful(n, d)])
  }

  lemma DecodedNext(text: string, n: nat, d: nat, e: nat, blocks: seq<seq<Byte>>)
    requires Shaped(text, n) && |text| - n <= 2 && (|text| == n || |text| % 4 == 0)
    requires d % 4 == 0 && d < e <= |text| && DecodedTo(text, n, d, blocks)
    ensures AllSymbols(text[d..e][..SymbolCount(text[d..e])])
    ensures DecodedTo(text, n, e, blocks + [FromBase64(text[d..e])])
  {
    hide Bytes, IsSymbol, SymbolCount, Flatten;
    BeforePadding(text, n, d, e);
    DecodesNext(text, n, d, e);
    FlattenAppend(blocks, FromBase64(text[d..e]));
  }

  lemma DecodedAll(text: string, n: nat, blocks: seq<seq<Byte>>)
    requires Admissible(text) && Shaped(text, n) && DecodedTo(text, n, |text|, blocks)
    ensures Spells(text, Flatten(blocks))
  {
    hide Symbols, Bytes;
    AdmissibleMeans(text, n);
  }

  /** Of what was read, all but the last incomplete quad is decoded. */
  ghost predicate Cursor(text: string, read: string, done: nat, carry: string) {
    && |read| <= |text| && read == text[..|read|]
    && done + |carry| == |read| && carry == text[done..|read|] && done % 4 == 0 && |carry| < 4
  }

  lemma CursorNext(text: string, read: string, done: nat, carry: string, more: string, rest: string, k: nat)
    requires Cursor(text, read, done, carry) && text == read + more + rest && k == |carry + more| - |carry + more| % 4
    ensures Cursor(text, read + more, done + k, (carry + more)[k..])
    ensures done + k <= |text| && (carry + more)[..k] == text[done..done + k]
  {
    assert read + more == text[..|read + more|];
    assert text[done..|read + more|] == carry + more by { assert text[done..|read + more|] == (read + more)[done..]; }
    QuadsAdd(done, k);
  }

  lemma QuadsAdd(x: nat, y: nat)
    requires x % 4 == 0 && y % 4 == 0
    ensures (x + y) % 4 == 0
  {}

  /** Decodes the whole quads of a part, and carries the rest. */
  method TakeQuads(part: string, ghost text: string, ghost n: nat, ghost done: nat, blocks: seq<seq<Byte>>)
    returns (more: seq<seq<Byte>>, carry: string)
    requires Shaped(text, n) && |text| - n <= 2 && (|text| == n || |text| % 4 == 0)
    requires done % 4 == 0 && DecodedTo(text, n, done, blocks)
    requires var k := |part| - |part| % 4; done + k <= |text| && part[..k] == text[done..done + k]
    ensures carry == part[|part| - |part| % 4..] && DecodedTo(text, n, done + (|part| - |part| % 4), more)
  {
    hide Bytes, IsSymbol, SymbolCount, Flatten, DecodedTo, Shaped;
    var aligned := |part| - |part| % 4;
    more := blocks;
    if aligned > 0 {
      DecodedNext(text, n, done, done + aligned, blocks);
      more := more + [FromBase64(part[..aligned])];
    }
    carry := part[aligned..];
  }

  /** Yields blocks that together are the bytes the text spells, wherever the chunks cut it. */
  method DecodeBase64(value: string, offset: nat, chunk: nat) returns (blocks: seq<seq<Byte>>)
    requires offset <= |value| && chunk > 0 && Admissible(Compact(value[offset..]))
    ensures Spells(Compact(value[offset..]), Flatten(blocks))
  {
    hide Symbols, Bytes, IsSymbol, Compact, Spells, PadFor, SymbolCount, Flatten, DecodedTo, Shaped, Admissible, Cursor;
    ghost var text := Compact(value[offset..]);
    ghost var n := AdmissibleShape(text);
    var carry := "";
    blocks := [];
    ghost var done: nat := 0;
    Nothing(value, offset);
    NothingDecoded(text, n);
    var i := offset;
    while i < |value|
      invariant offset <= i <= |value| && done % 4 == 0
      invariant Cursor(text, Compact(value[offset..i]), done, carry)
      invariant DecodedTo(text, n, done, blocks)
    {
      var next := if i + chunk < |value| then i + chunk else |value|;
      CompactNext(value, offset, i, next);
      Remaining(value, offset, next);
      var part := carry + Compact(value[i..next]);
      ghost var k := |part| - |part| % 4;
      CursorNext(text, Compact(value[offset..i]), done, carry, Compact(value[i..next]), Compact(value[next..]), k);
      QuadsAdd(done, k);
      blocks, carry := TakeQuads(part, text, n, done, blocks);
      done := done + k;
      i := next;
    }
    assert value[offset..i] == value[offset..];
    CursorEnd(text, done, carry);
    if carry != "" {
      DecodedNext(text, n, done, |text|, blocks);
      blocks := blocks + [FromBase64(carry)];
    }
    DecodedAll(text, n, blocks);
  }

  lemma CursorEnd(text: string, done: nat, carry: string)
    requires Cursor(text, text, done, carry)
    ensures done + |carry| == |text| && carry == text[done..|text|]
  {}

  lemma NothingDecoded(text: string, n: nat)
    ensures DecodedTo(text, n, 0, []) && Cursor(text, "", 0, "")
  {
    assert text[..0] == "";
  }

  /** Padding only ever stands in the last quad. */
  lemma BeforePadding(text: string, n: nat, d: nat, e: nat)
    requires Shaped(text, n) && |text| - n <= 2 && (|text| == n || |text| % 4 == 0)
    requires d % 4 == 0 && d < e <= |text|
    ensures d <= n
  {}

  // ----- the encoder -----

  lemma WholeQuads(a: seq<Byte>)
    requires |a| % 3 == 0
    ensures |Symbols(a)| % 4 == 0 && Encode(a) == Symbols(a)
  {
    hide Symbols;
    var q := |a| / 3;
    assert |a| == 3 * q;
    assert |Symbols(a)| == 4 * q;
    assert Pads(0) == "";
  }

  /** The last bytes after whole triples. */
  lemma EncodeSplit(a: seq<Byte>, b: seq<Byte>)
    requires |a| % 3 == 0
    ensures Encode(a + b) == Symbols(a) + Encode(b)
  {
    hide Symbols, PadFor, Pads;
    SymbolsSplit(a, b);
    WholeQuads(a);
    PaddedLast(Symbols(a), Symbols(b));
  }

  /** Only the last, incomplete quad decides the padding. */
  lemma PaddedLast(s: string, t: string)
    requires |s| % 4 == 0
    ensures s + t + Pads(PadFor(|s + t|)) == s + (t + Pads(PadFor(|t|)))
  {
    hide PadFor, Pads;
    SamePadding(|s|, |t|);
    Regrouped(s, t, Pads(PadFor(|t|)));
  }

  lemma Regrouped(a: string, b: string, c: string)
    ensures a + b + c == a + (b + c)
  {}

  lemma SamePadding(x: nat, y: nat)
    requires x % 4 == 0
    ensures PadFor(x + y) == PadFor(y)
  {}

  /** `Content-Length`, from the size of the file alone. */
  function DeclaredLength(prefix: string, bytes: nat, suffix: string): nat {
    |prefix| + 4 * ((bytes + 2) / 3) + |suffix|
  }

  /** Whatever chunks the file is read in, the body is the encoded file, and as long as announced. */
  method Body(prefix: string, chunks: seq<seq<Byte>>, suffix: string) returns (out: string)
    ensures out == prefix + Encode(Flatten(chunks)) + suffix
    ensures |out| == DeclaredLength(prefix, |Flatten(chunks)|, suffix)
  {
    hide Symbols, PadFor, Flatten, Encode;
    out := prefix;
    ghost var whole: seq<Byte> := [];
    var carry: seq<Byte> := [];
    NothingRead();
    for k := 0 to |chunks|
      invariant Flatten(chunks[..k]) == whole + carry && |whole| % 3 == 0 && |carry| < 3
      invariant out == prefix + Symbols(whole)
    {
      assert chunks[..k + 1] == chunks[..k] + [chunks[k]];
      FlattenAppend(chunks[..k], chunks[k]);
      var data := carry + chunks[k];
      var aligned := |data| - |data| % 3;
      TriplesMove(whole, carry, chunks[k], data[..aligned], data[aligned..]);
      if aligned > 0 { out := out + Encode(data[..aligned]); } else { EmptySymbols(); }
      Regrouped(prefix, Symbols(whole), Symbols(data[..aligned]));
      whole := whole + data[..aligned];
      carry := data[aligned..];
    }
    assert chunks[..|chunks|] == chunks;
    EncodeSplit(whole, carry);
    WholeQuads([]);
    EmptySymbols();
    if carry != [] { out := out + Encode(carry); }
    Regrouped(prefix, Symbols(whole), Encode(carry));
    out := out + suffix;
    EncodedLength(whole + carry);
  }

  /** Whole triples pass from what is carried to what is sent. */
  lemma TriplesMove(whole: seq<Byte>, carry: seq<Byte>, chunk: seq<Byte>, sent: seq<Byte>, kept: seq<Byte>)
    requires |whole| % 3 == 0 && carry + chunk == sent + kept && |sent| % 3 == 0
    ensures whole + carry + chunk == whole + sent + kept && |whole + sent| % 3 == 0
    ensures Symbols(whole + sent) == Symbols(whole) + Symbols(sent) && Encode(sent) == Symbols(sent)
  {
    hide Symbols, Encode, Pads, PadFor;
    BytesRegrouped(whole, carry, chunk);
    BytesRegrouped(whole, sent, kept);
    SymbolsSplit(whole, sent);
    WholeQuads(sent);
    TriplesAdd(|whole|, |sent|);
  }

  lemma TriplesAdd(x: nat, y: nat)
    requires x % 3 == 0 && y % 3 == 0
    ensures (x + y) % 3 == 0
  {}

  lemma BytesRegrouped(a: seq<Byte>, b: seq<Byte>, c: seq<Byte>)
    ensures a + b + c == a + (b + c)
  {}

  lemma NothingRead()
    ensures Flatten([]) == [] && Symbols([]) == ""
  {}

  lemma EmptySymbols()
    ensures Symbols([]) == ""
  {}

  // ----- the whole way -----

  /** A text padded in full. */
  function Completed(text: string): string {
    text + Pads(PadFor(|text|))
  }

  /** Re-encoding what a text spells gives the text back, with its padding completed. */
  lemma CompletedIsEncoded(text: string, b: seq<Byte>)
    requires Spells(text, b)
    ensures Encode(b) == Completed(text)
  {
    hide Symbols;
    if text == Encode(b) { assert |text| % 4 == 0; assert text == text + Pads(0); }
  }

  /** The file as it is read back: in pieces of at most `highWater` bytes. */
  function Pieces(file: seq<Byte>, highWater: nat): seq<seq<Byte>>
    requires highWater > 0
  {
    if |file| <= highWater then [file] else [file[..highWater]] + Pieces(file[highWater..], highWater)
  }

  lemma {:induction false} PiecesFlatten(file: seq<Byte>, highWater: nat)
    requires highWater > 0
    ensures Flatten(Pieces(file, highWater)) == file
  {
    if |file| <= highWater {
      assert [file][1..] == [];
    } else {
      PiecesFlatten(file[highWater..], highWater);
      assert Pieces(file, highWater)[1..] == Pieces(file[highWater..], highWater);
      assert file == file[..highWater] + file[highWater..];
    }
  }
}
