/** The body of a media request: a JSON object whose last field is streamed, sent as UTF-8. */
module MediaBody {
  import opened Basics
  import opened Base64
  import opened Media
  import opened JsonText
  import DataUri

  // ----- the fields -----

  /** A property of the request object, in the order `Object.entries` gives them; `None` is `undefined`. */
  datatype Property = Property(key: string, value: Option<Tree>)

  /** What `!value` is false of. */
  predicate Truthy(v: Option<Tree>) {
    v.Some? && v.value != TNull && v.value != TBool(false) && v.value != TNum(0) && v.value != TStr("")
  }

  function KeyAt(fields: seq<Property>, key: string): (k: nat)
    ensures k <= |fields| && (k < |fields| ==> fields[k].key == key) && forall j :: 0 <= j < k ==> fields[j].key != key
  {
    if fields == [] then 0 else if fields[0].key == key then 0 else 1 + KeyAt(fields[1..], key)
  }

  /** A default takes the place of a missing, empty or otherwise false value, and goes last if the key is new. */
  function Defaulted(fields: seq<Property>, key: string, value: string): seq<Property> {
    var k := KeyAt(fields, key);
    if k == |fields| then fields + [Property(key, Some(TStr(value)))]
    else if Truthy(fields[k].value) then fields
    else fields[k := Property(key, Some(TStr(value)))]
  }

  function WithDefaults(fields: seq<Property>, defaults: seq<(string, string)>): seq<Property> {
    if defaults == [] then fields
    else Defaulted(WithDefaults(fields, defaults[..|defaults| - 1]), defaults[|defaults| - 1].0,
                   defaults[|defaults| - 1].1)
  }

  /** What is printed before the media field: everything but it, and nothing undefined. */
  function Kept(fields: seq<Property>, field: string): seq<Field> {
    if fields == [] then []
    else
      var front, last := Kept(fields[..|fields| - 1], field), fields[|fields| - 1];
      if last.key == field || last.value.None? then front else front + [JsonText.Field(last.key, last.value.value)]
  }

  /** The value of a property, the first of its name. */
  function ValueOf(fields: seq<Property>, key: string): Option<Tree> {
    if KeyAt(fields, key) < |fields| then fields[KeyAt(fields, key)].value else None
  }

  /** A default replaces a value that is missing, null, false, zero or empty, and nothing else. */
  lemma DefaultedExactly(fields: seq<Property>, key: string, value: string, other: string)
    ensures var all := Defaulted(fields, key, value);
            && |all| == |fields| + (if exists k :: 0 <= k < |fields| && fields[k].key == key then 0 else 1)
            && (match ValueOf(fields, key)
                case None => ValueOf(all, key) == Some(TStr(value))
                case Some(TNull) => ValueOf(all, key) == Some(TStr(value))
                case Some(TBool(b)) => ValueOf(all, key) == if b then Some(TBool(true)) else Some(TStr(value))
                case Some(TNum(n)) => ValueOf(all, key) == Some(if n == 0 then TStr(value) else TNum(n))
                case Some(TStr(s)) => ValueOf(all, key) == Some(TStr(if s == "" then value else s))
                case Some(t) => ValueOf(all, key) == Some(t))
            && (other != key ==> ValueOf(all, other) == ValueOf(fields, other))
  {
    var all, k := Defaulted(fields, key, value), KeyAt(fields, key);
    FirstAt(all, key, k);
    if other != key && KeyAt(fields, other) < |fields| { FirstAt(all, other, KeyAt(fields, other)); }
  }

  /** The first property of a name is where the name stands and did not stand before. */
  lemma {:induction false} FirstAt(fields: seq<Property>, key: string, k: nat)
    requires k < |fields| && fields[k].key == key && forall j :: 0 <= j < k ==> fields[j].key != key
    ensures KeyAt(fields, key) == k
  {}

  /** What is kept is kept in order, and is what has a value, but for the media field. */
  lemma {:induction false} KeptExactly(front: seq<Property>, back: seq<Property>, field: string, p: Property)
    ensures Kept(front + back, field) == Kept(front, field) + Kept(back, field)
    ensures Kept([p], field) == if p.key != field && p.value.Some? then [JsonText.Field(p.key, p.value.value)] else []
  {
    assert [p][..0] == [];
    if back == [] {
      assert front + back == front;
    } else {
      KeptExactly(front, back[..|back| - 1], field, p);
      assert (front + back)[..|front + back| - 1] == front + back[..|back| - 1];
    }
  }

  // ----- printing -----

  function PrintField(f: Field): string { Quote(f.key) + ":" + Print(f.value) }

  /** `entries.join(',')`. */
  function Joined(entries: seq<string>): string {
    if entries == [] then "" else entries[0] + (if |entries| == 1 then "" else "," + Joined(entries[1..]))
  }

  function Printed(fields: seq<Field>): (r: seq<string>)
    ensures |r| == |fields|
  {
    seq(|fields|, k requires 0 <= k < |fields| => PrintField(fields[k]))
  }

  lemma {:induction false} JoinPrints(fields: seq<Field>)
    ensures Joined(Printed(fields)) == PrintFields(fields)
  {
    if fields != [] {
      JoinPrints(fields[1..]);
      assert Printed(fields)[1..] == Printed(fields[1..]);
    }
  }

  lemma {:induction false} PrintFieldsAppend(fields: seq<Field>, last: Field)
    ensures PrintFields(fields + [last]) == (if fields == [] then "" else PrintFields(fields) + ",") + PrintField(last)
  {
    if fields == [] {
      assert [] + [last] == [last];
    } else {
      PrintFieldsAppend(fields[1..], last);
      assert (fields + [last])[1..] == fields[1..] + [last];
      MoveComma(PrintField(fields[0]), PrintFields(fields[1..]), PrintField(last), |fields| == 1);
    }
  }

  lemma MoveComma(a: string, b: string, c: string, only: bool)
    requires only ==> b == ""
    ensures a + ("," + ((if only then "" else b + ",") + c)) == a + (if only then "" else "," + b) + "," + c
  {}

  /** Base64 text needs no escapes. */
  lemma {:induction false} PlainEscape(s: string)
    requires forall k :: 0 <= k < |s| ==> IsSymbol(s[k]) || s[k] == '='
    ensures Escape(s) == s
  {
    if s != "" {
      PlainEscape(s[1..]);
      assert EscapeChar(s[0]) == [s[0]];
      assert s == [s[0]] + s[1..];
    }
  }

  function Prefix(kept: seq<Field>, field: string): string {
    "{" + (if kept == [] then "" else PrintFields(kept) + ",") + Quote(field) + ":\""
  }

  const SUFFIX: string := "\"}"

  /** Prefix, streamed text and suffix together are the JSON text of the object with the media field last. */
  lemma StreamsObject(kept: seq<Field>, field: string, text: string)
    requires forall k :: 0 <= k < |text| ==> IsSymbol(text[k]) || text[k] == '='
    ensures Prefix(kept, field) + text + SUFFIX == Print(TObj(kept + [JsonText.Field(field, TStr(text))]))
  {
    hide Print, PrintFields, Quote;
    var last := JsonText.Field(field, TStr(text));
    var front := if kept == [] then "" else PrintFields(kept) + ",";
    PlainEscape(text);
    PrintFieldsAppend(kept, last);
    ObjectText(kept + [last]);
    StringText(text);
    Around(front, Quote(field), text);
  }

  lemma ObjectText(fields: seq<Field>)
    ensures Print(TObj(fields)) == "{" + PrintFields(fields) + "}"
  {}

  lemma StringText(text: string)
    requires Escape(text) == text
    ensures Print(TStr(text)) == "\"" + text + "\""
  {}

  lemma Around(front: string, key: string, text: string)
    ensures "{" + front + key + ":\"" + text + SUFFIX == "{" + (front + (key + ":" + ("\"" + text + "\""))) + "}"
  {
    assert ":\"" == ":" + "\"" && SUFFIX == "\"" + "}";
  }

  lemma EncodedIsPlain(b: seq<Byte>)
    ensures forall k :: 0 <= k < |Encode(b)| ==> IsSymbol(Encode(b)[k]) || Encode(b)[k] == '='
  {
    hide Symbols;
    var s := Symbols(b);
    forall k | 0 <= k < |Encode(b)| ensures IsSymbol(Encode(b)[k]) || Encode(b)[k] == '=' {
      if k < |s| { assert Encode(b)[k] == s[k]; }
    }
  }

  // ----- bytes on the wire -----

  /** UTF-8 (RFC 3629 section 3). */
  function Utf8Char(c: char): (b: seq<Byte>)
    ensures 1 <= |b| <= 4 && (c as int < 128 ==> |b| == 1)
  {
    var n := c as int;
    if n < 0x80 then [n]
    else if n < 0x800 then [0xC0 + n / 64, 0x80 + n % 64]
    else if n < 0x10000 then [0xE0 + n / 4096, 0x80 + n / 64 % 64, 0x80 + n % 64]
    else [0xF0 + n / 262144, 0x80 + n / 4096 % 64, 0x80 + n / 64 % 64, 0x80 + n % 64]
  }

  /** The code that a form of one to four bytes carries: six bits in each byte but the first. */
  function Carried(b: seq<Byte>): int
    requires 1 <= |b| <= 4
  {
    var lead: int := b[0];
    if |b| == 1 then lead
    else if |b| == 2 then 64 * (lead - 0xC0) + Six(b[1])
    else if |b| == 3 then 4096 * (lead - 0xE0) + 64 * Six(b[1]) + Six(b[2])
    else 262144 * (lead - 0xF0) + 4096 * Six(b[1]) + 64 * Six(b[2]) + Six(b[3])
  }

  function Six(b: Byte): int { (b as int) - 0x80 }

  /** The shortest form that carries the code; only bytes after the first begin with the bits 10. */
  lemma Utf8Exactly(c: char)
    ensures var b, n := Utf8Char(c), c as int;
            && |b| == (if n <= 0x7F then 1 else if n <= 0x7FF then 2 else if n <= 0xFFFF then 3 else 4)
            && (forall k :: 0 <= k < |b| ==> (k > 0 <==> 0x80 <= b[k] < 0xC0))
            && Carried(b) == n
  {
    var n := c as int;
    assert n == 64 * (n / 64) + n % 64 && n / 64 == 64 * (n / 4096) + n / 64 % 64;
    assert n / 4096 == 64 * (n / 262144) + n / 4096 % 64;
  }

  function Utf8(s: string): seq<Byte> {
    if s == "" then [] else Utf8Char(s[0]) + Utf8(s[1..])
  }

  lemma {:induction false} Utf8Split(a: string, b: string)
    ensures Utf8(a + b) == Utf8(a) + Utf8(b)
  {
    if a == "" {
      assert a + b == b;
    } else {
      assert (a + b)[1..] == a[1..] + b;
      Utf8Split(a[1..], b);
    }
  }

  lemma {:induction false} AsciiLength(s: string)
    requires forall k :: 0 <= k < |s| ==> s[k] as int < 128
    ensures |Utf8(s)| == |s|
  {
    if s != "" { AsciiLength(s[1..]); }
  }

  lemma EncodedBytes(b: seq<Byte>)
    ensures |Utf8(Encode(b))| == 4 * ((|b| + 2) / 3)
  {
    hide Symbols, Encode;
    EncodedIsPlain(b);
    AsciiLength(Encode(b));
    EncodedLength(b);
  }

  // ----- the request -----

  method ApplyDefaults(fields: seq<Property>, defaults: seq<(string, string)>) returns (all: seq<Property>)
    ensures all == WithDefaults(fields, defaults)
  {
    all := fields;
    for k := 0 to |defaults|
      invariant all == WithDefaults(fields, defaults[..k])
    {
      assert defaults[..k + 1][..k] == defaults[..k];
      var at := KeyAt(all, defaults[k].0);
      if at == |all| { all := all + [Property(defaults[k].0, Some(TStr(defaults[k].1)))]; }
      else if !Truthy(all[at].value) { all := all[at := Property(defaults[k].0, Some(TStr(defaults[k].1)))]; }
    }
    assert defaults[..|defaults|] == defaults;
  }

  method BuildPrefix(all: seq<Property>, field: string) returns (prefix: string)
    ensures prefix == Prefix(Kept(all, field), field)
  {
    var entries: seq<string> := [];
    for k := 0 to |all|
      invariant entries == Printed(Kept(all[..k], field))
    {
      assert all[..k + 1][..k] == all[..k];
      if all[k].key != field && all[k].value.Some? {
        entries := entries + [Quote(all[k].key) + ":" + Print(all[k].value.value)];
      }
    }
    assert all[..|all|] == all;
    JoinPrints(Kept(all, field));
    prefix := "{" + (if entries == [] then "" else Joined(entries) + ",") + Quote(field) + ":\"";
  }

  /**
   However the file is cut, the text sent is the JSON object of the request's fields with the
   base64 of the file last, and its UTF-8 bytes are as many as the declared `Content-Length`,
   which is computed from the size of the file alone.
   */
  method Send(fields: seq<Property>, defaults: seq<(string, string)>, field: string, bytes: nat, chunks: seq<seq<Byte>>)
    returns (out: string, contentLength: nat)
    requires bytes == |Flatten(chunks)|
    ensures out ==
              Print(TObj(Kept(WithDefaults(fields, defaults), field)
                         + [JsonText.Field(field, TStr(Encode(Flatten(chunks))))]))
    ensures contentLength == |Utf8(out)|
  {
    hide Encode, Flatten, Prefix, Print, Utf8, DeclaredLength;
    var all := ApplyDefaults(fields, defaults);
    var prefix := BuildPrefix(all, field);
    contentLength := |Utf8(prefix)| + 4 * ((bytes + 2) / 3) + |Utf8(SUFFIX)|;
    out := Body(prefix, chunks, SUFFIX);
    ghost var text := Encode(Flatten(chunks));
    EncodedIsPlain(Flatten(chunks));
    StreamsObject(Kept(all, field), field, text);
    Utf8Split(prefix + text, SUFFIX);
    Utf8Split(prefix, text);
    EncodedBytes(Flatten(chunks));
  }

  /**
   The whole way: a media text, with or without the header of a data URI, is inspected, decoded
   to a file and sent. If it is accepted the request carries it without white space and padded
   in full, under a length computed from the inspection.
   */
  method ForwardMedia(
      value: string, maxBytes: nat, chunk: nat, highWater: nat,
      fields: seq<Property>, defaults: seq<(string, string)>, field: string)
    returns (r: DataUri.Inspected, out: string, contentLength: nat)
    requires chunk > 0 && highWater > 0
    ensures r.offset <= |value|
    ensures r.result.Accepted? <==>
              && DataUri.HeaderFits(value)
              && exists b: seq<Byte> ::
                   0 < |b| <= maxBytes
                   && Spells(Compact(value[if DataUri.IsDataUri(value) then DataUri.PayloadAt(value) else 0..]), b)
    ensures r.result.Accepted? ==>
              && out ==
                   Print(TObj(Kept(WithDefaults(fields, defaults), field)
                              + [JsonText.Field(field, TStr(Completed(Compact(value[r.offset..]))))]))
              && contentLength == |Utf8(out)|
  {
    hide Symbols, Bytes, Compact, Spells, Completed, Encode, Print, Utf8, DataUri.HeaderFits;
    out, contentLength := "", 0;
    r := DataUri.InspectMedia(value, maxBytes, chunk);
    if r.result.Accepted? {
      var blocks := DecodeBase64(value, r.offset, chunk);
      var file := Flatten(blocks);
      CompletedIsEncoded(Compact(value[r.offset..]), file);
      PiecesFlatten(file, highWater);
      out, contentLength := Send(fields, defaults, field, r.result.bytes, Pieces(file, highWater));
    }
  }
}
