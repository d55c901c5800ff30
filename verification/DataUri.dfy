/** The header of a data URI, and the inspection of a media field that may begin with one. */
module DataUri {
  import opened Basics
  import opened Base64
  import opened Media

  const MAX_HEADER: nat := 1024

  /** What the source's pattern calls a word character. */
  predicate IsWord(c: char) {
    'A' <= c <= 'Z' || 'a' <= c <= 'z' || '0' <= c <= '9' || c == '_'
  }

  predicate IsTypeChar(c: char) {
    IsWord(c) || c == '!' || c == '#' || c == '$' || c == '&' || c == '^' || c == '.' || c == '+' || c == '-'
  }

  predicate AllType(s: string) {
    s != "" && forall k :: 0 <= k < |s| ==> IsTypeChar(s[k])
  }

  predicate AllCharset(s: string) {
    s != "" && forall k :: 0 <= k < |s| ==> IsWord(s[k]) || s[k] == '-'
  }

  /** ASCII lower case: the pattern ignores case. */
  function LowerChar(c: char): char {
    if 'A' <= c <= 'Z' then c - 'A' + 'a' else c
  }

  function Lower(s: string): string {
    seq(|s|, k requires 0 <= k < |s| => LowerChar(s[k]))
  }

  predicate IsMime(mime: string) {
    mime == "" || exists k :: 0 <= k < |mime| && mime[k] == '/' && AllType(mime[..k]) && AllType(mime[k + 1..])
  }

  /** After the type: an optional character set, then the mark of base64 and the comma. */
  predicate IsTail(tail: string) {
    || Lower(tail) == ";base64,"
    || (|tail| >= 17 && Lower(tail[..9]) == ";charset=" && AllCharset(tail[9..|tail| - 8])
        && Lower(tail[|tail| - 8..]) == ";base64,")
  }

  /** The header as the pattern has it: some type, possibly none, and a tail. */
  predicate IsHeader(header: string, mime: string) {
    && |header| >= 5 + |mime| && header[..5] == "data:" && header[5..5 + |mime|] == mime
    && IsMime(mime) && IsTail(header[5 + |mime|..])
  }

  /** The characters of the pattern by their codes: letters, digits and the underscore; letters alike but for case. */
  lemma CharactersExactly(c: char)
    ensures var n := c as int;
            && (IsWord(c) <==> 65 <= n <= 90 || 97 <= n <= 122 || 48 <= n <= 57 || n == 95)
            && (IsTypeChar(c) <==> IsWord(c) || c in {'!', '#', '$', '&', '^', '.', '+', '-'})
            && LowerChar(c) as int == if 65 <= n <= 90 then n + 32 else n
  {}

  /** The mark of base64 alone ends a header, in capitals as well, and so it does after a character set. */
  lemma TailsAccepted(charset: string)
    requires AllCharset(charset)
    ensures IsTail(";base64,") && IsTail(";BASE64,") && IsTail(";charset=" + charset + ";base64,")
  {
    assert Lower(";base64,") == Lower(";BASE64,") == ";base64," && Lower(";charset=") == ";charset=";
    var tail := ";charset=" + charset + ";base64,";
    assert tail[..9] == ";charset=" && tail[9..|tail| - 8] == charset && tail[|tail| - 8..] == ";base64,";
  }

  /** Where a character first stands, or the length of the text. */
  function IndexOf(s: string, c: char): (k: nat)
    ensures k <= |s| && (forall j :: 0 <= j < k ==> s[j] != c) && (k < |s| ==> s[k] == c)
  {
    if s == "" then 0 else if s[0] == c then 0 else 1 + IndexOf(s[1..], c)
  }

  lemma MimeHasNoSemicolon(mime: string, k: nat)
    requires IsMime(mime) && k < |mime|
    ensures mime[k] != ';'
  {
    var s :| 0 <= s < |mime| && mime[s] == '/' && AllType(mime[..s]) && AllType(mime[s + 1..]);
    if k < s { assert mime[..s][k] == mime[k]; } else if k > s { assert mime[s + 1..][k - s - 1] == mime[k]; }
  }

  lemma TailBeginsWithSemicolon(tail: string)
    requires IsTail(tail)
    ensures |tail| > 0 && tail[0] == ';'
  {
    if Lower(tail) == ";base64," { assert Lower(tail)[0] == ';'; } else { assert Lower(tail[..9])[0] == ';'; }
  }

  /** A header has one type only: what stands before the first semicolon. */
  lemma TypeEndsAtSemicolon(header: string, mime: string)
    requires IsHeader(header, mime)
    ensures IndexOf(header[5..], ';') == |mime|
  {
    var rest, k := header[5..], IndexOf(header[5..], ';');
    TailBeginsWithSemicolon(header[5 + |mime|..]);
    assert rest[|mime|] == header[5 + |mime|..][0];
    if k < |mime| {
      assert rest[k] == mime[k];
      MimeHasNoSemicolon(mime, k);
    }
  }

  /** Whether the header fits the pattern, and its type if it does. */
  method MatchHeader(header: string) returns (mime: Option<string>)
    ensures mime.Some? ==> IsHeader(header, mime.value)
    ensures mime.None? ==> forall m :: !IsHeader(header, m)
  {
    hide IsMime, IsTail;
    if |header| < 5 || header[..5] != "data:" { return None; }
    var end := IndexOf(header[5..], ';');
    var found := header[5..5 + end];
    if IsMime(found) && IsTail(header[5 + end..]) { return Some(found); }
    forall m | IsHeader(header, m) ensures false { TypeEndsAtSemicolon(header, m); }
    return None;
  }

  datatype Inspected = Inspected(offset: nat, result: Inspection, mime: Option<string>)

  predicate IsDataUri(value: string) {
    |value| >= 5 && value[..5] == "data:"
  }

  /** Where the payload of a data URI begins: after its first comma. */
  function PayloadAt(value: string): nat {
    if IndexOf(value, ',') < |value| then IndexOf(value, ',') + 1 else 0
  }

  /** A data URI begins so, and its payload after its first comma. */
  lemma PayloadExactly(value: string)
    ensures IsDataUri(value) <==> "data:" <= value
    ensures PayloadAt(value) <= |value|
    ensures ',' in value <==> PayloadAt(value) > 0
    ensures PayloadAt(value) > 0 ==>
              value[PayloadAt(value) - 1] == ',' && ',' !in value[..PayloadAt(value) - 1]
  {
    assert ',' in value ==> exists k :: 0 <= k < |value| && value[k] == ',';
  }

  ghost predicate HeaderFits(value: string) {
    !IsDataUri(value) || (0 < PayloadAt(value) <= 1024 && exists m :: IsHeader(value[..PayloadAt(value)], m))
  }

  /**
   The whole inspection: a data URI needs a fitting header within its limit, and its payload, or
   else the whole text, must be admissible within the size limit. The type is the header's own.
   */
  method InspectMedia(value: string, maxBytes: nat, chunk: nat) returns (r: Inspected)
    requires chunk > 0
    ensures r.offset <= |value| && (r.result.Accepted? ==> r.offset == if IsDataUri(value) then PayloadAt(value) else 0)
    ensures r.result.Accepted? <==>
              && HeaderFits(value)
              && exists b: seq<Byte> ::
                   0 < |b| <= maxBytes && Spells(Compact(value[if IsDataUri(value) then PayloadAt(value) else 0..]), b)
    ensures r.result.Accepted? ==> r.result.bytes <= maxBytes && forall b: seq<Byte> ::
                                     Spells(Compact(value[r.offset..]), b) ==> |b| == r.result.bytes
    ensures r.result.Accepted? && IsDataUri(value) && r.mime.Some? ==>
              r.mime.value != "" && IsHeader(value[..r.offset], r.mime.value)
    ensures r.result.Accepted? && IsDataUri(value) && r.mime.None? ==> IsHeader(value[..r.offset], "")
  {
    hide Spells, Compact, IsHeader;
    var offset, mime := 0, None;
    if IsDataUri(value) {
      offset := PayloadAt(value);
      if offset == 0 || offset > MAX_HEADER { return Inspected(0, Invalid, None); }
      var matched := MatchHeader(value[..offset]);
      if matched.None? { return Inspected(0, Invalid, None); }
      if matched.value != "" { mime := matched; }
    }
    var result := InspectBase64(value, offset, maxBytes, chunk);
    return Inspected(offset, result, mime);
  }
}
