/** JSON trees and their text: no two trees print alike, even followed by more text. */
module JsonText {

  /** A tree prints its fields in the order it holds them. */
  datatype Tree =
    | TNull | TBool(b: bool) | TNum(n: int) | TStr(s: string) | TArr(items: seq<Tree>) | TObj(fields: seq<Field>)

  datatype Field = Field(key: string, value: Tree)

  // ----- strings -----

  function HexDigit(n: nat): char
    requires n < 16
  {
    if n < 10 then (n + '0' as int) as char else (n - 10 + 'a' as int) as char
  }

  /** `JSON.stringify` escapes the quote, the backslash and control characters. */
  function EscapeChar(c: char): (e: string)
    ensures |e| > 0 && e[0] != '"'
  {
    if c == '"' then "\\\""
    else if c == '\\' then "\\\\"
    else if c == '\n' then "\\n"
    else if c == '\r' then "\\r"
    else if c == '\t' then "\\t"
    else if c as int == 8 then "\\b"
    else if c as int == 12 then "\\f"
    else if (c as int) < 32 then "\\u00" + [HexDigit(c as int / 16), HexDigit(c as int % 16)]
    else [c]
  }

  function Escape(s: string): string {
    if s == "" then "" else EscapeChar(s[0]) + Escape(s[1..])
  }

  function Quote(s: string): string {
    "\"" + Escape(s) + "\""
  }

  /** The two-character escapes of RFC 8259 section 7, but for the solidus, which needs none. */
  const SHORT_ESCAPES: map<char, char> :=
    map['"' := '"', '\\' := '\\', '\U{8}' := 'b', '\U{C}' := 'f', '\n' := 'n', '\r' := 'r', '\t' := 't']

  const HEX: string := "0123456789abcdef"

  /**
   In a string (RFC 8259 section 7) a character stands for itself, unless it is a quote, a backslash
   or a control character: those have their short escape, or else their code in four hexadecimal digits.
   */
  lemma EscapeExactly(c: char)
    ensures EscapeChar(c) == if c in SHORT_ESCAPES then ['\\', SHORT_ESCAPES[c]]
                             else if c < ' ' then "\\u00" + [HEX[c as int / 16], HEX[c as int % 16]] else [c]
  {
    if c < ' ' { assert forall n :: 0 <= n < 16 ==> HexDigit(n) == HEX[n]; }
  }

  /** What follows a cut is what follows it on both sides. */
  lemma CutAlike(a: string, x: string, b: string, y: string)
    requires a + x == b + y && |a| == |b|
    ensures a == b && x == y
  {
    assert a == (a + x)[..|a|] && b == (b + y)[..|b|];
    assert x == (a + x)[|a|..] && y == (b + y)[|b|..];
  }

  /** Escape codes tell themselves apart from their first characters. */
  lemma EscapesApart(c: char, x: string, d: char, y: string)
    requires EscapeChar(c) + x == EscapeChar(d) + y
    ensures c == d && x == y
  {
    var e, f := EscapeChar(c), EscapeChar(d);
    assert (e + x)[0] == e[0] && (f + y)[0] == f[0];
    if e[0] == '\\' {
      assert (e + x)[1] == e[1] && (f + y)[1] == f[1];
      if e[1] == 'u' {
        assert (e + x)[4] == e[4] && (f + y)[4] == f[4] && (e + x)[5] == e[5] && (f + y)[5] == f[5];
      }
    }
    CutAlike(e, x, f, y);
  }

  lemma {:induction false} EscapedApart(s: string, x: string, t: string, y: string)
    requires Escape(s) + "\"" + x == Escape(t) + "\"" + y
    ensures s == t && x == y
  {
    hide EscapeChar;
    if s == "" && t == "" {
      EscapeUnfold(s, x);
      EscapeUnfold(t, y);
      CutAlike("\"", x, "\"", y);
    } else if s == "" {
      EscapeUnfold(s, x);
      EscapeUnfold(t, y);
      CodeIsNoEnd(t[0], Escape(t[1..]) + "\"" + y, x);
    } else if t == "" {
      EscapeUnfold(s, x);
      EscapeUnfold(t, y);
      CodeIsNoEnd(s[0], Escape(s[1..]) + "\"" + x, y);
    } else {
      EscapeUnfold(s, x);
      EscapeUnfold(t, y);
      EscapesApart(s[0], Escape(s[1..]) + "\"" + x, t[0], Escape(t[1..]) + "\"" + y);
      EscapedApart(s[1..], x, t[1..], y);
      assert s == [s[0]] + s[1..] && t == [t[0]] + t[1..];
    }
  }

  lemma EscapeUnfold(s: string, x: string)
    ensures Escape(s) + "\"" + x == if s == "" then "\"" + x else EscapeChar(s[0]) + (Escape(s[1..]) + "\"" + x)
  {
    hide EscapeChar;
  }

  lemma CodeIsNoEnd(c: char, r: string, x: string)
    ensures EscapeChar(c) + r != "\"" + x
  {
    assert (EscapeChar(c) + r)[0] == EscapeChar(c)[0];
  }

  lemma QuotesApart(s: string, x: string, t: string, y: string)
    requires Quote(s) + x == Quote(t) + y
    ensures s == t && x == y
  {
    hide Escape;
    Assoc("\"", Escape(s), "\"");
    Assoc("\"", Escape(s) + "\"", x);
    Assoc("\"", Escape(t), "\"");
    Assoc("\"", Escape(t) + "\"", y);
    CutAlike("\"", Escape(s) + "\"" + x, "\"", Escape(t) + "\"" + y);
    EscapedApart(s, x, t, y);
  }

  // ----- numbers -----

  predicate IsDigit(c: char) { '0' <= c <= '9' }

  predicate AllDigits(s: string) {
    forall k :: 0 <= k < |s| ==> IsDigit(s[k])
  }

  function NatText(n: nat): (s: string)
    ensures |s| > 0 && AllDigits(s)
  {
    if n < 10 then [(n + '0' as int) as char] else NatText(n / 10) + [(n % 10 + '0' as int) as char]
  }

  function DigitValue(c: char): nat
    requires IsDigit(c)
  {
    c as int - '0' as int
  }

  function NatOf(s: string): nat
    requires AllDigits(s)
  {
    if s == "" then 0 else NatOf(s[..|s| - 1]) * 10 + DigitValue(s[|s| - 1])
  }

  lemma {:induction false} NatOfText(n: nat)
    ensures NatOf(NatText(n)) == n
  {
    var s := NatText(n);
    if n >= 10 {
      NatOfText(n / 10);
      assert s[..|s| - 1] == NatText(n / 10);
    } else {
      assert s[..0] == "";
      assert NatOf(s) == NatOf(s[..0]) * 10 + n;
    }
  }

  function IntText(n: int): (s: string)
    ensures |s| > 0
  {
    if n < 0 then "-" + NatText(-n) else NatText(n)
  }

  /** The end of the text, or a character no number can go on with. */
  predicate Ends(x: string) {
    x == "" || x[0] == ',' || x[0] == ']' || x[0] == '}'
  }

  /** A shorter run of digits ends where a longer one goes on. */
  lemma LongerRunDiffers(a: string, x: string, b: string, y: string)
    requires Ends(x) && AllDigits(b) && |a| < |b|
    ensures a + x != b + y
  {
    if |a + x| == |b + y| { assert (a + x)[|a|] != (b + y)[|a|]; }
  }

  lemma DigitsApart(a: string, x: string, b: string, y: string)
    requires a + x == b + y && Ends(x) && Ends(y) && AllDigits(a) && AllDigits(b)
    ensures a == b && x == y
  {
    if |a| < |b| { LongerRunDiffers(a, x, b, y); }
    else if |b| < |a| { LongerRunDiffers(b, y, a, x); }
    else { CutAlike(a, x, b, y); }
  }

  lemma NatsApart(m: nat, x: string, n: nat, y: string)
    requires NatText(m) + x == NatText(n) + y && Ends(x) && Ends(y)
    ensures m == n && x == y
  {
    DigitsApart(NatText(m), x, NatText(n), y);
    NatOfText(m);
    NatOfText(n);
  }

  lemma SignsDiffer(m: int, x: string, n: int, y: string)
    requires m < 0 <= n
    ensures IntText(m) + x != IntText(n) + y
  {
    hide NatText;
    assert (IntText(m) + x)[0] == '-';
    assert (IntText(n) + y)[0] == NatText(n)[0];
  }

  lemma NegativesApart(m: nat, x: string, n: nat, y: string)
    requires "-" + NatText(m) + x == "-" + NatText(n) + y && Ends(x) && Ends(y)
    ensures m == n && x == y
  {
    hide NatText;
    Assoc("-", NatText(m), x);
    Assoc("-", NatText(n), y);
    CutAlike("-", NatText(m) + x, "-", NatText(n) + y);
    NatsApart(m, x, n, y);
  }

  lemma Assoc(a: string, b: string, c: string)
    ensures a + b + c == a + (b + c)
  {}

  lemma IntsApart(m: int, x: string, n: int, y: string)
    requires IntText(m) + x == IntText(n) + y && Ends(x) && Ends(y)
    ensures m == n && x == y
  {
    hide NatText, Ends;
    if m < 0 && n < 0 { NegativesApart(-m, x, -n, y); }
    else if m >= 0 && n >= 0 { NatsApart(m, x, n, y); }
    else if m < 0 { SignsDiffer(m, x, n, y); }
    else { SignsDiffer(n, y, m, x); }
  }

  // ----- trees -----

  function Print(t: Tree): string
    decreases t, 1
  {
    match t
    case TNull => "null"
    case TBool(b) => if b then "true" else "false"
    case TNum(n) => IntText(n)
    case TStr(s) => Quote(s)
    case TArr(items) => "[" + PrintItems(items) + "]"
    case TObj(fields) => "{" + PrintFields(fields) + "}"
  }

  function PrintItems(items: seq<Tree>): string
    decreases items, 0
  {
    if items == [] then "" else Print(items[0]) + (if |items| == 1 then "" else "," + PrintItems(items[1..]))
  }

  function PrintFields(fields: seq<Field>): string
    decreases fields, 0
  {
    if fields == [] then ""
    else
      match fields[0]
      case Field(key, value) =>
        Quote(key) + ":" + Print(value) + (if |fields| == 1 then "" else "," + PrintFields(fields[1..]))
  }

  /** The first character tells what kind of tree was printed. */
  function Kind(t: Tree): nat {
    match t
    case TNull => 0
    case TBool(b) => if b then 1 else 2
    case TNum(_) => 3
    case TStr(_) => 4
    case TArr(_) => 5
    case TObj(_) => 6
  }

  function KindOf(c: char): nat {
    if c == 'n' then 0 else if c == 't' then 1 else if c == 'f' then 2 else if IsDigit(c) || c == '-' then 3
    else if c == '"' then 4 else if c == '[' then 5 else if c == '{' then 6 else 7
  }

  lemma FirstTells(t: Tree)
    ensures |Print(t)| > 0 && KindOf(Print(t)[0]) == Kind(t)
  {
    match t
    case TNum(n) => if n < 0 { assert IntText(n)[0] == '-'; } else { assert IsDigit(NatText(n)[0]); }
    case TStr(s) => assert Quote(s)[0] == '"';
    case _ =>
  }

  lemma TreeIsNoEnd(t: Tree, r: string, x: string)
    requires x != "" && Ends(x)
    ensures Print(t) + r != x
  {
    FirstTells(t);
    assert (Print(t) + r)[0] == Print(t)[0];
  }

  lemma QuoteIsNoEnd(s: string, r: string, x: string)
    requires x != "" && Ends(x)
    ensures Quote(s) + r != x
  {
    assert (Quote(s) + r)[0] == '"';
  }

  /** A printed tree followed by more is read back in one way only. */
  lemma {:induction false} TreesApart(a: Tree, x: string, b: Tree, y: string)
    requires Print(a) + x == Print(b) + y && Ends(x) && Ends(y)
    ensures a == b && x == y
    decreases a, 1
  {
    hide Quote, IntText, PrintItems, PrintFields;
    FirstTells(a);
    FirstTells(b);
    assert (Print(a) + x)[0] == Print(a)[0] && (Print(b) + y)[0] == Print(b)[0];
    assert Kind(a) == Kind(b);
    match a
    case TNull => CutAlike("null", x, "null", y);
    case TBool(_) => CutAlike(Print(a), x, Print(b), y);
    case TNum(m) => IntsApart(m, x, b.n, y);
    case TStr(s) => QuotesApart(s, x, b.s, y);
    case TArr(items) =>
      assert Print(a) + x == "[" + (PrintItems(items) + "]" + x);
      assert Print(b) + y == "[" + (PrintItems(b.items) + "]" + y);
      CutAlike("[", PrintItems(items) + "]" + x, "[", PrintItems(b.items) + "]" + y);
      ItemsApart(items, x, b.items, y);
    case TObj(fields) =>
      assert Print(a) + x == "{" + (PrintFields(fields) + "}" + x);
      assert Print(b) + y == "{" + (PrintFields(b.fields) + "}" + y);
      CutAlike("{", PrintFields(fields) + "}" + x, "{", PrintFields(b.fields) + "}" + y);
      FieldsApart(fields, x, b.fields, y);
  }

  /** What follows the first of several items, up to the closing bracket. */
  function AfterItem(items: seq<Tree>, x: string): (r: string)
    requires items != []
    ensures Ends(r)
  {
    if |items| == 1 then "]" + x else "," + (PrintItems(items[1..]) + "]" + x)
  }

  lemma ItemsUnfold(items: seq<Tree>, x: string)
    requires items != []
    ensures PrintItems(items) + "]" + x == Print(items[0]) + AfterItem(items, x)
  {
    hide Print;
    var rest := if |items| == 1 then "" else "," + PrintItems(items[1..]);
    Assoc(Print(items[0]), rest, "]");
    Assoc(Print(items[0]), rest + "]", x);
    Assoc(",", PrintItems(items[1..]), "]");
    Assoc(",", PrintItems(items[1..]) + "]", x);
  }

  lemma {:induction false} ItemsApart(a: seq<Tree>, x: string, b: seq<Tree>, y: string)
    requires PrintItems(a) + "]" + x == PrintItems(b) + "]" + y
    ensures a == b && x == y
    decreases a, 0
  {
    hide Print, PrintItems;
    EmptyItems(x);
    EmptyItems(y);
    if a == [] && b == [] {
      CutAlike("]", x, "]", y);
    } else if a == [] {
      ItemsUnfold(b, y);
      TreeIsNoEnd(b[0], AfterItem(b, y), "]" + x);
    } else if b == [] {
      ItemsUnfold(a, x);
      TreeIsNoEnd(a[0], AfterItem(a, x), "]" + y);
    } else {
      ItemsUnfold(a, x);
      ItemsUnfold(b, y);
      TreesApart(a[0], AfterItem(a, x), b[0], AfterItem(b, y));
      assert AfterItem(a, x)[0] == AfterItem(b, y)[0];
      if |a| == 1 {
        CutAlike("]", x, "]", y);
      } else {
        CutAlike(",", PrintItems(a[1..]) + "]" + x, ",", PrintItems(b[1..]) + "]" + y);
        ItemsApart(a[1..], x, b[1..], y);
      }
      assert a == [a[0]] + a[1..] && b == [b[0]] + b[1..];
    }
  }

  lemma EmptyItems(x: string)
    ensures PrintItems([]) + "]" + x == "]" + x
    ensures PrintFields([]) + "}" + x == "}" + x
  {}

  function AfterField(fields: seq<Field>, x: string): (r: string)
    requires fields != []
    ensures Ends(r)
  {
    if |fields| == 1 then "}" + x else "," + (PrintFields(fields[1..]) + "}" + x)
  }

  lemma FieldsUnfold(fields: seq<Field>, x: string)
    requires fields != []
    ensures PrintFields(fields) + "}" + x ==
              Quote(fields[0].key) + (":" + (Print(fields[0].value) + AfterField(fields, x)))
  {
    hide Print, Quote;
    var rest := if |fields| == 1 then "" else "," + PrintFields(fields[1..]);
    Regrouped(Quote(fields[0].key), ":", Print(fields[0].value), rest, "}", x);
    Assoc(",", PrintFields(fields[1..]), "}");
    Assoc(",", PrintFields(fields[1..]) + "}", x);
  }

  lemma Regrouped(q: string, c: string, p: string, r: string, e: string, x: string)
    ensures q + c + p + r + e + x == q + (c + (p + (r + e + x)))
  {}

  lemma {:induction false} FieldsApart(a: seq<Field>, x: string, b: seq<Field>, y: string)
    requires PrintFields(a) + "}" + x == PrintFields(b) + "}" + y
    ensures a == b && x == y
    decreases a, 0
  {
    hide Print, PrintFields, Escape;
    EmptyItems(x);
    EmptyItems(y);
    if a == [] && b == [] {
      CutAlike("}", x, "}", y);
    } else if a == [] {
      FieldsUnfold(b, y);
      QuoteIsNoEnd(b[0].key, ":" + (Print(b[0].value) + AfterField(b, y)), "}" + x);
    } else if b == [] {
      FieldsUnfold(a, x);
      QuoteIsNoEnd(a[0].key, ":" + (Print(a[0].value) + AfterField(a, x)), "}" + y);
    } else {
      FieldsUnfold(a, x);
      FieldsUnfold(b, y);
      var u, v := Print(a[0].value) + AfterField(a, x), Print(b[0].value) + AfterField(b, y);
      QuotesApart(a[0].key, ":" + u, b[0].key, ":" + v);
      CutAlike(":", u, ":", v);
      TreesApart(a[0].value, AfterField(a, x), b[0].value, AfterField(b, y));
      assert AfterField(a, x)[0] == AfterField(b, y)[0];
      if |a| == 1 {
        CutAlike("}", x, "}", y);
      } else {
        CutAlike(",", PrintFields(a[1..]) + "}" + x, ",", PrintFields(b[1..]) + "}" + y);
        FieldsApart(a[1..], x, b[1..], y);
      }
      assert a == [a[0]] + a[1..] && b == [b[0]] + b[1..];
    }
  }

  /** Distinct trees have distinct texts. */
  lemma PrintInjective(a: Tree, b: Tree)
    requires Print(a) == Print(b)
    ensures a == b
  {
    assert Print(a) + "" == Print(b) + "";
    TreesApart(a, "", b, "");
  }
}
