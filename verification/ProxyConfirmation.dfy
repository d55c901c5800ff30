/** Confirming a default proxy: finding the settings in a reply, comparing them, and building the public answer. */
module ProxyConfirmation {
  import opened Basics
  import opened CanonicalJson
  import JsonText

  const MAX_ENVELOPE_DEPTH: nat := 2

  const PUBLIC_FIELDS: seq<string> := ["enabled", "host", "port", "protocol", "username"]

  type Fields = map<string, Value>

  datatype Location = Leaf(leaf: Fields, depth: nat) | Empty | Unknown | Invalid

  /** What was sent; a missing field is undefined. */
  datatype Sent = Sent(enabled: bool, host: Option<Value>, port: Option<Value>, protocol: Option<Value>,
                       username: Option<Value>)

  datatype Outcome = Nothing | Unreadable | Divergent | Confirmed(leaf: Fields)

  function Get(m: Fields, key: string): Option<Value> {
    if key in m then Some(m[key]) else None
  }

  predicate OptionalText(v: Option<Value>) {
    v.None? || v.value.VNull? || v.value.VStr?
  }

  predicate ValidLeaf(leaf: Fields) {
    && "enabled" in leaf && leaf["enabled"].VBool?
    && OptionalText(Get(leaf, "host")) && OptionalText(Get(leaf, "protocol")) && OptionalText(Get(leaf, "username"))
    && (OptionalText(Get(leaf, "port")) || leaf["port"].VNum?)
  }

  /** One level of the reply: another instance's name is refused, settings end the search, an envelope goes on. */
  function LocateAt(current: Fields, name: string, depth: nat): Location
    decreases MAX_ENVELOPE_DEPTH + 1 - depth
  {
    if depth > MAX_ENVELOPE_DEPTH then Invalid
    else if "instanceName" in current && current["instanceName"] != VStr(name) then Invalid
    else
      var next := Get(current, "proxy");
      if "enabled" in current then
        if (next.Some? && !next.value.VNull?) || !ValidLeaf(current) then Invalid else Leaf(current, depth)
      else if next == Some(VNull) then Empty
      else if next.None? then (if current == map[] then Empty else Unknown)
      else if !next.value.VObj? then Invalid
      else LocateAt(next.value.fields, name, depth + 1)
  }

  function Located(body: Option<Value>, name: string): Location {
    if body.None? || body.value == VNull || body.value == VStr("") then Empty
    else if body.value.VArr? then Invalid
    else if !body.value.VObj? then Unknown
    else LocateAt(body.value.fields, name, 0)
  }

  /** The search as it runs. */
  method LocateProxyLeaf(body: Option<Value>, name: string) returns (r: Location)
    ensures r == Located(body, name)
  {
    if body.None? || body.value == VNull || body.value == VStr("") { return Empty; }
    if body.value.VArr? { return Invalid; }
    if !body.value.VObj? { return Unknown; }
    var current := body.value.fields;
    for depth := 0 to MAX_ENVELOPE_DEPTH + 1
      invariant LocateAt(current, name, depth) == Located(body, name)
    {
      if "instanceName" in current && current["instanceName"] != VStr(name) { return Invalid; }
      var next := Get(current, "proxy");
      if "enabled" in current {
        if next.Some? && next.value != VNull { return Invalid; }
        if !ValidLeaf(current) { return Invalid; }
        return Leaf(current, depth);
      }
      if next == Some(VNull) { return Empty; }
      if next.None? {
        if |current| == 0 { return Empty; }
        return Unknown;
      }
      if !next.value.VObj? { return Invalid; }
      current := next.value.fields;
    }
    return Invalid;
  }

  // ----- comparing -----

  function AsText(v: Option<Value>): Option<string> {
    if v.None? || v.value.VNull? then Some("")
    else if v.value.VStr? then Some(v.value.s)
    else if v.value.VNum? then Some(JsonText.IntText(v.value.n))
    else None
  }

  predicate Matches(leaf: Fields, sent: Sent) {
    && Get(leaf, "enabled") == Some(VBool(sent.enabled))
    && (sent.enabled ==>
          && Get(leaf, "host") == sent.host && Get(leaf, "protocol") == sent.protocol
          && AsText(Get(leaf, "port")) == AsText(sent.port) && AsText(Get(leaf, "username")) == AsText(sent.username))
  }

  function Classify(body: Option<Value>, name: string, sent: Sent): Outcome {
    match Located(body, name)
    case Empty => Nothing
    case Leaf(leaf, _) => if Matches(leaf, sent) then Confirmed(leaf) else Divergent
    case _ => Unreadable
  }

  // ----- what is found, and what counts as confirmed -----

  /** The fields inside `k` envelopes. */
  function Inside(body: Fields, k: nat): Option<Fields>
    decreases k
  {
    if k == 0 then Some(body)
    else if "proxy" in body && body["proxy"].VObj? then Inside(body["proxy"].fields, k - 1)
    else None
  }

  /** An envelope: no settings of its own, and of no other instance. */
  predicate IsEnvelope(m: Fields, name: string) {
    "enabled" !in m && ("instanceName" in m ==> m["instanceName"] == VStr(name))
  }

  /** Settings: of this instance, around nothing else, switched on or off, their fields of the types they can have. */
  ghost predicate LeafOf(leaf: Fields, name: string) {
    && ("instanceName" in leaf ==> leaf["instanceName"] == VStr(name))
    && ("proxy" in leaf ==> leaf["proxy"] == VNull)
    && "enabled" in leaf && leaf["enabled"].VBool?
    && (forall key :: key in leaf && key in {"host", "protocol", "username", "port"} ==>
                        leaf[key].VNull? || leaf[key].VStr? || (key == "port" && leaf[key].VNum?))
  }

  /** Through envelopes only to settings. */
  ghost predicate SettingsFrom(body: Fields, name: string, leaf: Fields, depth: nat) {
    && Inside(body, depth) == Some(leaf) && LeafOf(leaf, name)
    && (forall k :: 0 <= k < depth ==> Inside(body, k).Some? && IsEnvelope(Inside(body, k).value, name))
  }

  /** Through at most two envelopes. */
  ghost predicate SettingsAt(body: Fields, name: string, leaf: Fields, depth: nat) {
    depth <= 2 && SettingsFrom(body, name, leaf, depth)
  }

  /** The search finds exactly such settings. */
  lemma FoundExactly(body: Fields, name: string, leaf: Fields, depth: nat)
    ensures Located(Some(VObj(body)), name) == Leaf(leaf, depth) <==> SettingsAt(body, name, leaf, depth)
  {
    FoundFrom(body, name, 0, leaf, depth);
  }

  lemma {:induction false} FoundFrom(body: Fields, name: string, from: nat, leaf: Fields, depth: nat)
    requires from <= MAX_ENVELOPE_DEPTH + 1
    ensures LocateAt(body, name, from) == Leaf(leaf, from + depth) <==>
              from + depth <= MAX_ENVELOPE_DEPTH && SettingsFrom(body, name, leaf, depth)
    ensures LocateAt(body, name, from).Leaf? ==> LocateAt(body, name, from).depth >= from
    decreases MAX_ENVELOPE_DEPTH + 1 - from
  {
    hide ValidLeaf;
    LeafExactly(leaf, name);
    LeafExactly(body, name);
    if from <= MAX_ENVELOPE_DEPTH && IsEnvelope(body, name) && "proxy" in body && body["proxy"].VObj? {
      var inner := body["proxy"].fields;
      if depth > 0 {
        FoundFrom(inner, name, from + 1, leaf, depth - 1);
        OneDeeper(body, name, leaf, depth);
      } else {
        FoundFrom(inner, name, from + 1, leaf, 0);
      }
    } else if depth > 0 && from <= MAX_ENVELOPE_DEPTH {
      NotDeeper(body, name, leaf, depth);
    }
  }

  lemma LeafExactly(leaf: Fields, name: string)
    ensures LeafOf(leaf, name) <==>
              ValidLeaf(leaf) && ("instanceName" in leaf ==> leaf["instanceName"] == VStr(name))
              && ("proxy" in leaf ==> leaf["proxy"] == VNull)
  {}

  lemma OneDeeper(body: Fields, name: string, leaf: Fields, depth: nat)
    requires IsEnvelope(body, name) && "proxy" in body && body["proxy"].VObj? && depth > 0
    ensures SettingsFrom(body, name, leaf, depth) <==> SettingsFrom(body["proxy"].fields, name, leaf, depth - 1)
  {
    var inner := body["proxy"].fields;
    assert forall k :: 0 < k <= depth ==> Inside(body, k) == Inside(inner, k - 1);
    if SettingsFrom(body, name, leaf, depth) {
      forall k | 0 <= k < depth - 1 ensures Inside(inner, k).Some? && IsEnvelope(Inside(inner, k).value, name) {
        assert Inside(body, k + 1) == Inside(inner, k);
      }
    }
  }

  lemma NotDeeper(body: Fields, name: string, leaf: Fields, depth: nat)
    requires depth > 0 && !(IsEnvelope(body, name) && "proxy" in body && body["proxy"].VObj?)
    ensures !SettingsFrom(body, name, leaf, depth)
  {
    assert Inside(body, 0) == Some(body);
  }

  /** Fields of this instance, without settings. */
  predicate Bare(m: Fields, name: string) {
    "enabled" !in m && ("instanceName" in m ==> m["instanceName"] == VStr(name))
  }

  /** Nothing is set: a null proxy, or no fields at all. */
  predicate NothingSet(m: Fields, name: string) {
    Bare(m, name) && if "proxy" in m then m["proxy"] == VNull else m == map[]
  }

  /** Fields that speak of something else. */
  predicate OtherThings(m: Fields, name: string) {
    Bare(m, name) && "proxy" !in m && m != map[]
  }

  /** Through bare fields only, at `depth`, the search comes to its end without settings. */
  ghost predicate EndsAt(body: Fields, name: string, depth: nat, end: Location) {
    && Inside(body, depth).Some?
    && (forall k :: 0 <= k < depth ==> Inside(body, k).Some? && Bare(Inside(body, k).value, name))
    && match end
       case Empty => NothingSet(Inside(body, depth).value, name)
       case Unknown => OtherThings(Inside(body, depth).value, name)
       case _ => false
  }

  /** The other answers of the search: nothing set, or no settings in sight; everything else is invalid. */
  lemma AbsentExactly(body: Option<Value>, name: string)
    ensures Located(body, name) == Empty <==>
              || body.None? || body.value == VNull || body.value == VStr("")
              || (body.value.VObj? && exists depth: nat :: depth <= 2 && EndsAt(body.value.fields, name, depth, Empty))
    ensures Located(body, name) == Unknown <==>
              && body.Some? && body.value != VNull && body.value != VStr("") && !body.value.VArr?
              && (body.value.VObj? ==>
                    exists depth: nat :: depth <= 2 && EndsAt(body.value.fields, name, depth, Unknown))
  {
    hide LocateAt, EndsAt;
    if body.Some? && body.value.VObj? {
      AbsentFrom(body.value.fields, name, 0, Empty);
      AbsentFrom(body.value.fields, name, 0, Unknown);
    }
  }

  lemma {:induction false} AbsentFrom(body: Fields, name: string, from: nat, end: Location)
    requires from <= MAX_ENVELOPE_DEPTH + 1 && (end.Empty? || end.Unknown?)
    ensures LocateAt(body, name, from) == end <==>
              exists depth: nat :: from + depth <= MAX_ENVELOPE_DEPTH && EndsAt(body, name, depth, end)
    decreases MAX_ENVELOPE_DEPTH + 1 - from
  {
    hide ValidLeaf;
    if from <= MAX_ENVELOPE_DEPTH && Bare(body, name) && "proxy" in body && body["proxy"].VObj? {
      var inner := body["proxy"].fields;
      AbsentFrom(inner, name, from + 1, end);
      forall depth: nat ensures EndsAt(body, name, depth + 1, end) <==> EndsAt(inner, name, depth, end) {
        EndsInside(body, name, depth, end);
      }
      OneLevelIn(body, inner, name, from, end);
    } else if from <= MAX_ENVELOPE_DEPTH {
      forall depth: nat | depth > 0 ensures !EndsAt(body, name, depth, end) { assert Inside(body, 0) == Some(body); }
      assert EndsAt(body, name, 0, end) <==> LocateAt(body, name, from) == end;
    }
  }

  lemma EndsInside(body: Fields, name: string, depth: nat, end: Location)
    requires Bare(body, name) && "proxy" in body && body["proxy"].VObj?
    ensures EndsAt(body, name, depth + 1, end) <==> EndsAt(body["proxy"].fields, name, depth, end)
  {
    hide NothingSet, OtherThings;
    var inner := body["proxy"].fields;
    assert forall k: nat :: k <= depth ==> Inside(body, k + 1) == Inside(inner, k);
    if EndsAt(inner, name, depth, end) {
      forall k | 0 <= k < depth + 1 ensures Inside(body, k).Some? && Bare(Inside(body, k).value, name) {
        if k > 0 { assert Inside(body, k) == Inside(inner, k - 1); }
      }
    }
    if EndsAt(body, name, depth + 1, end) {
      forall k | 0 <= k < depth ensures Inside(inner, k).Some? && Bare(Inside(inner, k).value, name) {
        assert Inside(body, k + 1) == Inside(inner, k);
      }
    }
  }

  lemma OneLevelIn(body: Fields, inner: Fields, name: string, from: nat, end: Location)
    requires "proxy" in body && body["proxy"].VObj?
    requires forall depth: nat :: EndsAt(body, name, depth + 1, end) <==> EndsAt(inner, name, depth, end)
    ensures (exists depth: nat :: from + depth <= MAX_ENVELOPE_DEPTH && EndsAt(body, name, depth, end)) <==>
            (exists depth: nat :: from + 1 + depth <= MAX_ENVELOPE_DEPTH && EndsAt(inner, name, depth, end))
  {
    assert !EndsAt(body, name, 0, end);
    if depth: nat :| from + depth <= MAX_ENVELOPE_DEPTH && EndsAt(body, name, depth, end) {
      assert depth > 0 && EndsAt(inner, name, depth - 1, end) by { assert EndsAt(body, name, depth - 1 + 1, end); }
      assert from + 1 + (depth - 1) <= MAX_ENVELOPE_DEPTH;
    }
    if depth: nat :| from + 1 + depth <= MAX_ENVELOPE_DEPTH && EndsAt(inner, name, depth, end) {
      assert EndsAt(body, name, depth + 1, end) && from + (depth + 1) <= MAX_ENVELOPE_DEPTH;
    }
  }

  /** As text, a number and its decimal spelling are the same, and so are nothing, null and the empty text. */
  predicate SameText(a: Option<Value>, b: Option<Value>) {
    || (Blank(a) && Blank(b))
    || (a.Some? && b.Some? && !Blank(a) && !Blank(b) && match (a.value, b.value)
        case (VStr(s), VStr(t)) => s == t
        case (VNum(m), VNum(n)) => m == n
        case (VStr(s), VNum(n)) => s == JsonText.IntText(n)
        case (VNum(m), VStr(t)) => t == JsonText.IntText(m)
        case (VStr(_), _) => false
        case (VNum(_), _) => false
        case (_, VStr(_)) => false
        case (_, VNum(_)) => false
        case _ => true)
  }

  predicate Blank(v: Option<Value>) {
    v.None? || v.value == VNull || v.value == VStr("")
  }

  lemma SameTextExactly(a: Option<Value>, b: Option<Value>)
    ensures AsText(a) == AsText(b) <==> SameText(a, b)
  {
    hide JsonText.IntText;
    if a.Some? && b.Some? && a.value.VNum? && b.value.VNum? && AsText(a) == AsText(b) {
      SameNumber(a.value.n, b.value.n);
    }
  }

  lemma SameNumber(m: int, n: int)
    requires JsonText.IntText(m) == JsonText.IntText(n)
    ensures m == n
  {
    hide JsonText.IntText;
    assert JsonText.IntText(m) + "" == JsonText.IntText(n) + "";
    JsonText.IntsApart(m, "", n, "");
  }

  /**
   A read confirms exactly what was sent: settings, switched as sent, and if switched on with the
   host and protocol sent, and the port and user name sent as far as their text goes.
   */
  lemma ConfirmedExactly(body: Option<Value>, name: string, sent: Sent, leaf: Fields)
    ensures Classify(body, name, sent) == Confirmed(leaf) <==>
              && body.Some? && body.value.VObj?
              && (exists depth :: SettingsAt(body.value.fields, name, leaf, depth))
              && leaf["enabled"] == VBool(sent.enabled)
              && (sent.enabled ==>
                    && (if "host" in leaf then Some(leaf["host"]) else None) == sent.host
                    && (if "protocol" in leaf then Some(leaf["protocol"]) else None) == sent.protocol
                    && SameText(if "port" in leaf then Some(leaf["port"]) else None, sent.port)
                    && SameText(if "username" in leaf then Some(leaf["username"]) else None, sent.username))
    ensures Classify(body, name, sent) == Divergent <==>
              && !Classify(body, name, sent).Confirmed? && body.Some? && body.value.VObj?
              && exists l, depth :: SettingsAt(body.value.fields, name, l, depth)
  {
    hide SettingsAt, LocateAt, SameText, AsText, Blank;
    SameTextExactly(Get(leaf, "port"), sent.port);
    SameTextExactly(Get(leaf, "username"), sent.username);
    if body.Some? && body.value.VObj? {
      var fields := body.value.fields;
      forall l, depth: nat ensures Located(body, name) == Leaf(l, depth) <==> SettingsAt(fields, name, l, depth) {
        FoundExactly(fields, name, l, depth);
      }
      if Located(body, name).Leaf? {
        var l, depth := Located(body, name).leaf, Located(body, name).depth;
        assert SettingsAt(fields, name, l, depth);
        SettingsSwitched(fields, name, leaf);
        assert (exists k :: SettingsAt(fields, name, leaf, k)) ==> leaf == l;
      }
    }
  }

  lemma SettingsSwitched(body: Fields, name: string, leaf: Fields)
    ensures (exists depth :: SettingsAt(body, name, leaf, depth)) ==> "enabled" in leaf
  {}

  // ----- the public answer -----

  function WithoutPasswords(v: Value): Value
  {
    match v
    case VArr(items) => VArr(seq(|items|, k requires 0 <= k < |items| => WithoutPasswords(items[k])))
    case VObj(fields) => VObj(map k | k in fields && k != "password" :: WithoutPasswords(fields[k]))
    case _ => v
  }

  /** No object inside has a password key. */
  predicate NoPasswords(v: Value) {
    match v
    case VArr(items) => forall k :: 0 <= k < |items| ==> NoPasswords(items[k])
    case VObj(fields) => "password" !in fields && forall k :: k in fields ==> NoPasswords(fields[k])
    case _ => true
  }

  lemma {:induction false} PasswordsGone(v: Value)
    ensures NoPasswords(WithoutPasswords(v))
  {
    match v
    case VArr(items) =>
      forall k | 0 <= k < |items| ensures NoPasswords(WithoutPasswords(items[k])) { PasswordsGone(items[k]); }
    case VObj(fields) =>
      forall k | k in fields ensures NoPasswords(WithoutPasswords(fields[k])) { PasswordsGone(fields[k]); }
    case _ =>
  }

  /** The public fields are the confirmed ones, all others the reply's own. */
  function PublicLeaf(base: Fields, confirmed: Fields): Fields {
    map k | k in base.Keys + confirmed.Keys && (if k in PUBLIC_FIELDS then k in confirmed else k in base) ::
      if k in PUBLIC_FIELDS then confirmed[k] else base[k]
  }

  method WritePublicFields(base: Fields, confirmed: Fields) returns (leaf: Fields)
    ensures leaf == PublicLeaf(base, confirmed)
  {
    leaf := base;
    for i := 0 to |PUBLIC_FIELDS|
      invariant forall k :: k in leaf <==> if k in PUBLIC_FIELDS[..i] then k in confirmed else k in base
      invariant forall k :: k in leaf ==> leaf[k] == if k in PUBLIC_FIELDS[..i] then confirmed[k] else base[k]
    {
      var field := PUBLIC_FIELDS[i];
      assert PUBLIC_FIELDS[..i + 1] == PUBLIC_FIELDS[..i] + [field];
      leaf := if field in confirmed then leaf[field := confirmed[field]] else leaf - {field};
    }
    assert PUBLIC_FIELDS[..|PUBLIC_FIELDS|] == PUBLIC_FIELDS;
  }

  /** The reply's envelopes around another leaf. */
  function ReplaceLeaf(body: Fields, depth: nat, leaf: Fields): Fields
    decreases depth
  {
    if depth == 0 then leaf
    else if "proxy" in body && body["proxy"].VObj?
           then body["proxy" := VObj(ReplaceLeaf(body["proxy"].fields, depth - 1, leaf))]
    else body
  }

  function Envelope(setBody: Option<Value>, confirmed: Fields, name: string): Fields {
    match Located(setBody, name)
    case Leaf(leaf, depth) => if setBody.Some? && setBody.value.VObj?
                                then ReplaceLeaf(setBody.value.fields, depth, PublicLeaf(leaf, confirmed)) else map[]
    case _ => map["proxy" := VObj(map["instanceName" := VStr(name), "proxy" := VObj(PublicLeaf(map[], confirmed))])]
  }

  function BuildPublicProxy(setBody: Option<Value>, confirmed: Fields, name: string): Option<Value> {
    if Located(setBody, name) == Invalid then None else Some(WithoutPasswords(VObj(Envelope(setBody, confirmed, name))))
  }

  /** A set reply is refused, and nothing is shown, exactly if it speaks of another instance or is of no known shape. */
  lemma RefusedExactly(setBody: Option<Value>, confirmed: Fields, name: string)
    ensures BuildPublicProxy(setBody, confirmed, name).None? <==>
              !Located(setBody, name).Leaf? && !Located(setBody, name).Empty? && !Located(setBody, name).Unknown?
    ensures setBody.Some? && setBody.value.VObj? && "instanceName" in setBody.value.fields
            && setBody.value.fields["instanceName"] != VStr(name) ==>
              BuildPublicProxy(setBody, confirmed, name).None?
  {}

  function Cleaned(m: Fields): Fields {
    map k | k in m && k != "password" :: WithoutPasswords(m[k])
  }

  /** A field that holds no object or array survives the cleaning as it is. */
  lemma CleanedPlain(m: Fields, key: string)
    requires key != "password" && (key in m ==> !m[key].VObj? && !m[key].VArr?)
    ensures Get(Cleaned(m), key) == Get(m, key)
  {}

  /** What makes a set of fields the settings themselves, rather than an envelope. */
  predicate Settings(m: Fields, name: string) {
    && ValidLeaf(m) && (Get(m, "instanceName").None? || m["instanceName"] == VStr(name))
    && (Get(m, "proxy").None? || m["proxy"] == VNull)
  }

  lemma SettingsCleaned(m: Fields, name: string)
    requires Settings(m, name)
    ensures Settings(Cleaned(m), name)
    ensures forall sent :: Matches(Cleaned(m), sent) <==> Matches(m, sent)
  {
    CleanedPlain(m, "enabled");
    CleanedPlain(m, "host");
    CleanedPlain(m, "port");
    CleanedPlain(m, "protocol");
    CleanedPlain(m, "username");
    CleanedPlain(m, "instanceName");
    CleanedPlain(m, "proxy");
  }

  lemma LocatedIsSettings(current: Fields, name: string, depth: nat)
    requires LocateAt(current, name, depth).Leaf?
    ensures Settings(LocateAt(current, name, depth).leaf, name)
            && depth <= LocateAt(current, name, depth).depth <= MAX_ENVELOPE_DEPTH
    decreases MAX_ENVELOPE_DEPTH + 1 - depth
  {
    if "enabled" !in current { LocatedIsSettings(current["proxy"].fields, name, depth + 1); }
  }

  /** Confirmed public fields over any settings of the reply are settings again, and match as the confirmed ones do. */
  lemma PublicLeafIsSettings(base: Fields, confirmed: Fields, name: string)
    requires ValidLeaf(confirmed)
    requires Get(base, "instanceName").None? || base["instanceName"] == VStr(name)
    requires Get(base, "proxy").None? || base["proxy"] == VNull
    ensures Settings(PublicLeaf(base, confirmed), name)
    ensures forall sent :: Matches(PublicLeaf(base, confirmed), sent) <==> Matches(confirmed, sent)
  {
    var leaf := PublicLeaf(base, confirmed);
    assert PUBLIC_FIELDS[0] == "enabled" && PUBLIC_FIELDS[1] == "host" && PUBLIC_FIELDS[2] == "port"
           && PUBLIC_FIELDS[3] == "protocol" && PUBLIC_FIELDS[4] == "username";
    assert Get(leaf, "enabled") == Get(confirmed, "enabled") && Get(leaf, "host") == Get(confirmed, "host")
           && Get(leaf, "port") == Get(confirmed, "port");
    assert Get(leaf, "protocol") == Get(confirmed, "protocol") && Get(leaf, "username") == Get(confirmed, "username");
    assert "instanceName" !in PUBLIC_FIELDS && "proxy" !in PUBLIC_FIELDS;
  }

  /** Reading back a rebuilt reply finds the new settings at the depth of the old. */
  lemma {:induction false} RebuiltIsFound(current: Fields, name: string, depth: nat, leaf: Fields)
    requires LocateAt(current, name, depth).Leaf? && Settings(leaf, name)
    ensures var d := LocateAt(current, name, depth).depth;
            depth <= d
            && LocateAt(Cleaned(ReplaceLeaf(current, d - depth, leaf)), name, depth) == Leaf(Cleaned(leaf), d)
    decreases MAX_ENVELOPE_DEPTH + 1 - depth
  {
    hide ValidLeaf, Cleaned;
    var d := LocateAt(current, name, depth).depth;
    LocatedIsSettings(current, name, depth);
    if "enabled" in current {
      SettingsCleaned(leaf, name);
      SettingsAreFound(Cleaned(leaf), name, depth);
    } else {
      var inner := current["proxy"].fields;
      LocatedIsSettings(inner, name, depth + 1);
      RebuiltIsFound(inner, name, depth + 1, leaf);
      var rebuilt := ReplaceLeaf(current, d - depth, leaf);
      assert rebuilt["proxy"] == VObj(ReplaceLeaf(inner, d - depth - 1, leaf));
      EnvelopeGoesOn(rebuilt, name, depth);
    }
  }

  lemma SettingsAreFound(m: Fields, name: string, depth: nat)
    requires Settings(m, name) && depth <= MAX_ENVELOPE_DEPTH
    ensures LocateAt(m, name, depth) == Leaf(m, depth)
  {}

  /** Cleaning an envelope leaves it an envelope. */
  lemma EnvelopeGoesOn(m: Fields, name: string, depth: nat)
    requires depth <= MAX_ENVELOPE_DEPTH && "enabled" !in m
             && (Get(m, "instanceName").None? || m["instanceName"] == VStr(name))
    requires "proxy" in m && m["proxy"].VObj?
    ensures LocateAt(Cleaned(m), name, depth) == LocateAt(Cleaned(m["proxy"].fields), name, depth + 1)
  {
    CleanedPlain(m, "instanceName");
    assert Cleaned(m)["proxy"] == VObj(Cleaned(m["proxy"].fields));
  }

  /**
   A confirmed read and a set reply that is not refused give a public answer without any
   password, which classifies as confirmed again: with the reply's envelopes when it
   had settings in it, in two envelopes otherwise.
   */
  lemma PublicProxyConfirms(readBody: Option<Value>, setBody: Option<Value>, name: string, sent: Sent)
    requires Classify(readBody, name, sent).Confirmed? && Located(setBody, name) != Invalid
    ensures var built := BuildPublicProxy(setBody, Classify(readBody, name, sent).leaf, name);
            && built.Some? && NoPasswords(built.value)
            && Classify(built, name, sent).Confirmed?
            && Located(built, name).Leaf?
            && Located(built, name).depth == if Located(setBody, name).Leaf? then Located(setBody, name).depth
                                             else MAX_ENVELOPE_DEPTH
  {
    hide ValidLeaf, LocateAt, PublicLeaf, Matches, Envelope, ReplaceLeaf, WithoutPasswords, NoPasswords, Cleaned;
    var confirmed := Classify(readBody, name, sent).leaf;
    LocatedIsSettings(readBody.value.fields, name, 0);
    SettingsAreValid(confirmed, name);
    PasswordsGone(VObj(Envelope(setBody, confirmed, name)));
    CleanedObject(Envelope(setBody, confirmed, name));
    if Located(setBody, name).Leaf? {
      ReplyKept(setBody, confirmed, name, sent);
    } else {
      ReplyReplaced(setBody, confirmed, name, sent);
    }
  }

  lemma CleanedObject(m: Fields)
    ensures WithoutPasswords(VObj(m)) == VObj(Cleaned(m))
  {}

  lemma ReplyKept(setBody: Option<Value>, confirmed: Fields, name: string, sent: Sent)
    requires Located(setBody, name).Leaf? && ValidLeaf(confirmed) && Matches(confirmed, sent)
    ensures var found := LocateAt(Cleaned(Envelope(setBody, confirmed, name)), name, 0);
            found.Leaf? && found.depth == Located(setBody, name).depth && Matches(found.leaf, sent)
  {
    hide ValidLeaf, LocateAt, PublicLeaf, Matches, ReplaceLeaf, Cleaned;
    var body, located := setBody.value.fields, Located(setBody, name);
    var leaf := PublicLeaf(located.leaf, confirmed);
    LocatedIsSettings(body, name, 0);
    PublicLeafIsSettings(located.leaf, confirmed, name);
    RebuiltIsFound(body, name, 0, leaf);
    assert located.depth - 0 == located.depth;
    SettingsCleaned(leaf, name);
  }

  lemma ReplyReplaced(setBody: Option<Value>, confirmed: Fields, name: string, sent: Sent)
    requires !Located(setBody, name).Leaf? && ValidLeaf(confirmed) && Matches(confirmed, sent)
    ensures var found := LocateAt(Cleaned(Envelope(setBody, confirmed, name)), name, 0);
            found.Leaf? && found.depth == MAX_ENVELOPE_DEPTH && Matches(found.leaf, sent)
  {
    hide ValidLeaf, LocateAt, PublicLeaf, Matches, Cleaned;
    var leaf := PublicLeaf(map[], confirmed);
    PublicLeafIsSettings(map[], confirmed, name);
    FallbackIsFound(leaf, name);
    SettingsCleaned(leaf, name);
  }

  lemma SettingsAreValid(m: Fields, name: string)
    requires Settings(m, name)
    ensures ValidLeaf(m)
  {}

  lemma FallbackIsFound(leaf: Fields, name: string)
    requires Settings(leaf, name)
    ensures LocateAt(Cleaned(map["proxy" := VObj(map["instanceName" := VStr(name), "proxy" := VObj(leaf)])]), name,
                     0) == Leaf(Cleaned(leaf), MAX_ENVELOPE_DEPTH)
  {
    hide ValidLeaf, LocateAt;
    var inner: Fields := map["instanceName" := VStr(name), "proxy" := VObj(leaf)];
    EnvelopeGoesOn(map["proxy" := VObj(inner)], name, 0);
    EnvelopeGoesOn(inner, name, 1);
    SettingsCleaned(leaf, name);
    SettingsAreFound(Cleaned(leaf), name, 2);
  }
}
