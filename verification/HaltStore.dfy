/** The durable halt records (halt_state.py, resume_cli.py) and the keys they are filed under. */
module HaltStore {
  import opened Wrappers
  import opened JsonValues
  import opened GuardSpec

  // ---------------------------------------------------------------- file names

  predicate SafeChar(c: char) {
    'A' <= c <= 'Z' || 'a' <= c <= 'z' || '0' <= c <= '9' || c == '_' || c == '.' || c == '-'
  }

  function Sanitize(s: string): (r: string)
    ensures |r| == |s|
    ensures forall i :: 0 <= i < |s| ==> r[i] == if SafeChar(s[i]) then s[i] else '_'
  {
    seq(|s|, i requires 0 <= i < |s| => if SafeChar(s[i]) then s[i] else '_')
  }

  function Stem(platform: string): string {
    if platform == "" then "unknown" else Sanitize(platform)
  }

  const SUFFIX := ".json"

  function SafeFilename(platform: string): string { Stem(platform) + SUFFIX }

  /** pathlib's stem of a name that ends in the suffix. */
  function StemOf(file: string): string
    requires |SUFFIX| <= |file|
  {
    file[..|file| - |SUFFIX|]
  }

  /** The characters of a key that its file name keeps, by their codes: digits, capitals, small letters. */
  lemma SafeCharsAre(c: char)
    ensures SafeChar(c) <==>
      48 <= c as int <= 57 || 65 <= c as int <= 90 || 97 <= c as int <= 122 || c == '_' || c == '.' || c == '-'
  {
  }

  /** A listed stem leads back to the very file it was listed for. */
  lemma {:induction false} ListedNamesRoundTrip(platform: string)
    ensures StemOf(SafeFilename(platform)) == Stem(platform)
    ensures SafeFilename(Stem(platform)) == SafeFilename(platform)
  {
    if platform == "" {
      assert Sanitize("unknown") == "unknown";
    } else {
      assert Sanitize(Sanitize(platform)) == Sanitize(platform);
    }
  }

  datatype Backend = Backend(name: string, isRemote: bool, userHost: Option<string>)

  function HaltKey(b: Backend): string {
    if b.isRemote && b.userHost.Some? && b.userHost.value != "" then b.name + ":" + b.userHost.value else b.name
  }

  function LegacyKey(b: Backend): Option<string> {
    if b.isRemote && b.userHost.Some? && b.userHost.value != "" then Some(b.name) else None
  }

  /** Different hosts of one platform have different keys, but not always different records. */
  lemma {:induction false} HostsHaveTheirOwnKeys(name: string, h: string, k: string)
    requires h != "" && k != "" && h != k
    ensures HaltKey(Backend(name, true, Some(h))) != HaltKey(Backend(name, true, Some(k)))
  {
    assert (name + ":" + h)[|name| + 1..] == h;
    assert (name + ":" + k)[|name| + 1..] == k;
  }

  /** A character that cannot be told from others once a key has become a file name. */
  predicate Blurred(c: char) { c == '_' || !SafeChar(c) }

  predicate LookAlike(c: char, d: char) { c == d || (Blurred(c) && Blurred(d)) }

  lemma {:induction false} SanitizedAlikeExactlyWhen(a: string, b: string)
    ensures Sanitize(a) == Sanitize(b) <==> |a| == |b| && forall i :: 0 <= i < |a| ==> LookAlike(a[i], b[i])
  {
    if Sanitize(a) == Sanitize(b) {
      assert |a| == |b|;
      forall i | 0 <= i < |a| ensures LookAlike(a[i], b[i]) { assert Sanitize(a)[i] == Sanitize(b)[i]; }
    }
  }

  /** Two hosts of a platform share a record exactly when their names are equally long and differ only in
      characters that are unsafe in a file name, or underscores. */
  lemma {:induction false} HostsShareARecordExactlyWhen(name: string, h: string, k: string)
    requires h != "" && k != ""
    ensures var file, other := SafeFilename(HaltKey(Backend(name, true, Some(h)))),
                               SafeFilename(HaltKey(Backend(name, true, Some(k))));
      file == other <==> |h| == |k| && forall i :: 0 <= i < |h| ==> LookAlike(h[i], k[i])
  {
    var a, b := name + ":" + h, name + ":" + k;
    assert StemOf(SafeFilename(a)) == Stem(a) && StemOf(SafeFilename(b)) == Stem(b);
    SanitizedAlikeExactlyWhen(a, b);
    assert forall i :: 0 <= i < |h| ==> a[|name| + 1 + i] == h[i];
    assert forall i :: 0 <= i < |k| ==> b[|name| + 1 + i] == k[i];
    if |h| == |k| && forall i :: 0 <= i < |h| ==> LookAlike(h[i], k[i]) {
      forall i | 0 <= i < |a| ensures LookAlike(a[i], b[i]) {
        if i > |name| { assert LookAlike(h[i - |name| - 1], k[i - |name| - 1]); }
      }
    } else if |a| == |b| {
      var i :| 0 <= i < |h| && !LookAlike(h[i], k[i]);
      assert !LookAlike(a[|name| + 1 + i], b[|name| + 1 + i]);
    }
  }

  /** The keys a target answers to: a remote one to its own and to that of its platform as a whole, under
      which halts used to be recorded; a local one to its name alone. */
  lemma {:induction false} KeysOfATarget(b: Backend)
    ensures var remote := b.isRemote && b.userHost.Some? && b.userHost.value != "";
      if remote then HaltKey(b) == b.name + ":" + b.userHost.value && LegacyKey(b) == Some(b.name)
      else HaltKey(b) == b.name && LegacyKey(b) == None
  {
  }

  /** The record of a remote target is never that of its platform as a whole. */
  lemma {:induction false} OwnRecordsDiffer(b: Backend)
    requires LegacyKey(b).Some?
    ensures SafeFilename(HaltKey(b)) != SafeFilename(LegacyKey(b).value)
  {
    var key, platform := HaltKey(b), LegacyKey(b).value;
    assert StemOf(SafeFilename(key)) == Stem(key) && StemOf(SafeFilename(platform)) == Stem(platform);
    if b.name == "" { assert Stem(key)[0] == '_'; }
  }

  lemma {:induction false} SomeHostsShareARecord()
    ensures var a := Backend("remote-ssh:macos", true, Some("me@x"));
      var b := Backend("remote-ssh:macos", true, Some("me_x"));
      HaltKey(a) != HaltKey(b) && SafeFilename(HaltKey(a)) == SafeFilename(HaltKey(b))
  {
    HostsHaveTheirOwnKeys("remote-ssh:macos", "me@x", "me_x");
    assert Sanitize("remote-ssh:macos:me@x") == "remote-ssh_macos_me_x";
    assert Sanitize("remote-ssh:macos:me_x") == "remote-ssh_macos_me_x";
  }

  // ---------------------------------------------------------------- records

  const PERSISTED_BASIS := "persisted_halt_from_prior_session"
  const PERSISTED_UNKNOWN_PREFIX := "persisted_target_clock_failure:"
  const TARGET_CLOCK_FAILURES: set<string> :=
    {"target_clock_unreadable", "target_clock_unacknowledged", "target_precondition_rejected"}

  /** A file as text: either json.loads gives up on it, at a fault or an integer of more digits than it
      reads, having got `nested` deep by then, or it holds a value. */
  datatype Text = Faulty(nested: nat) | Value(v: Json)

  type Store = map<string, Text>

  /** The interpreter at the moment of a call: how much deeper json.loads and str() can still go, and
      which texts float() reads. */
  datatype Python = Python(loads: nat, shows: nat, numeric: string -> bool)

  function RemovePrefix(s: string, p: string): string { if p <= s then s[|p|..] else s }

  // ---------------------------------------------------------------- writing a record

  /** What a record tells besides the platform and the basis. */
  datatype Details = Details(
    at: real, reason: string, ago: Option<real>, margin: Option<real>, guardMs: real, measured: bool)

  function Optional(r: Option<real>): Json { if r.Some? then Float(r.value) else Null }

  /** record_halt's choice of basis. */
  function BasisOf(s: Snapshot): Option<string> {
    var basis := RemovePrefix(s.basis, PERSISTED_UNKNOWN_PREFIX);
    if s.presence == Unknown && basis in TARGET_CLOCK_FAILURES then Some(basis) else None
  }

  /** to_dict. */
  function FieldsOf(platform: string, basis: Option<string>, d: Details): seq<Field> {
    [Field("platform", Str(platform)), Field("detected_at", Float(d.at)), Field("reason", Str(d.reason)),
     Field("last_human_input_ago_ms", Optional(d.ago)), Field("margin_ms", Optional(d.margin)),
     Field("guard_ms", Float(d.guardMs)), Field("guard_measured", Bool(d.measured))]
    + if basis.Some? then [Field("basis", Str(basis.value))] else []
  }

  function RecordOf(platform: string, s: Snapshot, d: Details): Text { Value(Obj(FieldsOf(platform, BasisOf(s), d))) }

  // ---------------------------------------------------------------- reading one

  /** How a conversion can fail: with an exception load_halt catches, or with another one. */
  datatype Flaw = Caught | Escapes

  /** float() takes no integer that rounds to 2^1024 or beyond: from 2^970 * (2^54 - 1) on. */
  const P97 := 0x2_0000_0000_0000_0000_0000_0000
  const P485 := P97 * P97 * P97 * P97 * P97
  const FLOAT_LIMIT := P485 * P485 * 0x3F_FFFF_FFFF_FFFF

  predicate Huge(v: Json) { v.Int? && (v.n >= FLOAT_LIMIT || v.n <= -FLOAT_LIMIT) }

  /** float(v): OverflowError is not among the exceptions that are caught. */
  function AsNumber(py: Python, v: Json): Validation<Flaw> {
    match v
    case Bool(_) => Pass
    case Int(_) => if Huge(v) then Fail(Escapes) else Pass
    case Float(_) => Pass
    case NonFinite => Pass
    case Str(s) => if py.numeric(s) then Pass else Fail(Caught)
    case _ => Fail(Caught)
  }

  /** str(v): RecursionError is not among them either. */
  function AsText(py: Python, v: Json): Validation<Flaw> { if Depth(v) > py.shows then Fail(Escapes) else Pass }

  /** The fields that are converted, in that order. */
  const CONVERTED := ["platform", "detected_at", "reason", "last_human_input_ago_ms", "margin_ms", "guard_ms"]

  predicate Required(key: string) { key == "platform" || key == "detected_at" }

  predicate Textual(key: string) { key == "platform" || key == "reason" }

  predicate Nullable(key: string) { key == "last_human_input_ago_ms" || key == "margin_ms" }

  function Convert(py: Python, f: seq<Field>, key: string): Validation<Flaw> {
    if !HasKey(f, key) then if Required(key) then Fail(Caught) else Pass
    else if Textual(key) then AsText(py, Lookup(f, key))
    else if Nullable(key) && Lookup(f, key).Null? then Pass
    else AsNumber(py, Lookup(f, key))
  }

  /** The first failure from the k-th conversion on. */
  function ConvertFrom(py: Python, f: seq<Field>, k: nat): Validation<Flaw>
    requires k <= |CONVERTED|
    decreases |CONVERTED| - k
  {
    if k == |CONVERTED| then Pass
    else if Convert(py, f, CONVERTED[k]).Fail? then Convert(py, f, CONVERTED[k])
    else ConvertFrom(py, f, k + 1)
  }

  /** from_dict: the basis of the record, or the first failure of its conversions. */
  function FromDict(py: Python, v: Json): Result<Option<string>, Flaw> {
    if !v.Obj? then Err(Caught)
    else
      :- ConvertFrom(py, v.fields, 0);
      Ok(BasisIn(v.fields))
  }

  function BasisIn(f: seq<Field>): Option<string> {
    if HasKey(f, "basis") && Lookup(f, "basis").Str? && Lookup(f, "basis").s in TARGET_CLOCK_FAILURES
    then Some(Lookup(f, "basis").s) else None
  }

  /** to_snapshot. */
  function SnapshotOf(basis: Option<string>): Snapshot {
    if basis.Some? && basis.value in TARGET_CLOCK_FAILURES
    then Snapshot(Unknown, PERSISTED_UNKNOWN_PREFIX + basis.value)
    else Snapshot(HumanActive, PERSISTED_BASIS)
  }

  datatype Loaded = Absent | Halt(snapshot: Snapshot) | Raises

  const CORRUPT := Halt(SnapshotOf(None))

  /** What load_halt makes of the text of a file. */
  function Parse(py: Python, text: Text): Loaded {
    match text
    case Faulty(nested) => if nested > py.loads then Raises else CORRUPT
    case Value(v) =>
      if Depth(v) > py.loads then Raises
      else
        match FromDict(py, v)
        case Ok(basis) => Halt(SnapshotOf(basis))
        case Err(Caught) => CORRUPT
        case Err(Escapes) => Raises
  }

  // ---------------------------------------------------------------- what reading does, told by the content

  /** A field that no conversion survives: a number beyond any float, or a name or reason nested too deep. */
  predicate Bursts(py: Python, f: seq<Field>, key: string) {
    HasKey(f, key)
    && var v := Lookup(f, key);
       if key == "platform" || key == "reason" then Depth(v) > py.shows
       else v.Int? && (v.n >= FLOAT_LIMIT || v.n <= -FLOAT_LIMIT)
  }

  /** A field that converts, or may be left out. */
  predicate Sits(py: Python, f: seq<Field>, key: string) {
    if !HasKey(f, key) then key != "platform" && key != "detected_at"
    else
      var v := Lookup(f, key);
      if key == "platform" || key == "reason" then Depth(v) <= py.shows
      else
        || ((key == "last_human_input_ago_ms" || key == "margin_ms") && v.Null?) || v.Bool? || v.Float? || v.NonFinite?
        || (v.Int? && -FLOAT_LIMIT < v.n < FLOAT_LIMIT) || (v.Str? && py.numeric(v.s))
  }

  /** The text is nested too deep, or some field bursts after all those before it have converted. */
  ghost predicate Explosive(py: Python, text: Text) {
    match text
    case Faulty(nested) => nested > py.loads
    case Value(v) =>
      || Depth(v) > py.loads
      || (v.Obj? && BurstsFrom(py, v.fields, 0))
  }

  /** Some field from the k-th on bursts after all those between have converted. */
  ghost predicate BurstsFrom(py: Python, f: seq<Field>, k: nat) {
    exists i :: && k <= i < |CONVERTED| && Bursts(py, f, CONVERTED[i])
                && forall j :: k <= j < i ==> Sits(py, f, CONVERTED[j])
  }

  ghost predicate AllSit(py: Python, f: seq<Field>) { forall k :: 0 <= k < |CONVERTED| ==> Sits(py, f, CONVERTED[k]) }

  /** Every field converts: the record is a proper one. */
  ghost predicate Proper(py: Python, text: Text) {
    text.Value? && text.v.Obj? && Depth(text.v) <= py.loads && AllSit(py, text.v.fields)
  }

  /** Reading raises exactly on explosive texts; every other one is a halt, with the basis of a proper
      record and as a detected human if the record is corrupt. */
  lemma {:induction false} ReadingMeaning(py: Python, text: Text)
    ensures Parse(py, text) == Raises <==> Explosive(py, text)
    ensures Proper(py, text) ==> Parse(py, text) == Halt(SnapshotOf(BasisIn(text.v.fields)))
    ensures !Explosive(py, text) && !Proper(py, text) ==>
              Parse(py, text) == Halt(Snapshot(HumanActive, PERSISTED_BASIS))
  {
    if text.Value? && text.v.Obj? && Depth(text.v) <= py.loads { ObjectsMeaning(py, text.v.fields); }
  }

  lemma {:induction false} ObjectsMeaning(py: Python, f: seq<Field>)
    requires Depth(Obj(f)) <= py.loads
    ensures Parse(py, Value(Obj(f))) == Raises <==> BurstsFrom(py, f, 0)
    ensures AllSit(py, f) ==> Parse(py, Value(Obj(f))) == Halt(SnapshotOf(BasisIn(f)))
    ensures !BurstsFrom(py, f, 0) && !AllSit(py, f) ==> Parse(py, Value(Obj(f))) == CORRUPT
  {
    FromDictMeaning(py, f);
    ParseOfObject(py, f);
  }

  lemma ParseOfObject(py: Python, f: seq<Field>)
    requires Depth(Obj(f)) <= py.loads
    ensures var r, l := FromDict(py, Obj(f)), Parse(py, Value(Obj(f)));
      && (l == Raises <==> r == Err(Escapes))
      && (r.Ok? ==> l == Halt(SnapshotOf(r.value)))
      && (r == Err(Caught) ==> l == CORRUPT)
  {
  }

  lemma {:induction false} FromDictMeaning(py: Python, f: seq<Field>)
    ensures FromDict(py, Obj(f)).Ok? <==> AllSit(py, f)
    ensures FromDict(py, Obj(f)).Ok? ==> FromDict(py, Obj(f)).value == BasisIn(f)
    ensures FromDict(py, Obj(f)) == Err(Escapes) <==> BurstsFrom(py, f, 0)
  {
    ConversionsMeaning(py, f, 0);
  }

  lemma {:induction false} ConvertMeaning(py: Python, f: seq<Field>, key: string)
    ensures Convert(py, f, key) == Pass <==> Sits(py, f, key)
    ensures Convert(py, f, key) == Fail(Escapes) <==> Bursts(py, f, key)
  {
  }

  lemma {:induction false} ConversionsMeaning(py: Python, f: seq<Field>, k: nat)
    requires k <= |CONVERTED|
    ensures ConvertFrom(py, f, k) == Pass <==> forall j :: k <= j < |CONVERTED| ==> Sits(py, f, CONVERTED[j])
    ensures ConvertFrom(py, f, k) == Fail(Escapes) <==> BurstsFrom(py, f, k)
    decreases |CONVERTED| - k
  {
    if k < |CONVERTED| {
      ConvertMeaning(py, f, CONVERTED[k]);
      ConversionsMeaning(py, f, k + 1);
      if BurstsFrom(py, f, k + 1) && Sits(py, f, CONVERTED[k]) {
        var i :| && k + 1 <= i < |CONVERTED| && Bursts(py, f, CONVERTED[i])
                 && forall j :: k + 1 <= j < i ==> Sits(py, f, CONVERTED[j]);
        assert forall j :: k <= j < i ==> Sits(py, f, CONVERTED[j]);
      }
    }
  }

  /** One integer too large for any float, and nesting too deep for the interpreter, in files that are
      otherwise what they should be, or nothing at all. */
  lemma {:induction false} SomeRecordsExplode(py: Python)
    ensures Parse(py, Value(Obj([Field("platform", Str("p")), Field("detected_at", Int(FLOAT_LIMIT))]))) == Raises
    ensures Parse(py, Faulty(py.loads + 1)) == Raises
  {
    var f := [Field("platform", Str("p")), Field("detected_at", Int(FLOAT_LIMIT))];
    assert f[0].key == "platform" && f[1].key == "detected_at";
    assert f[1..] == [Field("detected_at", Int(FLOAT_LIMIT))];
    assert Lookup(f, "platform") == Str("p") && Lookup(f, "detected_at") == Int(FLOAT_LIMIT);
    assert CONVERTED[0] == "platform" && CONVERTED[1] == "detected_at";
    assert Sits(py, f, CONVERTED[0]) && Bursts(py, f, CONVERTED[1]);
    assert BurstsFrom(py, f, 0);
    ReadingMeaning(py, Value(Obj(f)));
  }

  // ---------------------------------------------------------------- what is written is read back

  lemma {:induction false} LookupAt(f: seq<Field>, i: nat)
    requires i < |f| && forall j :: 0 <= j < i ==> f[j].key != f[i].key
    ensures HasKey(f, f[i].key) && Lookup(f, f[i].key) == f[i].value
  {
    assert HasKey(f, f[i].key);
    if i > 0 { LookupAt(f[1..], i - 1); }
  }

  ghost predicate Tells(f: seq<Field>, platform: string, basis: Option<string>, d: Details) {
    && HasKey(f, "platform") && Lookup(f, "platform") == Str(platform)
    && HasKey(f, "detected_at") && Lookup(f, "detected_at") == Float(d.at)
    && HasKey(f, "reason") && Lookup(f, "reason") == Str(d.reason)
    && HasKey(f, "last_human_input_ago_ms") && Lookup(f, "last_human_input_ago_ms") == Optional(d.ago)
    && HasKey(f, "margin_ms") && Lookup(f, "margin_ms") == Optional(d.margin)
    && HasKey(f, "guard_ms") && Lookup(f, "guard_ms") == Float(d.guardMs)
    && (HasKey(f, "basis") <==> basis.Some?) && (basis.Some? ==> Lookup(f, "basis") == Str(basis.value))
  }

  lemma {:induction false} FieldsRead(platform: string, basis: Option<string>, d: Details)
    ensures Tells(FieldsOf(platform, basis, d), platform, basis, d)
  {
    var f := FieldsOf(platform, basis, d);
    KeysDiffer(platform, basis, d);
    FieldsTell(f, platform, basis, d);
  }

  lemma {:induction false} FieldsTell(f: seq<Field>, platform: string, basis: Option<string>, d: Details)
    requires forall i, j :: 0 <= i < j < |f| ==> f[i].key != f[j].key
    requires |f| == (if basis.Some? then 8 else 7) && (basis == None ==> !HasKey(f, "basis"))
    requires f[0] == Field("platform", Str(platform)) && f[1] == Field("detected_at", Float(d.at))
    requires f[2] == Field("reason", Str(d.reason)) && f[3] == Field("last_human_input_ago_ms", Optional(d.ago))
    requires f[4] == Field("margin_ms", Optional(d.margin)) && f[5] == Field("guard_ms", Float(d.guardMs))
    requires basis.Some? ==> f[7] == Field("basis", Str(basis.value))
    ensures Tells(f, platform, basis, d)
  {
    Found(f, 0, "platform", Str(platform));
    Found(f, 1, "detected_at", Float(d.at));
    Found(f, 2, "reason", Str(d.reason));
    Found(f, 3, "last_human_input_ago_ms", Optional(d.ago));
    Found(f, 4, "margin_ms", Optional(d.margin));
    Found(f, 5, "guard_ms", Float(d.guardMs));
    if basis.Some? { Found(f, 7, "basis", Str(basis.value)); }
  }

  lemma {:induction false} Found(f: seq<Field>, i: nat, key: string, v: Json)
    requires forall i, j :: 0 <= i < j < |f| ==> f[i].key != f[j].key
    requires i < |f| && f[i] == Field(key, v)
    ensures HasKey(f, key) && Lookup(f, key) == v
  {
    LookupAt(f, i);
  }

  lemma {:induction false} KeysDiffer(platform: string, basis: Option<string>, d: Details)
    ensures var f := FieldsOf(platform, basis, d);
      && (forall i, j :: 0 <= i < j < |f| ==> f[i].key != f[j].key)
      && (basis == None ==> forall i :: 0 <= i < |f| ==> f[i].key != "basis")
  {
    var f := FieldsOf(platform, basis, d);
    assert |f[0].key| == 8 && |f[1].key| == 11 && |f[2].key| == 6 && |f[3].key| == 23;
    assert |f[4].key| == 9 && |f[5].key| == 8 && |f[6].key| == 14;
    assert f[0].key[0] == 'p' && f[5].key[0] == 'g';
    assert |f| > 7 ==> |f[7].key| == 5;
  }

  lemma {:induction false} FlatDepth(v: Json, i: nat)
    requires i <= Arity(v) && forall j :: i <= j < Arity(v) ==> Depth(Child(v, j)) == 0
    ensures DepthFrom(v, i) == 0
    decreases Arity(v) - i
  {
    if i < Arity(v) { FlatDepth(v, i + 1); }
  }

  lemma {:induction false} TellingFieldsSit(
      py: Python, f: seq<Field>, platform: string, basis: Option<string>, d: Details)
    requires Tells(f, platform, basis, d)
    ensures AllSit(py, f)
  {
    TextSits(py, f, "platform", platform);
    NumberSits(py, f, "detected_at", d.at);
    TextSits(py, f, "reason", d.reason);
    OptionalSits(py, f, "last_human_input_ago_ms", d.ago);
    OptionalSits(py, f, "margin_ms", d.margin);
    NumberSits(py, f, "guard_ms", d.guardMs);
    SixSit(py, f);
  }

  lemma TextSits(py: Python, f: seq<Field>, key: string, s: string)
    requires HasKey(f, key) && Lookup(f, key) == Str(s) && Textual(key)
    ensures Sits(py, f, key)
  {
  }

  lemma NumberSits(py: Python, f: seq<Field>, key: string, r: real)
    requires HasKey(f, key) && Lookup(f, key) == Float(r) && !Textual(key)
    ensures Sits(py, f, key)
  {
  }

  lemma OptionalSits(py: Python, f: seq<Field>, key: string, r: Option<real>)
    requires HasKey(f, key) && Lookup(f, key) == Optional(r) && !Textual(key) && Nullable(key)
    ensures Sits(py, f, key)
  {
  }

  lemma SixSit(py: Python, f: seq<Field>)
    requires Sits(py, f, CONVERTED[0]) && Sits(py, f, CONVERTED[1]) && Sits(py, f, CONVERTED[2])
    requires Sits(py, f, CONVERTED[3]) && Sits(py, f, CONVERTED[4]) && Sits(py, f, CONVERTED[5])
    ensures AllSit(py, f)
  {
  }

  /** A record reads back as the halt it was made from, reduced to what is remembered of it. */
  lemma {:induction false} RecordsReadBack(py: Python, platform: string, s: Snapshot, d: Details)
    requires py.loads >= 1
    ensures Parse(py, RecordOf(platform, s, d)) == Halt(SnapshotOf(BasisOf(s)))
  {
    FieldsRead(platform, BasisOf(s), d);
    TellingFieldsSit(py, FieldsOf(platform, BasisOf(s), d), platform, BasisOf(s), d);
    RecordsTellTheirBasis(platform, s, d);
    RecordsAreFlat(platform, BasisOf(s), d);
    ProperReadsBack(py, FieldsOf(platform, BasisOf(s), d), BasisOf(s));
  }

  lemma {:induction false} RecordsTellTheirBasis(platform: string, s: Snapshot, d: Details)
    ensures BasisIn(FieldsOf(platform, BasisOf(s), d)) == BasisOf(s)
  {
    FieldsRead(platform, BasisOf(s), d);
  }

  lemma {:induction false} RecordsAreFlat(platform: string, basis: Option<string>, d: Details)
    ensures Depth(Obj(FieldsOf(platform, basis, d))) == 1
  {
    FlatDepth(Obj(FieldsOf(platform, basis, d)), 0);
  }

  lemma {:induction false} ProperReadsBack(py: Python, f: seq<Field>, basis: Option<string>)
    requires Depth(Obj(f)) <= py.loads && BasisIn(f) == basis
    requires AllSit(py, f)
    ensures Parse(py, Value(Obj(f))) == Halt(SnapshotOf(basis))
  {
    ReadingMeaning(py, Value(Obj(f)));
  }

  /** Persisting what was loaded stores the same fact again, however often. */
  lemma {:induction false} RepersistingIsIdempotent(py: Python, platform: string, s: Snapshot, d: Details, e: Details)
    requires py.loads >= 1
    ensures var once := Parse(py, RecordOf(platform, s, d));
      once.Halt? && Parse(py, RecordOf(platform, once.snapshot, e)) == once
  {
    RecordsReadBack(py, platform, s, d);
    RecordsReadBack(py, platform, SnapshotOf(BasisOf(s)), e);
    var basis := BasisOf(s);
    if basis.Some? {
      assert (PERSISTED_UNKNOWN_PREFIX + basis.value)[|PERSISTED_UNKNOWN_PREFIX|..] == basis.value;
    }
  }

  /** A session's halt is remembered as a safety failure exactly when its basis is one of the three
      target-clock failures; every other halt, a lost policy included, is remembered as a human. */
  lemma {:induction false} RememberedAsUnknownExactlyWhen(py: Python, platform: string, s: Snapshot, d: Details)
    requires py.loads >= 1
    ensures Parse(py, RecordOf(platform, s, d)).Halt?
    ensures Parse(py, RecordOf(platform, s, d)).snapshot.presence == Unknown
       <==> s.presence == Unknown && RemovePrefix(s.basis, PERSISTED_UNKNOWN_PREFIX) in TARGET_CLOCK_FAILURES
    ensures Parse(py, RecordOf(platform, Failure(POLICY_LOST), d)) == Halt(Snapshot(HumanActive, PERSISTED_BASIS))
  {
    RecordsReadBack(py, platform, s, d);
    RecordsReadBack(py, platform, Failure(POLICY_LOST), d);
  }

  // ---------------------------------------------------------------- the directory

  /** How one look at a file fares: it may be refused (blocked), its path may not even resolve
      (unresolved, where there is no file), its content may be withheld (unreadable). */
  datatype Access = Access(blocked: bool, unresolved: bool, unreadable: bool, py: Python)

  /** load_halt: only the look for the file is outside its try. */
  function Load(store: Store, file: string, a: Access): Loaded {
    if a.blocked then Raises else if file !in store then Absent else Read(store, file, a)
  }

  /** The part inside: the file was there a moment ago. */
  function Read(store: Store, file: string, a: Access): Loaded {
    if a.unreadable || file !in store then CORRUPT else Parse(a.py, store[file])
  }

  function StemOfListed(file: string): string { if |file| > |SUFFIX| then StemOf(file) else file }

  predicate Listable(file: string) { |SUFFIX| <= |file| && file[|file| - |SUFFIX|..] == SUFFIX }

  /** The files that are listed are those that end in the suffix, under what stands before it; the suffix alone
      is listed whole. */
  lemma {:induction false} ListedNamesAre(file: string)
    ensures Listable(file) <==> exists stem: string :: file == stem + ".json"
    ensures forall stem: string | file == stem + ".json" :: StemOfListed(file) == if stem == "" then ".json" else stem
  {
    if Listable(file) {
      assert file == file[..|file| - |SUFFIX|] + ".json";
    }
    forall stem: string | file == stem + ".json"
      ensures Listable(file) && StemOfListed(file) == if stem == "" then ".json" else stem
    {
      assert file[|file| - |SUFFIX|..] == SUFFIX;
    }
  }

  /** A file written under some key: its stem leads back to it. */
  predicate IsRecord(file: string) { |SUFFIX| < |file| && SafeFilename(StemOf(file)) == file }

  ghost predicate OnlyRecords(store: Store) { forall f :: f in store ==> IsRecord(f) }

  /** What stands in the way of clearing: names that cannot be looked up, files that cannot be removed. */
  datatype Trouble = Trouble(blocked: set<string>, unreadable: set<string>, stuck: set<string>, py: Python)

  function At(t: Trouble, file: string): Access { Access(file in t.blocked, false, file in t.unreadable, t.py) }

  ghost predicate Clearable(t: Trouble, store: Store, file: string)
    requires file in store
  {
    file !in t.blocked && file !in t.stuck && (file in t.unreadable || !Explosive(t.py, store[file]))
  }

  class HaltDirectory {
    var files: Store

    constructor ()
      ensures files == map[]
    {
      files := map[];
    }

    /** From now on this key, and every key that shares its file, answers with what is remembered of the
        halt; all other keys answer as before. */
    method RecordHalt(platform: string, s: Snapshot, d: Details)
      modifies this
      ensures files == old(files)[SafeFilename(platform) := RecordOf(platform, s, d)]
      ensures forall key, a: Access :: a.py.loads >= 1 && !a.blocked && !a.unreadable ==>
                Load(files, SafeFilename(key), a) == if SafeFilename(key) == SafeFilename(platform)
                                                     then Halt(SnapshotOf(BasisOf(s)))
                                                     else Load(old(files), SafeFilename(key), a)
    {
      files := files[SafeFilename(platform) := RecordOf(platform, s, d)];
      forall a: Access | a.py.loads >= 1 ensures Parse(a.py, RecordOf(platform, s, d)) == Halt(SnapshotOf(BasisOf(s))) {
        RecordsReadBack(a.py, platform, s, d);
      }
    }

    /** A file that is there is a halt, corrupt or unreadable as it may be, unless it explodes. */
    method LoadHalt(platform: string, a: Access) returns (r: Loaded)
      ensures r == Load(files, SafeFilename(platform), a)
      ensures var file := SafeFilename(platform);
        && (r == Absent <==> !a.blocked && file !in files)
        && (r == Raises <==> a.blocked || (file in files && !a.unreadable && Explosive(a.py, files[file])))
        && (r.Halt? ==> r.snapshot == if !a.unreadable && Proper(a.py, files[file])
                                      then SnapshotOf(BasisIn(files[file].v.fields))
                                      else Snapshot(HumanActive, PERSISTED_BASIS))
    {
      var file := SafeFilename(platform);
      if a.blocked { return Raises; }
      if file !in files { return Absent; }
      if a.unreadable { return CORRUPT; }
      ReadingMeaning(a.py, files[file]);
      r := Parse(a.py, files[file]);
    }

    /** None where it raises: the file cannot be looked up, or not be removed. */
    method ClearHalt(platform: string, t: Trouble) returns (cleared: Option<bool>)
      modifies this
      ensures var file := SafeFilename(platform);
        && (cleared == None <==> file in t.blocked || (file in old(files) && file in t.stuck))
        && (cleared.Some? ==> cleared.value == (file in old(files)))
        && files == if cleared.Some? then old(files) - {file} else old(files)
    {
      var file := SafeFilename(platform);
      if file in t.blocked { return None; }
      if file !in files { return Some(false); }
      if file in t.stuck { return None; }
      files := files - {file};
      cleared := Some(true);
    }

    /** list_halted_platforms, in no particular order: the stem of every file with the suffix. */
    method ListHalted() returns (names: seq<string>)
      ensures forall n :: n in names <==> exists f :: f in files && Listable(f) && StemOfListed(f) == n
    {
      names := [];
      var rest := files.Keys;
      while rest != {}
        invariant rest <= files.Keys
        invariant forall n :: n in names <==> exists f :: f in files.Keys - rest && Listable(f) && StemOfListed(f) == n
      {
        var f :| f in rest;
        if Listable(f) { names := names + [StemOfListed(f)]; }
        rest := rest - {f};
      }
    }

    /** One turn of it: whatever was there is gone, unless the record could not be got past. */
    method LoadAndClear(name: string, t: Trouble) returns (cleared: bool)
      modifies this
      ensures var file := SafeFilename(name);
        && (cleared <==> if file in old(files) then Clearable(t, old(files), file) else file !in t.blocked)
        && files == if cleared then old(files) - {file} else old(files)
    {
      var r := LoadHalt(name, At(t, SafeFilename(name)));
      if r == Raises { return false; }
      var gone := ClearHalt(name, t);
      cleared := gone.Some?;
    }

    /** resume_cli --all: list, then load and clear one after the other. It removes every record, unless
        one of them explodes, cannot be looked up or cannot be removed: then it stops there. */
    method ClearAll(t: Trouble) returns (finished: bool)
      requires OnlyRecords(files)
      modifies this
      ensures finished ==> files == map[]
      ensures finished <==> forall f :: f in old(files) ==> Clearable(t, old(files), f)
    {
      var listed := ListHalted();
      AllListed(files, listed);
      for i := 0 to |listed|
        invariant Remaining(SafeFilename, StemOfListed, t, old(files), files, listed[i..])
      {
        assert listed[i..] == [listed[i]] + listed[i + 1..];
        OneLess(SafeFilename, StemOfListed, t, old(files), files, listed[i], listed[i + 1..]);
        var cleared := LoadAndClear(listed[i], t);
        if !cleared { return false; }
      }
      finished := true;
    }
  }

  /** Part of the way: what is gone could be cleared, and what is left is still to come. `key` leads from a
      listed name to its file, `stem` back. */
  ghost predicate Remaining(
      key: string -> string, stem: string -> string, t: Trouble, before: Store, now: Store, names: seq<string>)
  {
    && (forall f :: f in now ==> f in before && now[f] == before[f] && stem(f) in names && key(stem(f)) == f)
    && (forall f :: f in before && f !in now ==> Clearable(t, before, f))
    && (forall n :: n in names ==> key(n) in before)
  }

  lemma {:induction false} OneLess(
      key: string -> string, stem: string -> string, t: Trouble, before: Store, now: Store,
      name: string, rest: seq<string>)
    requires Remaining(key, stem, t, before, now, [name] + rest)
    ensures key(name) in before
    ensures key(name) in now ==> (Clearable(t, now, key(name)) <==> Clearable(t, before, key(name)))
    ensures key(name) !in now || Clearable(t, now, key(name)) ==>
              Remaining(key, stem, t, before, now - {key(name)}, rest)
  {
    assert name in [name] + rest;
    forall n | n in rest ensures key(n) in before { assert n in [name] + rest; }
    forall f | f in now && f != key(name) ensures stem(f) in rest { assert stem(f) in [name] + rest; }
  }

  lemma {:induction false} AllListed(store: Store, listed: seq<string>)
    requires OnlyRecords(store)
    requires forall n :: n in listed <==> exists f :: f in store && Listable(f) && StemOfListed(f) == n
    ensures forall t :: Remaining(SafeFilename, StemOfListed, t, store, store, listed)
  {
    forall f | f in store ensures StemOfListed(f) in listed && SafeFilename(StemOfListed(f)) == f {
      assert IsRecord(f);
      SuffixOfRecord(f);
    }
    forall n | n in listed ensures SafeFilename(n) in store { ListedNamesAreFiles(store, n); }
  }

  lemma SuffixOfRecord(f: string)
    requires IsRecord(f)
    ensures Listable(f) && StemOfListed(f) == StemOf(f)
  {
  }

  /** In a directory of records every listed name leads to a file of it, and every record's key is listed. */
  lemma {:induction false} ListedNamesAreFiles(store: Store, name: string)
    requires OnlyRecords(store)
    ensures (exists f :: f in store && Listable(f) && StemOfListed(f) == name) ==> SafeFilename(name) in store
  {
    if f :| f in store && Listable(f) && StemOfListed(f) == name { assert IsRecord(f); }
  }

  lemma {:induction false} RecordsAreListedBack(store: Store, platform: string, text: Text)
    ensures var after := store[SafeFilename(platform) := text];
      && (exists f :: f in after && Listable(f) && StemOfListed(f) == Stem(platform))
      && SafeFilename(Stem(platform)) == SafeFilename(platform)
      && (OnlyRecords(store) ==> OnlyRecords(after))
  {
    ListedNamesRoundTrip(platform);
    var f := SafeFilename(platform);
    SuffixOfRecord(f);
    assert f in store[f := text] && Listable(f) && StemOfListed(f) == Stem(platform);
  }
}
