/** The recency projection of screenshots and the authority to read them
    (the hook's _expand_tool_results, _make_capture_authority). */
module Recency {
  import opened Wrappers
  import opened JsonValues

  type Image = string

  /** A tool result as it stands in a message: text, a structured value, or text with images. */
  datatype Content = Text(text: string) | Value(v: Json) | Blocks(lead: string, images: seq<Image>)
  datatype Message = Message(role: string, name: string, callId: string, content: Content)
  datatype Capture = Capture(path: string, identity: nat)

  /** One issued result the authority remembers. `tool` is the object that issued it. */
  datatype Record = Record(name: string, callId: string, tool: nat, result: Json, captures: seq<Capture>)

  /** The JSON decoder, for the value a text begins with; the texts Python makes of values; the tools
      mounted; and the files: `load` opens a capture's file and compares it with what was issued. */
  datatype Surroundings = Surroundings(
    decode: string -> Option<Json>,
    show: Json -> string,
    dump: Json -> string,
    mounted: string -> Option<nat>,
    load: Capture -> Option<Image>)

  /** The texts inside a decoded value are shorter than the text it was decoded from. */
  ghost predicate Decodes(w: Surroundings) {
    forall s :: w.decode(s).Some? ==> TextSize(w.decode(s).value) < |s|
  }

  type World = w: Surroundings | Decodes(w)
    ghost witness Surroundings(_ => None, _ => "", _ => "", _ => None, _ => None)

  /* The marked payload of a result. */

  const MARKER := "__amplifier_computer_use__"

  predicate Mentions(s: string, part: string) { part <= s || (s != "" && Mentions(s[1..], part)) }

  /** _parse_marker: a marked object, looked for in a value, in the value a text begins with, and under
      `output`. */
  function ParseMarker(w: World, v: Json): (payload: Option<Json>)
    ensures payload.Some? ==> payload.value.Obj? && HasKey(payload.value.fields, MARKER)
    decreases TextSize(v), v
  {
    match v
    case Obj(f) =>
      if HasKey(f, MARKER) then Some(v)
      else if !HasKey(f, "output") then None
      else
        PartsAreSmaller(v, "output");
        ParseMarker(w, Lookup(f, "output"))
    case Str(s) =>
      if !Mentions(s, MARKER) || w.decode(s).None? || !w.decode(s).value.Obj? then None
      else ParseMarker(w, w.decode(s).value)
    case _ => None
  }

  function Payload(w: World, c: Content): Option<Json> {
    match c case Text(t) => ParseMarker(w, Str(t)) case Value(v) => ParseMarker(w, v) case Blocks(_, _) => None
  }

  /** What a content is read as when it is compared, or asked for errors. */
  function Envelope(w: World, c: Content): Option<Json> {
    match c case Text(t) => w.decode(t) case Value(v) => Some(v) case Blocks(_, _) => None
  }

  predicate Failure(v: Json) {
    v.Obj? && (Get(v, "success") == Bool(false) || Get(v, "isError") == Bool(true) || Truthy(Get(v, "error")))
  }

  /* The authority. */

  predicate SameCall(r: Record, m: Message) { r.name == m.name && r.callId == m.callId }

  /** The first record for the call decides. */
  function Find(records: seq<Record>, m: Message): Option<Record> {
    if records == [] then None else if SameCall(records[0], m) then Some(records[0]) else Find(records[1..], m)
  }

  predicate Vouches(w: World, r: Record, m: Message, payload: Json) {
    && w.mounted(r.name) == Some(r.tool)
    && ParseMarker(w, r.result) == Some(payload)
    && (Envelope(w, m.content) == Some(r.result) || Envelope(w, m.content) == Some(payload))
  }

  function CapturesFor(w: World, records: seq<Record>, m: Message, payload: Json): Option<seq<Capture>> {
    if m.role != "tool" then None
    else match Find(records, m)
      case None => None
      case Some(r) => if Vouches(w, r, m, payload) then Some(r.captures) else None
  }

  ghost predicate OnePerCall(records: seq<Record>) {
    forall i, j :: 0 <= i < j < |records| ==>
      records[i].name != records[j].name || records[i].callId != records[j].callId
  }

  lemma {:induction false} FindMeaning(records: seq<Record>, m: Message)
    requires OnePerCall(records)
    ensures Find(records, m).Some? ==> Find(records, m).value in records && SameCall(Find(records, m).value, m)
    ensures forall r :: r in records && SameCall(r, m) ==> Find(records, m) == Some(r)
  {
    if records != [] {
      assert records == [records[0]] + records[1..];
      FindMeaning(records[1..], m);
    }
  }

  class CaptureAuthority {
    const limit: nat
    var records: seq<Record>

    ghost predicate Valid()
      reads this
    {
      |records| <= limit && limit >= 64 && OnePerCall(records)
    }

    constructor (maxInline: int)
      ensures Valid() && records == [] && limit >= maxInline
    {
      limit, records := if maxInline > 64 then maxInline else 64, [];
    }

    /** Remember an issued result; the oldest is forgotten when there is no room. */
    method Post(r: Record)
      requires Valid()
      modifies this`records
      ensures Valid()
      ensures records ==
              if r.captures == [] || (exists q :: q in old(records) && q.name == r.name && q.callId == r.callId)
              then old(records)
              else if |old(records)| == limit then old(records)[1..] + [r]
              else old(records) + [r]
    {
      if r.captures == [] { return; }
      var i := 0;
      while i < |records|
        invariant 0 <= i <= |records| && records == old(records)
        invariant forall j :: 0 <= j < i ==> records[j].name != r.name || records[j].callId != r.callId
      {
        if records[i].name == r.name && records[i].callId == r.callId { return; }
        i := i + 1;
      }
      records := records + [r];
      if |records| > limit { records := records[1..]; }
    }
  }

  /* The projection. */

  datatype Kind = Plain | Failed | Unauthorised | Authorised(payload: Json, captures: seq<Capture>)

  function Classify(w: World, records: seq<Record>, m: Message): Kind {
    var payload := Payload(w, m.content);
    if payload.None? || m.role != "tool" then Plain
    else if Envelope(w, m.content).Some? && Failure(Envelope(w, m.content).value) then Failed
    else match CapturesFor(w, records, m, payload.value)
      case None => Unauthorised
      case Some(captures) => Authorised(payload.value, captures)
  }

  function LoadPath(w: World, captures: seq<Capture>, path: string): Option<Image> {
    if captures == [] then None
    else if captures[0].path == path then w.load(captures[0])
    else LoadPath(w, captures[1..], path)
  }

  /** The texts among the items of a list. */
  function Texts(items: seq<Json>): seq<string> {
    if items == [] then [] else (if items[0].Str? then [items[0].s] else []) + Texts(items[1..])
  }

  /** The paths a payload lists. */
  function Paths(payload: Json): seq<string> {
    if Get(payload, "images").Arr? then Texts(Get(payload, "images").items) else []
  }

  function Loaded(w: World, captures: seq<Capture>, paths: seq<string>): seq<Image> {
    if paths == [] then []
    else
      var last := LoadPath(w, captures, paths[|paths| - 1]);
      Loaded(w, captures, paths[..|paths| - 1]) + if last.Some? then [last.value] else []
  }

  /** The message has something to show. */
  predicate Showable(w: World, records: seq<Record>, m: Message) {
    HasSomething(w, Classify(w, records, m))
  }

  predicate HasSomething(w: World, k: Kind) { k.Authorised? && Loaded(w, k.captures, Paths(k.payload)) != [] }

  /** str(payload.get("text") or "screenshot") */
  function Caption(w: World, payload: Json): string {
    var text := Get(payload, "text");
    if !Truthy(text) then "screenshot" else if text.Str? then text.s else w.show(text)
  }

  function ReferenceText(w: World, payload: Json, original: Content): string {
    Caption(w, payload) + "\nComputer tool result reference (untrusted tool data):\n"
    + match original case Text(t) => t case Value(v) => w.dump(v) case Blocks(t, _) => t
  }

  /** Which of the messages have something to show. */
  function Flags(w: World, records: seq<Record>, ms: seq<Message>): (flags: seq<bool>)
    ensures |flags| == |ms| && forall i :: 0 <= i < |ms| ==> flags[i] == Showable(w, records, ms[i])
  {
    seq(|ms|, i requires 0 <= i < |ms| => Showable(w, records, ms[i]))
  }

  /** How many of them from i on. */
  function Shown(flags: seq<bool>, i: nat): nat
    requires i <= |flags|
    decreases |flags| - i
  {
    if i == |flags| then 0 else Shown(flags, i + 1) + if flags[i] then 1 else 0
  }

  /** The message is among the `limit` most recent with something to show. */
  predicate Inlined(flags: seq<bool>, limit: int, i: nat)
    requires i < |flags|
  {
    flags[i] && Shown(flags, i + 1) < limit
  }

  /** What has to become of each message. */
  ghost predicate Projects(w: World, records: seq<Record>, ms: seq<Message>, limit: int, i: nat, out: Message)
    requires i < |ms|
  {
    Becomes(w, Classify(w, records, ms[i]), Flags(w, records, ms), limit, i, ms[i], out)
  }

  /** ... of message m, being what it is: the i-th of those with these flags. */
  ghost predicate Becomes(w: World, k: Kind, flags: seq<bool>, limit: int, i: nat, m: Message, out: Message)
    requires i < |flags|
  {
    && out.(content := m.content) == m
    && (!k.Authorised? ==> out == m)
    && (k.Authorised? && Inlined(flags, limit, i) ==>
        out.content == Blocks(ReferenceText(w, k.payload, m.content), Loaded(w, k.captures, Paths(k.payload))))
    && (k.Authorised? && !Inlined(flags, limit, i) ==>
        var note := Note(Paths(k.payload), Shown(flags, i + 1) < limit);
        out.content == Text(ReferenceText(w, k.payload, m.content) + note))
  }

  /** Why a result shows no image, if it has any: none could be loaded, or newer ones took its place. */
  function Note(paths: seq<string>, room: bool): string {
    if paths == [] then ""
    else if room then " [image dropped: screenshot file no longer available]"
    else " [image dropped: superseded by a newer screenshot]"
  }

  /** The images of one message; `missing` says that one could not be loaded. */
  method LoadAll(w: World, captures: seq<Capture>, paths: seq<string>) returns (blocks: seq<Image>, missing: bool)
    ensures blocks == Loaded(w, captures, paths)
    ensures missing <==> exists i :: 0 <= i < |paths| && LoadPath(w, captures, paths[i]).None?
    ensures blocks == [] && paths != [] ==> missing
  {
    blocks, missing := [], false;
    var i := 0;
    while i < |paths|
      invariant 0 <= i <= |paths| && blocks == Loaded(w, captures, paths[..i])
      invariant missing <==> exists j :: 0 <= j < i && LoadPath(w, captures, paths[j]).None?
      invariant blocks == [] && i > 0 ==> missing
    {
      assert paths[..i + 1][..i] == paths[..i];
      var block := LoadPath(w, captures, paths[i]);
      if block.None? { missing := true; } else { blocks := blocks + [block.value]; }
      i := i + 1;
    }
    assert paths[..i] == paths;
  }

  ghost function Goal(w: World, records: seq<Record>, ms: seq<Message>, limit: int): (int, Message) -> bool {
    (i: int, m: Message) => 0 <= i < |ms| && Projects(w, records, ms, limit, i, m)
  }

  /** The last messages of n, newest first, are as they should be. */
  ghost predicate Tail(goal: (int, Message) -> bool, n: nat, rewritten: seq<Message>) {
    forall j :: 0 <= j < |rewritten| ==> goal(n - 1 - j, rewritten[j])
  }

  function Budget(flags: seq<bool>, limit: int, i: nat): int
    requires i <= |flags|
  {
    if Shown(flags, i) < limit then limit - Shown(flags, i) else if limit < 0 then limit else 0
  }

  /** One turn of the loop. */
  method RewriteAt(w: World, records: seq<Record>, ms: seq<Message>, limit: int, i: nat, budget: int)
      returns (m: Message, left: int)
    requires i < |ms| && budget == Budget(Flags(w, records, ms), limit, i + 1)
    ensures Goal(w, records, ms, limit)(i, m) && left == Budget(Flags(w, records, ms), limit, i)
  {
    var k := Classify(w, records, ms[i]);
    var spent;
    m, spent := Rewrite(w, k, ms[i], budget);
    Spending(Flags(w, records, ms), limit, i);
    Turned(w, k, Flags(w, records, ms), limit, i, budget, ms[i], m, spent);
    left := if spent then budget - 1 else budget;
  }

  /** _expand_tool_results: newest first, with a budget of messages that may show their images. */
  method Expand(w: World, records: seq<Record>, ms: seq<Message>, limit: int) returns (out: seq<Message>)
    ensures |out| == |ms|
    ensures forall i :: 0 <= i < |ms| ==> Projects(w, records, ms, limit, i, out[i])
  {
    var rewritten: seq<Message>, budget, i := [], limit, |ms|;
    ghost var goal := Goal(w, records, ms, limit);
    while i > 0
      invariant 0 <= i <= |ms| && |rewritten| == |ms| - i
      invariant Tail(goal, |ms|, rewritten) && budget == Budget(Flags(w, records, ms), limit, i)
    {
      i := i - 1;
      var m;
      m, budget := RewriteAt(w, records, ms, limit, i, budget);
      TailGrows(goal, |ms|, rewritten, m);
      rewritten := rewritten + [m];
    }
    out := Reversed(rewritten);
    WholeTail(goal, rewritten);
    GoalsAreProjections(w, records, ms, limit, out);
  }

  lemma {:induction false} GoalsAreProjections(
      w: World, records: seq<Record>, ms: seq<Message>, limit: int, out: seq<Message>)
    requires |out| == |ms| && forall i :: 0 <= i < |ms| ==> Goal(w, records, ms, limit)(i, out[i])
    ensures forall i :: 0 <= i < |ms| ==> Projects(w, records, ms, limit, i, out[i])
  {
    forall i | 0 <= i < |ms| ensures Projects(w, records, ms, limit, i, out[i]) {
      assert Goal(w, records, ms, limit)(i, out[i]);
    }
  }

  lemma TailGrows(goal: (int, Message) -> bool, n: nat, rewritten: seq<Message>, m: Message)
    requires Tail(goal, n, rewritten) && goal(n - 1 - |rewritten|, m)
    ensures Tail(goal, n, rewritten + [m])
  {
  }

  lemma {:induction false} WholeTail(goal: (int, Message) -> bool, rewritten: seq<Message>)
    requires Tail(goal, |rewritten|, rewritten)
    ensures forall i :: 0 <= i < |rewritten| ==> goal(i, Reversed(rewritten)[i])
  {
    forall i | 0 <= i < |rewritten| ensures goal(i, Reversed(rewritten)[i]) {
      var j := |rewritten| - 1 - i;
      assert Reversed(rewritten)[i] == rewritten[j] && goal(|rewritten| - 1 - j, rewritten[j]);
    }
  }

  function Reversed(s: seq<Message>): (r: seq<Message>)
    ensures |r| == |s| && forall k :: 0 <= k < |s| ==> r[k] == s[|s| - 1 - k]
  {
    seq(|s|, k requires 0 <= k < |s| => s[|s| - 1 - k])
  }

  lemma {:induction false} Spending(flags: seq<bool>, limit: int, i: nat)
    requires i < |flags|
    ensures var budget := Budget(flags, limit, i + 1);
      && (budget > 0 <==> Shown(flags, i + 1) < limit)
      && Budget(flags, limit, i) == if budget > 0 && flags[i] then budget - 1 else budget
  {
  }

  lemma {:induction false} Turned(w: World, k: Kind, flags: seq<bool>, limit: int, i: nat,
      budget: int, m: Message, out: Message, spent: bool)
    requires i < |flags| && flags[i] == HasSomething(w, k)
    requires (budget > 0 <==> Shown(flags, i + 1) < limit) && Rewritten(w, k, m, budget, out, spent)
    ensures Becomes(w, k, flags, limit, i, m, out)
  {
    assert spent <==> HasSomething(w, k) && budget > 0;
    assert k.Authorised? ==> (spent <==> Inlined(flags, limit, i));
  }

  /** What one turn of the loop makes of a message. */
  ghost predicate Rewritten(w: World, k: Kind, m: Message, budget: int, out: Message, spent: bool) {
    && (spent <==> budget > 0 && HasSomething(w, k))
    && out.(content := m.content) == m
    && if !k.Authorised? then out == m
       else
         var text := ReferenceText(w, k.payload, m.content);
         if spent then out.content == Blocks(text, Loaded(w, k.captures, Paths(k.payload)))
         else out.content == Text(text + Note(Paths(k.payload), budget > 0))
  }

  method Rewrite(w: World, k: Kind, m: Message, budget: int) returns (out: Message, spent: bool)
    ensures Rewritten(w, k, m, budget, out, spent)
  {
    spent := false;
    if !k.Authorised? { return m, spent; }
    var paths := Paths(k.payload);
    var blocks, missing := [], false;
    if budget > 0 { blocks, missing := LoadAll(w, k.captures, paths); }
    var text := ReferenceText(w, k.payload, m.content);
    if blocks != [] {
      return m.(content := Blocks(text, blocks)), true;
    }
    var note := Note(paths, missing);
    out := m.(content := Text(text + note));
  }

  /* What the projection means. */

  ghost function InlinedFrom(flags: seq<bool>, limit: int, i: nat): nat
    requires i <= |flags|
    decreases |flags| - i
  {
    if i == |flags| then 0 else InlinedFrom(flags, limit, i + 1) + if Inlined(flags, limit, i) then 1 else 0
  }

  /** As many messages show images as the limit allows and there are to show. */
  lemma {:induction false} TheLimitIsUsed(flags: seq<bool>, limit: nat, i: nat)
    requires i <= |flags|
    ensures InlinedFrom(flags, limit, i) == if Shown(flags, i) < limit then Shown(flags, i) else limit
    decreases |flags| - i
  {
    if i < |flags| { TheLimitIsUsed(flags, limit, i + 1); }
  }

  lemma {:induction false} ShownShrinks(flags: seq<bool>, i: nat, j: nat)
    requires i <= j <= |flags|
    ensures Shown(flags, j) <= Shown(flags, i)
    decreases j - i
  {
    if i < j { ShownShrinks(flags, i + 1, j); }
  }

  /** ... and they are the most recent: nothing newer that could be shown is passed over. */
  lemma {:induction false} NewerOnesComeFirst(flags: seq<bool>, limit: int, i: nat, j: nat)
    requires i < j < |flags| && Inlined(flags, limit, i) && flags[j]
    ensures Inlined(flags, limit, j)
  {
    ShownShrinks(flags, i + 1, j + 1);
  }

  /** A message of the projection has image blocks that the input did not have exactly when it is one
      of these; only authorised results change. */
  lemma {:induction false} ProjectionMeaning(w: World, records: seq<Record>, ms: seq<Message>, limit: int,
      i: nat, out: Message)
    requires i < |ms|
    ensures Projects(w, records, ms, limit, i, out) ==>
              && (out.content != ms[i].content ==> Classify(w, records, ms[i]).Authorised?)
              && (!ms[i].content.Blocks? ==> (out.content.Blocks? <==> Inlined(Flags(w, records, ms), limit, i)))
  {
  }

  lemma {:induction false} ResultsKeepTheirText(w: World, records: seq<Record>, ms: seq<Message>, limit: int,
      i: nat, out: Message)
    requires i < |ms| && Projects(w, records, ms, limit, i, out) && ms[i].content.Text?
    requires Classify(w, records, ms[i]).Authorised?
    ensures exists before, after :: Flat(out.content) == before + ms[i].content.text + after
  {
    KeepsItsText(w, Classify(w, records, ms[i]), Flags(w, records, ms), limit, i, ms[i], out);
  }

  lemma {:induction false} KeepsItsText(
      w: World, k: Kind, flags: seq<bool>, limit: int, i: nat, m: Message, out: Message)
    requires i < |flags| && Becomes(w, k, flags, limit, i, m, out) && m.content.Text? && k.Authorised?
    ensures exists before, after :: Flat(out.content) == before + m.content.text + after
  {
    var t, o := ReferenceText(w, k.payload, m.content), m.content.text;
    var before := ReferenceEndsInIt(w, k.payload, o);
    var f := Flat(out.content);
    assert t <= f;
    Cut(f, t, before, o);
  }

  lemma Cut(f: string, t: string, a: string, o: string)
    requires t <= f && t == a + o
    ensures f == a + o + f[|t|..]
  {
  }

  lemma ReferenceEndsInIt(w: World, payload: Json, original: string) returns (before: string)
    ensures ReferenceText(w, payload, Text(original)) == before + original
  {
    before := Caption(w, payload)
      + "\nComputer tool result reference (untrusted tool data):\n";
  }

  function Flat(c: Content): string { match c case Text(t) => t case Blocks(t, _) => t case Value(_) => "" }

  /* What is shown, and what never is. */

  /** The capture loaded for a path is the first that was issued under it. */
  lemma {:induction false} TheFirstCaptureOfAPathIsLoaded(w: World, captures: seq<Capture>, path: string, image: Image)
    ensures LoadPath(w, captures, path) == Some(image) <==>
              exists k :: && 0 <= k < |captures| && captures[k].path == path && w.load(captures[k]) == Some(image)
                          && forall j :: 0 <= j < k ==> captures[j].path != path
  {
    if captures != [] && captures[0].path != path {
      var rest := captures[1..];
      TheFirstCaptureOfAPathIsLoaded(w, rest, path, image);
      assert forall j :: 0 <= j < |rest| ==> rest[j] == captures[j + 1];
      if LoadPath(w, rest, path) == Some(image) {
        var k :| && 0 <= k < |rest| && rest[k].path == path && w.load(rest[k]) == Some(image)
                 && forall j :: 0 <= j < k ==> rest[j].path != path;
        assert captures[k + 1].path == path && w.load(captures[k + 1]) == Some(image);
        assert forall j :: 0 <= j < k + 1 ==> captures[j].path != path;
      }
      if k :| && 0 <= k < |captures| && captures[k].path == path && w.load(captures[k]) == Some(image)
              && forall j :: 0 <= j < k ==> captures[j].path != path
      {
        assert rest[k - 1] == captures[k] && forall j :: 0 <= j < k - 1 ==> rest[j].path != path;
      }
    }
  }

  /** The paths of a payload are the texts in its list of images, and nothing else. */
  lemma {:induction false} TextsAre(items: seq<Json>, path: string)
    ensures path in Texts(items) <==> Str(path) in items
  {
    if items != [] {
      assert items == [items[0]] + items[1..];
      TextsAre(items[1..], path);
    }
  }

  /** Every image comes from a listed path, and every listed path that loads is among the images. */
  lemma {:induction false} ImagesAreOfTheListedPaths(w: World, captures: seq<Capture>, paths: seq<string>, image: Image)
    ensures image in Loaded(w, captures, paths) <==>
              exists p :: p in paths && LoadPath(w, captures, p) == Some(image)
  {
    if paths != [] {
      var n := |paths| - 1;
      assert paths == paths[..n] + [paths[n]];
      ImagesAreOfTheListedPaths(w, captures, paths[..n], image);
      if p :| p in paths && LoadPath(w, captures, p) == Some(image) { assert p in paths[..n] || p == paths[n]; }
      if p :| p in paths[..n] && LoadPath(w, captures, p) == Some(image) { assert p in paths; }
      if LoadPath(w, captures, paths[n]) == Some(image) { assert paths[n] in paths; }
    }
  }

  /** A result that says it failed, in whichever of the three ways, stays as it is and shows no image; so
      does every message that is no tool's. */
  lemma {:induction false} FailuresAreKept(w: World, records: seq<Record>, ms: seq<Message>, limit: int,
      i: nat, out: Message, f: seq<Field>)
    requires i < |ms| && Projects(w, records, ms, limit, i, out)
    requires ms[i].role != "tool" ||
      (Envelope(w, ms[i].content) == Some(Obj(f)) && (Get(Obj(f), "success") == Bool(false)
        || Get(Obj(f), "isError") == Bool(true) || Truthy(Get(Obj(f), "error"))))
    ensures out == ms[i] && !Inlined(Flags(w, records, ms), limit, i)
  {
    FailuresAreNotAuthorised(w, records, ms[i], f);
  }

  lemma {:induction false} FailuresAreNotAuthorised(w: World, records: seq<Record>, m: Message, f: seq<Field>)
    requires m.role != "tool" || (Envelope(w, m.content) == Some(Obj(f)) && Failure(Obj(f)))
    ensures !Classify(w, records, m).Authorised?
  {
  }

  /** A message is allowed images exactly when it is a tool's, carries a marked payload, says of itself in
      none of the three ways that it failed, and some remembered issue vouches for it: one of the same call,
      by a tool still mounted under its name, of the same payload, for a message that begins with the
      issued result or with that payload. */
  lemma {:induction false} AuthorisedExactlyByTheIssue(
      w: World, records: seq<Record>, m: Message, payload: Json, captures: seq<Capture>)
    requires OnePerCall(records)
    ensures Classify(w, records, m) == Authorised(payload, captures) <==>
      && m.role == "tool" && Payload(w, m.content) == Some(payload)
      && !SaysItFailed(Envelope(w, m.content))
      && exists r :: && r in records && r.name == m.name && r.callId == m.callId && r.captures == captures
                     && w.mounted(m.name) == Some(r.tool) && ParseMarker(w, r.result) == Some(payload)
                     && (Envelope(w, m.content) == Some(r.result) || Envelope(w, m.content) == Some(payload))
  {
    FailureMeaning(Envelope(w, m.content));
    CapturesMeaning(w, records, m, payload, captures);
  }

  lemma {:induction false} FailureMeaning(e: Option<Json>)
    ensures SaysItFailed(e) <==> e.Some? && Failure(e.value)
  {
    if e.Some? && e.value.Obj? { assert e == Some(Obj(e.value.fields)); }
  }

  lemma {:induction false} CapturesMeaning(
      w: World, records: seq<Record>, m: Message, payload: Json, captures: seq<Capture>)
    requires OnePerCall(records)
    ensures CapturesFor(w, records, m, payload) == Some(captures) <==>
      && m.role == "tool"
      && exists r :: && r in records && r.name == m.name && r.callId == m.callId && r.captures == captures
                     && w.mounted(m.name) == Some(r.tool) && ParseMarker(w, r.result) == Some(payload)
                     && (Envelope(w, m.content) == Some(r.result) || Envelope(w, m.content) == Some(payload))
  {
    FindMeaning(records, m);
  }

  /** success is false, isError is true, or there is an error that is not empty. */
  ghost predicate SaysItFailed(e: Option<Json>) {
    exists f :: e == Some(Obj(f)) && Fails(f)
  }

  predicate Fails(f: seq<Field>) {
    || (HasKey(f, "success") && Lookup(f, "success") == Bool(false))
    || (HasKey(f, "isError") && Lookup(f, "isError") == Bool(true))
    || (HasKey(f, "error") && Truthy(Lookup(f, "error")))
  }

  /** A result that shows no image though it lists some says why. */
  lemma {:induction false} DroppedImagesAreExplained(
      w: World, records: seq<Record>, ms: seq<Message>, limit: int, i: nat, out: Message)
    requires i < |ms| && Projects(w, records, ms, limit, i, out)
    requires var k := Classify(w, records, ms[i]); k.Authorised? && Paths(k.payload) != []
    requires !Inlined(Flags(w, records, ms), limit, i)
    ensures var text := ReferenceText(w, Classify(w, records, ms[i]).payload, ms[i].content);
      Flat(out.content) == text + if Shown(Flags(w, records, ms), i + 1) < limit
                                  then " [image dropped: screenshot file no longer available]"
                                  else " [image dropped: superseded by a newer screenshot]"
  {
    Explained(w, Classify(w, records, ms[i]), Flags(w, records, ms), limit, i, ms[i], out);
  }

  lemma {:induction false} Explained(
      w: World, k: Kind, flags: seq<bool>, limit: int, i: nat, m: Message, out: Message)
    requires i < |flags| && Becomes(w, k, flags, limit, i, m, out)
    requires k.Authorised? && Paths(k.payload) != [] && !Inlined(flags, limit, i)
    ensures Flat(out.content) == ReferenceText(w, k.payload, m.content) +
              if Shown(flags, i + 1) < limit then " [image dropped: screenshot file no longer available]"
              else " [image dropped: superseded by a newer screenshot]"
  {
  }

  /** A part is mentioned exactly where it occurs. */
  lemma {:induction false} MentionedExactlyWhen(s: string, part: string)
    ensures Mentions(s, part) <==> exists before, after :: s == before + part + after
  {
    if part <= s {
      assert s == [] + part + s[|part|..];
    } else if s != "" {
      MentionedExactlyWhen(s[1..], part);
      if before, after :| s[1..] == before + part + after { assert s == ([s[0]] + before) + part + after; }
      if before, after :| s == before + part + after {
        assert before == [] ==> s == part + after;
        assert s[1..] == before[1..] + part + after;
      }
    }
  }

  /** A marked object is found as it is, inside the text that begins with it, and under `output` of an
      unmarked one, in a text or not; nothing unmarked is ever found. */
  lemma {:induction false} MarkedObjectsAreFound(w: World, f: seq<Field>, s: string)
    ensures HasKey(f, MARKER) ==> ParseMarker(w, Obj(f)) == Some(Obj(f))
    ensures !HasKey(f, MARKER) && HasKey(f, "output") ==> ParseMarker(w, Obj(f)) == ParseMarker(w, Lookup(f, "output"))
    ensures w.decode(s) == Some(Obj(f)) && Mentions(s, MARKER) ==> ParseMarker(w, Str(s)) == ParseMarker(w, Obj(f))
    ensures !Mentions(s, MARKER) || w.decode(s).None? || !w.decode(s).value.Obj? ==> ParseMarker(w, Str(s)) == None
  {
  }
}
