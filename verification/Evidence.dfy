/** The walk over archived evidence (evidence_integrity.py) and the check of one artifact reference
    (neutral_qualification.py). */
module Evidence {
  import opened Wrappers
  import opened JsonValues

  /** An object with at least the keys of a reference: the walk treats it as one. */
  predicate IsEnvelope(node: Json) {
    node.Obj? && HasKey(node.fields, "kind") && HasKey(node.fields, "path") && HasKey(node.fields, "sha256")
  }

  function KindOf(e: Json): Json { if IsEnvelope(e) then Lookup(e.fields, "kind") else Null }

  type FileId = nat

  /** The evidence directory. `resolve` leads from a lexically safe relative name to the regular file
      under the root it denotes, if any, links followed; `parsed` is what load_json makes of a file,
      if it is well formed, and `looksLikeJson` is the test on its suffix or first character. */
  datatype Directory = Directory(files: map<FileId, Artifact>, resolve: map<string, FileId>)
  datatype Artifact = Artifact(digest: string, looksLikeJson: bool, parsed: Option<Json>)

  predicate IsHex(c: char) { '0' <= c <= '9' || 'a' <= c <= 'f' }

  predicate IsDigest(s: string) { |s| == 64 && forall i :: 0 <= i < |s| ==> IsHex(s[i]) }

  /** From `start` on, every segment between slashes is a proper name. */
  predicate Segments(s: string, start: nat, at: nat)
    requires start <= at <= |s|
    decreases |s| - at
  {
    if at < |s| && s[at] != '/' then Segments(s, start, at + 1)
    else s[start..at] != "" && s[start..at] != "." && s[start..at] != ".." && (at == |s| || Segments(s, at + 1, at + 1))
  }

  /** A relative POSIX path in normal form, without parent steps, backslashes or colons. */
  predicate SafeName(s: string) {
    s != "" && '\\' !in s && ':' !in s && Segments(s, 0, 0)
  }

  /** A maximal stretch without a slash. */
  ghost predicate IsSegment(s: string, a: nat, b: nat) {
    && a <= b <= |s| && (a == 0 || s[a - 1] == '/') && (b == |s| || s[b] == '/')
    && forall i :: a <= i < b ==> s[i] != '/'
  }

  predicate Proper(name: string) { name != "" && name != "." && name != ".." }

  /** Names that pass have no empty, "." or ".." step anywhere: neither rooted nor leading upwards. */
  lemma {:induction false} SafeNamesStayBelow(s: string)
    ensures SafeName(s) <==>
              && s != "" && '\\' !in s && ':' !in s
              && forall a: nat, b: nat :: IsSegment(s, a, b) ==> Proper(s[a..b])
  {
    if s != "" { SegmentsMeaning(s, 0, 0); }
  }

  lemma {:induction false} SegmentsMeaning(s: string, start: nat, at: nat)
    requires start <= at <= |s| && (start == 0 || s[start - 1] == '/') && forall i :: start <= i < at ==> s[i] != '/'
    ensures Segments(s, start, at) <==> forall a: nat, b: nat :: start <= a && IsSegment(s, a, b) ==> Proper(s[a..b])
    decreases |s| - at
  {
    if at < |s| && s[at] != '/' {
      SegmentsMeaning(s, start, at + 1);
    } else {
      assert IsSegment(s, start, at);
      if at < |s| { SegmentsMeaning(s, at + 1, at + 1); }
      forall a: nat, b: nat | start <= a && IsSegment(s, a, b) ensures (a == start && b == at) || at + 1 <= a {
        if a == start { assert b == at; } else { assert s[a - 1] == '/'; }
      }
    }
  }

  predicate HasExactKeys(fields: seq<Field>) {
    |fields| == 3 && HasKey(fields, "kind") && HasKey(fields, "path") && HasKey(fields, "sha256")
  }

  /** reference_check: the file the envelope stands for, or None where the source raises. */
  function Check(e: Json, d: Directory): (r: Option<FileId>)
    ensures r.Some? ==> r.value in d.files
  {
    if !IsEnvelope(e) || !HasExactKeys(e.fields) then None
    else
      var digest, path := Lookup(e.fields, "sha256"), Lookup(e.fields, "path");
      if !digest.Str? || !IsDigest(digest.s) || !path.Str? || !SafeName(path.s) then None
      else if path.s !in d.resolve || d.resolve[path.s] !in d.files then None
      else if d.files[d.resolve[path.s]].digest != digest.s then None
      else Some(d.resolve[path.s])
  }

  /** What an object has to hold to be taken for a reference. */
  lemma {:induction false} EnvelopesExactlyWhen(node: Json)
    ensures IsEnvelope(node) <==>
              node.Obj? && forall k | k in ["kind", "path", "sha256"] ::
                             exists i :: 0 <= i < |node.fields| && node.fields[i].key == k
  {
    var keys := ["kind", "path", "sha256"];
    assert keys[0] in keys && keys[1] in keys && keys[2] in keys;
  }

  const HEX_DIGITS := "0123456789abcdef"

  /** A reference passes exactly when it has its three keys and no more, its digest is written with 64 small
      hexadecimal digits, its path is safe and leads to a file, and the digest is that file's. */
  lemma {:induction false} PassesExactlyWhen(e: Json, d: Directory, f: FileId)
    ensures Check(e, d) == Some(f) <==>
              && IsEnvelope(e) && |e.fields| == 3
              && exists p, s ::
                   && Lookup(e.fields, "path") == Str(p) && Lookup(e.fields, "sha256") == Str(s)
                   && |s| == 64 && (forall c | c in s :: c in HEX_DIGITS)
                   && SafeName(p) && p in d.resolve && d.resolve[p] == f
                   && f in d.files && d.files[f].digest == s
  {
    if IsEnvelope(e) && Lookup(e.fields, "sha256").Str? {
      DigestsAre(Lookup(e.fields, "sha256").s);
    }
  }

  lemma {:induction false} DigestsAre(s: string)
    ensures IsDigest(s) <==> |s| == 64 && forall c | c in s :: c in HEX_DIGITS
  {
    forall c ensures IsHex(c) <==> c in HEX_DIGITS {
      HexDigitsAre(c);
    }
  }

  lemma {:induction false} HexDigitsAre(c: char)
    ensures IsHex(c) <==> c in HEX_DIGITS
  {
    if '0' <= c <= '9' {
      assert HEX_DIGITS[c as int - '0' as int] == c;
    } else if 'a' <= c <= 'f' {
      assert HEX_DIGITS[c as int - 'a' as int + 10] == c;
    }
  }

  /** A reference vouches for the content of its file: with any other digest the same file fails it. */
  lemma {:induction false} TamperedFilesAreRefused(e: Json, d: Directory, f: FileId, a: Artifact)
    requires Check(e, d) == Some(f) && a.digest != d.files[f].digest
    ensures Check(e, d.(files := d.files[f := a])).None?
  {
  }

  /** ... and for its place: a name that is not safe, or leads to no file, fails it. */
  lemma {:induction false} ReferencesStayBelow(e: Json, d: Directory)
    requires Check(e, d).Some?
    ensures exists p :: && p in d.resolve && SafeName(p) && d.resolve[p] == Check(e, d).value
                        && Lookup(e.fields, "path") == Str(p)
    ensures Lookup(e.fields, "sha256") == Str(d.files[Check(e, d).value].digest)
  {
    assert SafeName(Lookup(e.fields, "path").s);
  }

  /** The envelopes the walk meets in a value: it does not look inside one for more. */
  ghost predicate Meets(node: Json, e: Json)
    decreases node
  {
    if IsEnvelope(node) then e == node else exists i :: 0 <= i < Arity(node) && Meets(Child(node, i), e)
  }

  /** Every envelope anywhere in a value, those inside another one included. */
  ghost predicate Contains(node: Json, e: Json)
    decreases node
  {
    (IsEnvelope(node) && e == node) || exists i :: 0 <= i < Arity(node) && Contains(Child(node, i), e)
  }

  /** The document behind an envelope that passes its check, if the walk goes on into it. */
  function Behind(e: Json, d: Directory): Option<Json> {
    if Check(e, d).None? || !d.files[Check(e, d).value].looksLikeJson then None
    else d.files[Check(e, d).value].parsed
  }

  /** A chain of references: the first is met in the document, each next one in the file behind the last. */
  ghost predicate Chain(node: Json, es: seq<Json>, d: Directory)
    decreases |es|
  {
    && es != [] && Meets(node, es[0])
    && (|es| > 1 ==> Behind(es[0], d).Some? && Chain(Behind(es[0], d).value, es[1..], d))
  }

  /** A reference is sound: it passes the check, and what it points at parses if it looks like JSON. */
  predicate FileSound(f: FileId, d: Directory)
    requires f in d.files
  {
    d.files[f].looksLikeJson ==> d.files[f].parsed.Some?
  }

  predicate Sound(e: Json, d: Directory) { Check(e, d).Some? && FileSound(Check(e, d).value, d) }

  ghost predicate AllSound(node: Json, d: Directory) {
    forall es | Chain(node, es, d) :: Sound(es[|es| - 1], d)
  }

  /** Everything met in the value leads to a file of the set. */
  ghost predicate Covered(node: Json, d: Directory, files: set<FileId>) {
    forall e | Meets(node, e) :: Check(e, d).Some? && Check(e, d).value in files
  }

  ghost predicate FileDone(f: FileId, d: Directory, files: set<FileId>)
    requires f in d.files
  {
    d.files[f].looksLikeJson ==> d.files[f].parsed.Some? && Covered(d.files[f].parsed.value, d, files)
  }

  /** The files of `some` have been gone through. */
  ghost predicate Done(some: set<FileId>, d: Directory, files: set<FileId>) {
    forall f | f in some :: f in d.files && FileDone(f, d, files)
  }

  /** A set of files closed under reference carries the check to the end of every chain. */
  lemma {:induction false} ClosedSetsAreSound(node: Json, es: seq<Json>, d: Directory, files: set<FileId>)
    requires Covered(node, d, files) && Done(files, d, files) && Chain(node, es, d)
    ensures Sound(es[|es| - 1], d) && Check(es[|es| - 1], d).value in files
    decreases |es|
  {
    var f := Check(es[0], d).value;
    assert f in files && FileDone(f, d, files);
    if |es| > 1 {
      ClosedSetsAreSound(Behind(es[0], d).value, es[1..], d, files);
      assert es[1..][|es| - 2] == es[|es| - 1];
    }
  }

  lemma {:induction false} Grow(node: Json, d: Directory, files: set<FileId>, more: set<FileId>, some: set<FileId>)
    requires files <= more
    ensures Covered(node, d, files) ==> Covered(node, d, more)
    ensures Done(some, d, files) ==> Done(some, d, more)
  {
    if Done(some, d, files) {
      forall f | f in some ensures f in d.files && FileDone(f, d, more) {
        assert FileDone(f, d, files);
      }
    }
  }

  ghost predicate CoveredUpTo(node: Json, n: nat, d: Directory, files: set<FileId>)
    requires n <= Arity(node)
  {
    forall j :: 0 <= j < n ==> Covered(Child(node, j), d, files)
  }

  lemma {:induction false} ChildrenDone(
      node: Json, n: nat, d: Directory, start: set<FileId>, before: set<FileId>, after: set<FileId>)
    requires n < Arity(node) && CoveredUpTo(node, n, d, before) && Covered(Child(node, n), d, after)
    requires start <= before <= after && Done(before - start, d, before) && Done(after - before, d, after)
    ensures CoveredUpTo(node, n + 1, d, after) && Done(after - start, d, after)
  {
    forall j | 0 <= j < n ensures Covered(Child(node, j), d, after) {
      Grow(Child(node, j), d, before, after, {});
    }
    Grow(node, d, before, after, before - start);
    assert after - start == (before - start) + (after - before);
  }

  lemma {:induction false} AllCovered(node: Json, d: Directory, files: set<FileId>)
    requires !IsEnvelope(node) && CoveredUpTo(node, Arity(node), d, files)
    ensures Covered(node, d, files)
  {
  }

  lemma {:induction false} ChainThroughChild(node: Json, i: nat, es: seq<Json>, d: Directory)
    requires !IsEnvelope(node) && i < Arity(node) && Chain(Child(node, i), es, d)
    ensures Chain(node, es, d)
  {
  }

  lemma {:induction false} EnvelopeDone(e: Json, f: FileId, d: Directory, before: set<FileId>, after: set<FileId>)
    requires Check(e, d) == Some(f) && before + {f} <= after && Done(after - (before + {f}), d, after)
    requires FileDone(f, d, after)
    ensures Covered(e, d, after) && Done(after - before, d, after)
  {
    forall x | x in after - before ensures x in d.files && FileDone(x, d, after) {
      if x != f { assert x in after - (before + {f}); }
    }
  }

  lemma {:induction false} ChainThroughFile(e: Json, es: seq<Json>, d: Directory)
    requires IsEnvelope(e) && Behind(e, d).Some? && Chain(Behind(e, d).value, es, d)
    ensures Chain(e, [e] + es, d) && ([e] + es)[|es|] == es[|es| - 1]
  {
    assert ([e] + es)[1..] == es;
  }

  /** A chain of references leads to the file. */
  ghost predicate Reached(node: Json, f: FileId, d: Directory) {
    exists es :: Chain(node, es, d) && Check(es[|es| - 1], d) == Some(f)
  }

  ghost predicate AllReached(node: Json, files: set<FileId>, d: Directory) {
    forall f | f in files :: Reached(node, f, d)
  }

  lemma {:induction false} ReachedItself(e: Json, f: FileId, d: Directory)
    requires IsEnvelope(e) && Check(e, d) == Some(f)
    ensures AllReached(e, {f}, d)
  {
    assert Chain(e, [e], d) && [e][0] == e;
  }

  lemma {:induction false} ReachedThroughChild(
      node: Json, i: nat, start: set<FileId>, before: set<FileId>, after: set<FileId>, d: Directory)
    requires !IsEnvelope(node) && i < Arity(node)
    requires AllReached(node, before - start, d) && AllReached(Child(node, i), after - before, d)
    ensures AllReached(node, after - start, d)
  {
    forall f | f in after - start ensures Reached(node, f, d) {
      if f in before {
        assert f in before - start;
      } else {
        assert Reached(Child(node, i), f, d);
        var es :| Chain(Child(node, i), es, d) && Check(es[|es| - 1], d) == Some(f);
        ChainThroughChild(node, i, es, d);
      }
    }
  }

  lemma {:induction false} ReachedBehind(e: Json, f: FileId, d: Directory)
    requires IsEnvelope(e) && Behind(e, d).Some? && Reached(Behind(e, d).value, f, d)
    ensures Reached(e, f, d)
  {
    var es :| Chain(Behind(e, d).value, es, d) && Check(es[|es| - 1], d) == Some(f);
    ChainThroughFile(e, es, d);
    assert Check(([e] + es)[|[e] + es| - 1], d) == Some(f);
  }

  lemma {:induction false} ReachedThroughFile(e: Json, files: set<FileId>, d: Directory)
    requires IsEnvelope(e) && Behind(e, d).Some? && AllReached(Behind(e, d).value, files, d)
    ensures AllReached(e, files, d)
  {
    forall f | f in files ensures Reached(e, f, d) {
      ReachedBehind(e, f, d);
    }
  }

  class Walker {
    const directory: Directory
    var visited: set<FileId>
    var parsed: seq<FileId>    // the files handed to load_json, in order

    ghost predicate Valid()
      reads this
    {
      && visited <= directory.files.Keys
      && (forall f :: f in parsed <==> f in visited && directory.files[f].looksLikeJson)
      && forall i, j :: 0 <= i < j < |parsed| ==> parsed[i] != parsed[j]
    }

    constructor (d: Directory)
      ensures Valid() && directory == d && visited == {} && parsed == []
    {
      directory, visited, parsed := d, {}, [];
    }

    /** Returns normally only if everything met leads to files of `visited`, all of them gone through
        but those the caller is still in; otherwise `bad` is a chain to an unsound reference. Only files
        that references lead to are visited, and of those the JSON ones are parsed once each (Valid). */
    method Walk(node: Json) returns (ok: bool, ghost bad: seq<Json>)
      requires Valid()
      modifies this
      ensures Valid() && old(visited) <= visited && AllReached(node, visited - old(visited), directory)
      ensures ok ==> Covered(node, directory, visited) && Done(visited - old(visited), directory, visited)
      ensures !ok ==> Chain(node, bad, directory) && !Sound(bad[|bad| - 1], directory)
      decreases |directory.files.Keys - visited|, node, 2
    {
      if IsEnvelope(node) {
        ok, bad := WalkEnvelope(node);
      } else {
        ok, bad := WalkChildren(node);
      }
    }

    method WalkChildren(node: Json) returns (ok: bool, ghost bad: seq<Json>)
      requires Valid() && !IsEnvelope(node)
      modifies this
      ensures Valid() && old(visited) <= visited && AllReached(node, visited - old(visited), directory)
      ensures ok ==> Covered(node, directory, visited) && Done(visited - old(visited), directory, visited)
      ensures !ok ==> Chain(node, bad, directory) && !Sound(bad[|bad| - 1], directory)
      decreases |directory.files.Keys - visited|, node, 1
    {
      ok, bad := true, [];
      var i := 0;
      while i < Arity(node)
        invariant 0 <= i <= Arity(node) && Valid() && old(visited) <= visited
        invariant CoveredUpTo(node, i, directory, visited)
        invariant Done(visited - old(visited), directory, visited)
        invariant AllReached(node, visited - old(visited), directory)
      {
        ghost var before := visited;
        Fewer(directory.files.Keys, old(visited), visited);
        ok, bad := Walk(Child(node, i));
        ReachedThroughChild(node, i, old(visited), before, visited, directory);
        if !ok {
          ChainThroughChild(node, i, bad, directory);
          return;
        }
        ChildrenDone(node, i, directory, old(visited), before, visited);
        i := i + 1;
      }
      ok := true;
      AllCovered(node, directory, visited);
    }

    method WalkEnvelope(e: Json) returns (ok: bool, ghost bad: seq<Json>)
      requires Valid() && IsEnvelope(e)
      modifies this
      ensures Valid() && old(visited) <= visited && AllReached(e, visited - old(visited), directory)
      ensures ok ==> Covered(e, directory, visited) && Done(visited - old(visited), directory, visited)
      ensures !ok ==> Chain(e, bad, directory) && !Sound(bad[|bad| - 1], directory)
      decreases |directory.files.Keys - visited|, e, 1
    {
      bad := [e];
      var path := Check(e, directory);
      if path.None? { return false, bad; }
      var f := path.value;
      if f in visited { return true, bad; }
      ok, bad := WalkFile(e, f);
    }

    method WalkFile(e: Json, f: FileId) returns (ok: bool, ghost bad: seq<Json>)
      requires Valid() && IsEnvelope(e) && Check(e, directory) == Some(f) && f !in visited
      modifies this
      ensures Valid() && old(visited) <= visited && AllReached(e, visited - old(visited), directory)
      ensures ok ==> Covered(e, directory, visited) && Done(visited - old(visited), directory, visited)
      ensures !ok ==> Chain(e, bad, directory) && !Sound(bad[|bad| - 1], directory)
      decreases |directory.files.Keys - visited|, e, 0
    {
      Visiting(directory.files.Keys, visited, f);
      Visit(f);
      ReachedItself(e, f, directory);
      ok, bad := true, [];
      if directory.files[f].looksLikeJson {
        var document := directory.files[f].parsed;
        if document.None? { return false, [e]; }
        ok, bad := Walk(document.value);
        ReachedThroughFile(e, visited - (old(visited) + {f}), directory);
        assert visited - old(visited) == visited - (old(visited) + {f}) + {f};
      }
      if ok {
        EnvelopeDone(e, f, directory, old(visited), visited);
      } else {
        ChainThroughFile(e, bad, directory);
        bad := [e] + bad;
      }
    }

    method Visit(f: FileId)
      requires Valid() && f in directory.files && f !in visited
      modifies this
      ensures Valid() && visited == old(visited) + {f}
    {
      visited := visited + {f};
      if directory.files[f].looksLikeJson { parsed := parsed + [f]; }
    }
  }

  lemma Visiting(all: set<FileId>, visited: set<FileId>, f: FileId)
    requires f in all && f !in visited
    ensures |all - (visited + {f})| < |all - visited|
  {
    assert all - visited == (all - (visited + {f})) + {f};
  }

  lemma Fewer(all: set<FileId>, few: set<FileId>, more: set<FileId>)
    requires few <= more
    ensures |all - more| <= |all - few|
  {
    assert all - few == (all - more) + ((all - few) * more);
  }

  /** _assert_artifact_references: returns normally exactly when every reference reachable from the
      document, through nested values and through JSON artifacts, is sound; cycles do not matter. Each
      JSON artifact reachable is then parsed, and parsed once; nothing else ever is. */
  method AssertReferences(document: Json, d: Directory) returns (ok: bool, parsed: seq<FileId>)
    ensures ok <==> AllSound(document, d)
    ensures forall i, j :: 0 <= i < j < |parsed| ==> parsed[i] != parsed[j]
    ensures forall f | f in parsed :: f in d.files && d.files[f].looksLikeJson && Reached(document, f, d)
    ensures ok ==> forall f | Reached(document, f, d) && f in d.files && d.files[f].looksLikeJson :: f in parsed
  {
    var w := new Walker(d);
    ghost var bad;
    ok, bad := w.Walk(document);
    parsed := w.parsed;
    assert w.visited - {} == w.visited;
    if ok {
      forall es | Chain(document, es, d)
        ensures Sound(es[|es| - 1], d) && Check(es[|es| - 1], d).value in w.visited
      {
        ClosedSetsAreSound(document, es, d, w.visited);
      }
    }
  }

  /* What the walk overlooks. */

  lemma {:induction false} MetEnvelopesAreContained(node: Json, e: Json)
    requires Meets(node, e)
    ensures Contains(node, e) && IsEnvelope(e)
    decreases node
  {
    if !IsEnvelope(node) {
      var i :| 0 <= i < Arity(node) && Meets(Child(node, i), e);
      MetEnvelopesAreContained(Child(node, i), e);
    }
  }

  /** The only place a passing envelope can hide another is the value of its `kind`. */
  lemma {:induction false} PassingEnvelopesHideInTheirKind(e: Json, d: Directory, inner: Json)
    requires Check(e, d).Some? && inner != e
    ensures Contains(e, inner) <==> Contains(KindOf(e), inner)
  {
    var k, p, s := Lookup(e.fields, "kind"), Lookup(e.fields, "path"), Lookup(e.fields, "sha256");
    assert !Contains(p, inner) && !Contains(s, inner) by { assert Arity(p) == 0 && Arity(s) == 0; }
    forall i: nat | i < 3 ensures Child(e, i) == k || Child(e, i) == p || Child(e, i) == s {
      ThreeKeys(e.fields, i);
    }
    ThreeKeys(e.fields, 0);
    if Contains(e, inner) {
      var i :| 0 <= i < Arity(e) && Contains(Child(e, i), inner);
    }
    var j :| 0 <= j < 3 && e.fields[j].value == k;
    assert Child(e, j) == k;
  }

  lemma ThreeKeys(fields: seq<Field>, i: nat)
    requires HasExactKeys(fields) && i < 3
    ensures exists j :: 0 <= j < 3 && fields[j].value == Lookup(fields, "kind")
    ensures fields[i].value == Lookup(fields, fields[i].key)
    ensures fields[i].key == "kind" || fields[i].key == "path" || fields[i].key == "sha256"
  {
    var a :| 0 <= a < 3 && fields[a].key == "kind";
    var b :| 0 <= b < 3 && fields[b].key == "path";
    var c :| 0 <= c < 3 && fields[c].key == "sha256";
    assert a != b && b != c && a != c;
    assert i == a || i == b || i == c;
    assert fields == [fields[0], fields[1], fields[2]];
    assert fields[1..] == [fields[1], fields[2]] && fields[2..] == [fields[2]];
    assert fields[1..][1..] == fields[2..];
    assert HasKey(fields, fields[i].key);
    if i == 2 { LookupSteps(fields); }
  }

  lemma LookupSteps(fields: seq<Field>)
    requires |fields| == 3 && fields[0].key != fields[2].key && fields[1].key != fields[2].key
    ensures HasKey(fields, fields[2].key) && Lookup(fields, fields[2].key) == fields[2].value
  {
    var v :| v == Lookup(fields, fields[2].key);
  }

  /** Under the `kind` of an envelope the walk meets. */
  ghost predicate Hidden(node: Json, inner: Json) { exists e :: Meets(node, e) && Contains(KindOf(e), inner) }

  lemma {:induction false} HiddenInAChild(node: Json, inner: Json)
    requires !IsEnvelope(node)
    ensures Hidden(node, inner) <==> exists i :: 0 <= i < Arity(node) && Hidden(Child(node, i), inner)
  {
    if e :| Meets(node, e) && Contains(KindOf(e), inner) {
      var i :| 0 <= i < Arity(node) && Meets(Child(node, i), e);
      assert Hidden(Child(node, i), inner);
    }
    if i :| 0 <= i < Arity(node) && Hidden(Child(node, i), inner) {
      var e :| Meets(Child(node, i), e) && Contains(KindOf(e), inner);
      assert Meets(node, e);
    }
  }

  /** In a document whose met envelopes pass, an envelope anywhere is either met or lies under the
      `kind` of a met one: those, and no others, go unchecked. */
  lemma {:induction false} WhatTheWalkOverlooks(node: Json, d: Directory, inner: Json)
    requires forall e | Meets(node, e) :: Check(e, d).Some?
    ensures Contains(node, inner) <==> Meets(node, inner) || Hidden(node, inner)
    decreases node
  {
    if IsEnvelope(node) {
      assert Meets(node, node);
      if inner != node { PassingEnvelopesHideInTheirKind(node, d, inner); }
    } else {
      HiddenInAChild(node, inner);
      forall i | 0 <= i < Arity(node)
        ensures Contains(Child(node, i), inner) <==> Meets(Child(node, i), inner) || Hidden(Child(node, i), inner)
      {
        forall e | Meets(Child(node, i), e) ensures Check(e, d).Some? { assert Meets(node, e); }
        WhatTheWalkOverlooks(Child(node, i), d, inner);
      }
    }
  }

  /** One such document: it passes, though the envelope it holds under `kind` would not. */
  lemma {:induction false} HiddenEnvelopesGoUnchecked(digest: string)
    requires IsDigest(digest)
    ensures var inner := Reference(Null, Null, Null);
            var outer := Reference(inner, Str("a"), Str(digest));
            && AllSound(outer, OneFile(digest)) && Contains(outer, inner)
            && IsEnvelope(inner) && Check(inner, OneFile(digest)).None?
  {
    var inner := Reference(Null, Null, Null);
    var outer := Reference(inner, Str("a"), Str(digest));
    ReferencePasses(inner, digest);
    HoldsThree(inner.fields);
    assert Child(outer, 0) == inner && Contains(inner, inner);
    forall es | Chain(outer, es, OneFile(digest)) ensures Sound(es[|es| - 1], OneFile(digest)) {
      assert es[0] == outer && Behind(outer, OneFile(digest)).None?;
    }
  }

  function Reference(kind: Json, path: Json, digest: Json): Json {
    Obj([Field("kind", kind), Field("path", path), Field("sha256", digest)])
  }

  function OneFile(digest: string): Directory {
    Directory(map[0 := Artifact(digest, false, None)], map["a" := 0])
  }

  lemma {:induction false} ReferencePasses(kind: Json, digest: string)
    requires IsDigest(digest)
    ensures IsEnvelope(Reference(kind, Str("a"), Str(digest)))
    ensures Check(Reference(kind, Str("a"), Str(digest)), OneFile(digest)) == Some(0)
  {
    HoldsThree(Reference(kind, Str("a"), Str(digest)).fields);
    assert Segments("a", 0, 0) by { assert Segments("a", 0, 1) by { assert "a"[0..1] == "a"; } }
  }

  lemma {:induction false} HoldsThree(fields: seq<Field>)
    requires |fields| == 3 && fields[0].key == "kind" && fields[1].key == "path" && fields[2].key == "sha256"
    ensures IsEnvelope(Obj(fields)) && HasExactKeys(fields)
    ensures Lookup(fields, "kind") == fields[0].value && Lookup(fields, "path") == fields[1].value
    ensures Lookup(fields, "sha256") == fields[2].value
  {
    ThreeKeys(fields, 0);
    ThreeKeys(fields, 1);
    ThreeKeys(fields, 2);
  }
}
