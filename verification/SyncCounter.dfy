/** The SYNC counter list and the server clock of the coexistence check (verify_coexistence.py), after
    ListSystemCounters of the X Synchronization Extension 3.1. */
module SyncCounter {
  import opened Wrappers

  type Byte = b: int | 0 <= b < 256
  type Word = w: int | 0 <= w < 0x1_0000_0000
  type Signed = w: int | -0x8000_0000 <= w < 0x8000_0000

  /** One record of the list: fourteen bytes, the name, and padding of any content. */
  datatype Record = Record(id: Word, hi: Signed, lo: Word, name: seq<Byte>, pad: seq<Byte>)

  predicate WellFormed(r: Record) { |r.name| < 0x1_0000 && |r.pad| == Padded(|r.name|) - 14 - |r.name| }

  predicate AllWellFormed(rs: seq<Record>) { forall i :: 0 <= i < |rs| ==> WellFormed(rs[i]) }

  /** A record and its name are padded together to a multiple of four. */
  function Padded(size: nat): (n: nat)
    ensures n % 4 == 0 && 14 + size <= n < 14 + size + 4
  {
    (14 + size + 3) / 4 * 4
  }

  function Value(r: Record): int { r.hi * 0x1_0000_0000 + r.lo }

  /** Every signed 64-bit number is the value of exactly one pair of halves. */
  lemma ValueSplits(v: int, r: Record)
    requires -0x8000_0000_0000_0000 <= v < 0x8000_0000_0000_0000
    ensures -0x8000_0000 <= v / 0x1_0000_0000 < 0x8000_0000
    ensures Value(r) == v <==> r.hi == v / 0x1_0000_0000 && r.lo == v % 0x1_0000_0000
  {
  }

  /* Numbers in the byte order of the connection. */

  function Word2(a: Byte, b: Byte, little: bool): (n: nat)
    ensures n < 0x1_0000
  {
    if little then a + 0x100 * b else b + 0x100 * a
  }

  function WordAt(p: seq<Byte>, i: nat, little: bool): Word
    requires i + 4 <= |p|
  {
    var first, second := Word2(p[i], p[i + 1], little), Word2(p[i + 2], p[i + 3], little);
    if little then first + 0x1_0000 * second else second + 0x1_0000 * first
  }

  function Bytes2(n: nat, little: bool): (b: seq<Byte>)
    requires n < 0x1_0000
    ensures |b| == 2 && Word2(b[0], b[1], little) == n
  {
    if little then [n % 0x100, n / 0x100] else [n / 0x100, n % 0x100]
  }

  function Bytes4(w: Word, little: bool): (b: seq<Byte>)
    ensures |b| == 4 && WordAt(b, 0, little) == w
  {
    var low, high := Bytes2(w % 0x1_0000, little), Bytes2(w / 0x1_0000, little);
    if little then low + high else high + low
  }

  lemma HalvesAreUnique(a: Byte, b: Byte, little: bool)
    ensures Bytes2(Word2(a, b, little), little) == [a, b]
  {
  }

  /** Four bytes are the only ones for their number. */
  lemma BytesAreUnique(b: seq<Byte>, little: bool)
    requires |b| == 4
    ensures Bytes4(WordAt(b, 0, little), little) == b
  {
    HalvesAreUnique(b[0], b[1], little);
    HalvesAreUnique(b[2], b[3], little);
    var low, high := if little then Word2(b[0], b[1], little) else Word2(b[2], b[3], little),
                     if little then Word2(b[2], b[3], little) else Word2(b[0], b[1], little);
    assert WordAt(b, 0, little) == low + 0x1_0000 * high;
    assert (low + 0x1_0000 * high) % 0x1_0000 == low && (low + 0x1_0000 * high) / 0x1_0000 == high;
    assert b == [b[0], b[1]] + [b[2], b[3]];
  }

  function ToSigned(w: Word): Signed { if w < 0x8000_0000 then w else w - 0x1_0000_0000 }

  function FromSigned(s: Signed): Word { if s >= 0 then s else s + 0x1_0000_0000 }

  /* Encoding, and decoding the first record of a payload. */

  function Header(r: Record, little: bool): (h: seq<Byte>)
    requires |r.name| < 0x1_0000
    ensures |h| == 14
  {
    Bytes4(r.id, little) + Bytes4(FromSigned(r.hi), little) + Bytes4(r.lo, little) + Bytes2(|r.name|, little)
  }

  function Encode(r: Record, little: bool): seq<Byte>
    requires WellFormed(r)
  {
    Header(r, little) + r.name + r.pad
  }

  function EncodeAll(rs: seq<Record>, little: bool): seq<Byte>
    requires AllWellFormed(rs)
  {
    if rs == [] then [] else Encode(rs[0], little) + EncodeAll(rs[1..], little)
  }

  /** The length of the first record with its padding, if the payload has room for it. */
  function FirstLength(p: seq<Byte>, little: bool): (n: Option<nat>)
    ensures n.Some? ==> 14 <= n.value <= |p| && n.value % 4 == 0
  {
    if |p| < 14 || Padded(Word2(p[12], p[13], little)) > |p| then None else Some(Padded(Word2(p[12], p[13], little)))
  }

  function First(p: seq<Byte>, little: bool): (r: Record)
    requires FirstLength(p, little).Some?
  {
    var end := 14 + Word2(p[12], p[13], little);
    Record(WordAt(p, 0, little), ToSigned(WordAt(p, 4, little)), WordAt(p, 8, little),
      p[14..end], p[end..FirstLength(p, little).value])
  }

  type Step = seq<Byte> -> Option<(nat, Record)>

  /** The first record of a payload and its padded length. */
  function Head(little: bool): Step {
    (p: seq<Byte>) =>
      if FirstLength(p, little).None? then None else Some((FirstLength(p, little).value, First(p, little)))
  }

  /** Records read one after the other, until exactly `count` of them fill the payload. */
  function ParseBy(step: Step, count: nat, p: seq<Byte>): Option<seq<Record>> {
    if count == 0 then if p == [] then Some([]) else None
    else
      var s := step(p);
      if s.None? || s.value.0 > |p| then None else After([s.value.1], ParseBy(step, count - 1, p[s.value.0..]))
  }

  function Parse(count: nat, p: seq<Byte>, little: bool): Option<seq<Record>> { ParseBy(Head(little), count, p) }

  function After(done: seq<Record>, rest: Option<seq<Record>>): Option<seq<Record>> {
    if rest.None? then None else Some(done + rest.value)
  }

  lemma AfterOneMore(done: seq<Record>, r: Record, rest: Option<seq<Record>>)
    ensures After(done, After([r], rest)) == After(done + [r], rest)
  {
    if rest.Some? { assert done + ([r] + rest.value) == done + [r] + rest.value; }
  }

  lemma HeaderReads(r: Record, little: bool)
    requires |r.name| < 0x1_0000
    ensures var h := Header(r, little);
            && WordAt(h, 0, little) == r.id && ToSigned(WordAt(h, 4, little)) == r.hi && WordAt(h, 8, little) == r.lo
            && Word2(h[12], h[13], little) == |r.name|
  {
  }

  lemma {:induction false} FirstOfEncoded(r: Record, more: seq<Byte>, little: bool)
    requires WellFormed(r)
    ensures var p := Encode(r, little) + more;
            FirstLength(p, little) == Some(|Encode(r, little)|) && First(p, little) == r
  {
    var p, h := Encode(r, little) + more, Header(r, little);
    HeaderReads(r, little);
    assert p[..14] == h;
    assert forall i :: 0 <= i < 14 ==> p[i] == h[i];
    assert p[14..14 + |r.name|] == r.name;
    assert p[14 + |r.name|..|Encode(r, little)|] == r.pad;
  }

  lemma {:induction false} FirstEncodesBack(p: seq<Byte>, little: bool)
    requires FirstLength(p, little).Some?
    ensures WellFormed(First(p, little)) && Encode(First(p, little), little) == p[..FirstLength(p, little).value]
  {
    var r, n := First(p, little), FirstLength(p, little).value;
    HeaderIsUnique(p[..14], r, little);
    assert p[..n] == p[..14] + r.name + r.pad;
  }

  lemma HeaderIsUnique(h: seq<Byte>, r: Record, little: bool)
    requires |h| == 14 && |r.name| < 0x1_0000
    requires WordAt(h, 0, little) == r.id && ToSigned(WordAt(h, 4, little)) == r.hi && WordAt(h, 8, little) == r.lo
    requires Word2(h[12], h[13], little) == |r.name|
    ensures Header(r, little) == h
  {
    BytesAreUnique(h[0..4], little);
    BytesAreUnique(h[4..8], little);
    BytesAreUnique(h[8..12], little);
    HalvesAreUnique(h[12], h[13], little);
    assert h == h[0..4] + h[4..8] + h[8..12] + [h[12], h[13]];
  }

  /** Every list of records survives encoding and parsing. */
  lemma {:induction false} EncodedListsParse(rs: seq<Record>, little: bool)
    requires AllWellFormed(rs)
    ensures Parse(|rs|, EncodeAll(rs, little), little) == Some(rs)
  {
    if rs != [] {
      var p, q := Encode(rs[0], little), EncodeAll(rs[1..], little);
      FirstOfEncoded(rs[0], q, little);
      assert (p + q)[|p|..] == q;
      EncodedListsParse(rs[1..], little);
      assert Head(little)(p + q) == Some((|p|, rs[0]));
      assert [rs[0]] + rs[1..] == rs;
    }
  }

  ghost predicate EncodesBack(s: Option<(nat, Record)>, p: seq<Byte>, little: bool) {
    s.Some? ==> s.value.0 <= |p| && WellFormed(s.value.1) && Encode(s.value.1, little) == p[..s.value.0]
  }

  lemma {:induction false} EncodeOneMore(r: Record, rest: seq<Record>, p: seq<Byte>, n: nat, little: bool)
    requires n <= |p| && WellFormed(r) && AllWellFormed(rest)
    requires Encode(r, little) == p[..n] && EncodeAll(rest, little) == p[n..]
    ensures AllWellFormed([r] + rest) && EncodeAll([r] + rest, little) == p
  {
    assert ([r] + rest)[1..] == rest;
    assert p == p[..n] + p[n..];
  }

  lemma {:induction false} ParsedEncodes(step: Step, count: nat, p: seq<Byte>, little: bool)
    requires (forall q :: EncodesBack(step(q), q, little)) && ParseBy(step, count, p).Some?
    ensures var rs := ParseBy(step, count, p).value;
            |rs| == count && AllWellFormed(rs) && EncodeAll(rs, little) == p
  {
    if count > 0 {
      var s := step(p).value;
      assert EncodesBack(step(p), p, little);
      ParsedEncodes(step, count - 1, p[s.0..], little);
      EncodeOneMore(s.1, ParseBy(step, count - 1, p[s.0..]).value, p, s.0, little);
    }
  }

  /** ... and only an encoded list parses. */
  lemma {:induction false} ParsedListsEncode(count: nat, p: seq<Byte>, little: bool)
    requires Parse(count, p, little).Some?
    ensures var rs := Parse(count, p, little).value;
            |rs| == count && AllWellFormed(rs) && EncodeAll(rs, little) == p
  {
    forall q ensures EncodesBack(Head(little)(q), q, little) {
      if FirstLength(q, little).Some? { FirstEncodesBack(q, little); }
    }
    ParsedEncodes(Head(little), count, p, little);
  }

  /* The counter looked for. */

  const SERVER_TIME: seq<Byte> := [83, 69, 82, 86, 69, 82, 84, 73, 77, 69]

  /** The entries named SERVERTIME, as (id, value). */
  function Named(rs: seq<Record>): seq<(Word, int)> {
    if rs == [] then [] else Entry(rs[0]) + Named(rs[1..])
  }

  function Entry(r: Record): seq<(Word, int)> { if r.name == SERVER_TIME then [(r.id, Value(r))] else [] }

  lemma {:induction false} NamedSplits(a: seq<Record>, b: seq<Record>)
    ensures Named(a + b) == Named(a) + Named(b)
  {
    if a == [] {
      assert a + b == b;
    } else {
      assert (a + b)[1..] == a[1..] + b;
      NamedSplits(a[1..], b);
    }
  }

  /** The parse of the rest is what is still missing from the records read so far. */
  ghost predicate Reading(step: Step, count: nat, payload: seq<Byte>, done: seq<Record>, offset: nat)
    requires |done| <= count && offset <= |payload|
  {
    ParseBy(step, count, payload) == After(done, ParseBy(step, count - |done|, payload[offset..]))
  }

  lemma {:induction false} ReadOne(step: Step, count: nat, payload: seq<Byte>, done: seq<Record>, offset: nat)
    requires |done| < count && offset <= |payload| && Reading(step, count, payload, done, offset)
    ensures var s := step(payload[offset..]);
            if s.None? || offset + s.value.0 > |payload| then ParseBy(step, count, payload).None?
            else Reading(step, count, payload, done + [s.value.1], offset + s.value.0)
  {
    var s := step(payload[offset..]);
    if s.Some? && offset + s.value.0 <= |payload| {
      assert payload[offset..][s.value.0..] == payload[offset + s.value.0..];
      AfterOneMore(done, s.value.1, ParseBy(step, count - |done| - 1, payload[offset + s.value.0..]));
    }
  }

  /** _server_counter on a list of records: what it must answer. */
  function Answer(rs: Option<seq<Record>>): Option<(Word, int)> {
    if rs.None? then None
    else
      var found := Named(rs.value);
      if |found| == 1 && found[0].0 != 0 then Some(found[0]) else None
  }

  lemma PaddingInPlace(offset: nat, size: nat)
    requires offset % 4 == 0
    ensures (offset + 14 + size + 3) / 4 * 4 == offset + Padded(size)
  {
    var k := offset / 4;
    assert (4 * k + 14 + size + 3) / 4 == k + (14 + size + 3) / 4;
  }

  lemma LengthInPlace(p: seq<Byte>, offset: nat, little: bool)
    requires offset + 14 <= |p|
    ensures var n := Padded(Word2(p[offset + 12], p[offset + 13], little));
            FirstLength(p[offset..], little) == if offset + n > |p| then None else Some(n)
  {
  }

  lemma EntryInPlace(p: seq<Byte>, offset: nat, little: bool)
    requires offset + 14 <= |p| && FirstLength(p[offset..], little).Some?
    ensures var end := offset + 14 + Word2(p[offset + 12], p[offset + 13], little);
            end <= |p| && Entry(First(p[offset..], little)) ==
              if p[offset + 14..end] != SERVER_TIME then []
              else
                var hi, lo := ToSigned(WordAt(p, offset + 4, little)), WordAt(p, offset + 8, little);
                [(WordAt(p, offset, little), hi * 0x1_0000_0000 + lo)]
  {
    var size := Word2(p[offset + 12], p[offset + 13], little);
    assert p[offset..][14..14 + size] == p[offset + 14..offset + 14 + size];
  }

  /** One turn of the loop: where the next record starts, and the entry, if it is of that name. */
  method ReadRecord(payload: seq<Byte>, offset: nat, little: bool)
      returns (next: Option<nat>, entry: seq<(Word, int)>)
    requires offset <= |payload| && offset % 4 == 0
    ensures Took(Head(little)(payload[offset..]), |payload|, offset, next, entry)
  {
    if |payload| - offset < 14 { return None, []; }
    var size := Word2(payload[offset + 12], payload[offset + 13], little);
    var end := offset + 14 + size;
    var padded := (end + 3) / 4 * 4;
    PaddingInPlace(offset, size);
    LengthInPlace(payload, offset, little);
    if padded > |payload| { return None, []; }
    entry := [];
    EntryInPlace(payload, offset, little);
    if payload[offset + 14..end] == SERVER_TIME {
      var hi := ToSigned(WordAt(payload, offset + 4, little));
      entry := [(WordAt(payload, offset, little), hi * 0x1_0000_0000 + WordAt(payload, offset + 8, little))];
    }
    next := Some(padded);
  }

  /** The loop's invariant. */
  ghost predicate Progress(
      step: Step, count: nat, payload: seq<Byte>, done: seq<Record>, offset: nat, list: seq<(Word, int)>)
  {
    |done| <= count && offset <= |payload| && Reading(step, count, payload, done, offset) && list == Named(done)
  }

  lemma {:induction false} Turn(step: Step, count: nat, payload: seq<Byte>, done: seq<Record>, offset: nat,
      list: seq<(Word, int)>)
    requires Progress(step, count, payload, done, offset, list) && |done| < count
    ensures var s := step(payload[offset..]);
            if s.None? || offset + s.value.0 > |payload| then ParseBy(step, count, payload).None?
            else Progress(step, count, payload, done + [s.value.1], offset + s.value.0, list + Entry(s.value.1))
  {
    ReadOne(step, count, payload, done, offset);
    var s := step(payload[offset..]);
    if s.Some? {
      NamedSplits(done, [s.value.1]);
      assert Named([s.value.1]) == Entry(s.value.1) + [] == Entry(s.value.1);
    }
  }

  lemma {:induction false} LoopEnds(step: Step, count: nat, payload: seq<Byte>, done: seq<Record>, offset: nat,
      list: seq<(Word, int)>)
    requires |done| == count && Progress(step, count, payload, done, offset, list)
    ensures var all := ParseBy(step, count, payload);
            if offset != |payload| then all == None else all.Some? && list == Named(all.value)
  {
    assert done + [] == done;
  }

  /** ReadRecord, and what it does to the invariant. */
  method Advance(count: nat, payload: seq<Byte>, little: bool, ghost done: seq<Record>, offset: nat,
      list: seq<(Word, int)>)
    returns (next: Option<nat>, longer: seq<(Word, int)>, ghost more: seq<Record>)
    requires Progress(Head(little), count, payload, done, offset, list) && |done| < count && offset % 4 == 0
    ensures next.None? ==> Parse(count, payload, little).None?
    ensures next.Some? ==> next.value % 4 == 0 && |more| == |done| + 1
    ensures next.Some? ==> Progress(Head(little), count, payload, more, next.value, longer)
  {
    var entry;
    next, entry := ReadRecord(payload, offset, little);
    longer := list + entry;
    more := TurnTo(Head(little), count, payload, done, offset, list, next, entry);
  }

  ghost predicate Took(s: Option<(nat, Record)>, limit: nat, offset: nat, next: Option<nat>, entry: seq<(Word, int)>) {
    if s.None? then next == None
    else
      && offset + s.value.0 <= limit && s.value.0 % 4 == 0
      && next == Some(offset + s.value.0) && entry == Entry(s.value.1)
  }

  lemma {:induction false} TurnTo(
      step: Step, count: nat, payload: seq<Byte>, done: seq<Record>, offset: nat,
      list: seq<(Word, int)>, next: Option<nat>, entry: seq<(Word, int)>)
      returns (more: seq<Record>)
    requires |done| < count && Progress(step, count, payload, done, offset, list)
    requires Took(step(payload[offset..]), |payload|, offset, next, entry)
    ensures next.None? ==> ParseBy(step, count, payload).None?
    ensures next.Some? ==> next.value % 4 == offset % 4 && |more| == |done| + 1
    ensures next.Some? ==> Progress(step, count, payload, more, next.value, list + entry)
  {
    Turn(step, count, payload, done, offset, list);
    var s := step(payload[offset..]);
    more := if s.None? then done else done + [s.value.1];
  }

  method ReadCounters(count: nat, payload: seq<Byte>, little: bool) returns (found: Option<seq<(Word, int)>>)
    ensures var rs := Parse(count, payload, little); found == if rs.None? then None else Some(Named(rs.value))
  {
    var list: seq<(Word, int)>, offset: nat, k: nat := [], 0, 0;
    ghost var done: seq<Record> := [];
    ReadNone(Head(little), count, payload);
    while k < count
      invariant |done| == k && offset % 4 == 0 && Progress(Head(little), count, payload, done, offset, list)
    {
      var next;
      next, list, done := Advance(count, payload, little, done, offset, list);
      if next.None? { return None; }
      offset, k := next.value, k + 1;
    }
    LoopEnds(Head(little), count, payload, done, offset, list);
    if offset != |payload| { return None; }
    found := Some(list);
  }

  lemma ReadNone(step: Step, count: nat, payload: seq<Byte>)
    ensures Reading(step, count, payload, [], 0)
  {
    assert payload[0..] == payload;
    var all := ParseBy(step, count, payload);
    assert After([], all) == all by { if all.Some? { assert [] + all.value == all.value; } }
  }

  /** The source tests the length of what is left, and what was found, together. */
  method ServerCounter(count: int, payload: seq<Byte>, little: bool) returns (r: Option<(Word, int)>)
    ensures r == if 0 <= count <= 256 && |payload| <= 65536 then Answer(Parse(count, payload, little)) else None
  {
    if !(0 <= count <= 256) || |payload| > 65536 { return None; }
    var found := ReadCounters(count, payload, little);
    if found.None? || |found.value| != 1 || found.value[0].0 == 0 { return None; }
    r := Some(found.value[0]);
  }

  ghost predicate IsTheOne(rs: seq<Record>, i: nat) {
    i < |rs| && rs[i].name == SERVER_TIME && forall j :: 0 <= j < |rs| && rs[j].name == SERVER_TIME ==> j == i
  }

  /** On any list within the limits, the answer is the value and id of the only entry of that name,
      provided its id is not zero; anything else is refused. */
  lemma {:induction false} TheOnlyServerTimeIsFound(rs: seq<Record>, little: bool, id: Word, value: int)
    requires AllWellFormed(rs)
    ensures Answer(Parse(|rs|, EncodeAll(rs, little), little)) == Some((id, value)) <==>
            id != 0 && exists i: nat :: IsTheOne(rs, i) && rs[i].id == id && Value(rs[i]) == value
  {
    EncodedListsParse(rs, little);
    OneNamed(rs, id, value);
  }

  lemma {:induction false} NoneNamed(rs: seq<Record>)
    ensures Named(rs) == [] <==> forall j :: 0 <= j < |rs| ==> rs[j].name != SERVER_TIME
  {
    if rs != [] { NoneNamed(rs[1..]); }
  }

  lemma {:induction false} OneNamed(rs: seq<Record>, id: Word, value: int)
    ensures Named(rs) == [(id, value)] <==> exists i: nat :: IsTheOne(rs, i) && rs[i].id == id && Value(rs[i]) == value
  {
    if rs != [] {
      var rest := rs[1..];
      NoneNamed(rest);
      assert forall j :: 0 < j < |rs| ==> rs[j] == rest[j - 1];
      if rs[0].name == SERVER_TIME {
        var e := (rs[0].id, Value(rs[0]));
        assert Named(rs) == [e] + Named(rest) && Named(rs)[0] == e;
        assert forall j :: 0 <= j < |rest| ==> rest[j] == rs[j + 1];
        if Named(rest) == [] { assert IsTheOne(rs, 0); } else { assert |Named(rs)| > 1; }
      } else {
        OneNamed(rest, id, value);
        assert Named(rs) == [] + Named(rest) == Named(rest);
        TheOneShifts(rs, id, value);
      }
    }
  }

  lemma {:induction false} TheOneShifts(rs: seq<Record>, id: Word, value: int)
    requires rs != [] && rs[0].name != SERVER_TIME
    ensures (exists i: nat :: IsTheOne(rs, i) && rs[i].id == id && Value(rs[i]) == value) <==>
            (exists i: nat :: IsTheOne(rs[1..], i) && rs[1..][i].id == id && Value(rs[1..][i]) == value)
  {
    var rest := rs[1..];
    assert forall j :: 0 < j < |rs| ==> rs[j] == rest[j - 1];
    if i: nat :| IsTheOne(rest, i) && rest[i].id == id && Value(rest[i]) == value {
      assert IsTheOne(rs, i + 1) && rs[i + 1] == rest[i];
    }
    if i: nat :| IsTheOne(rs, i) && rs[i].id == id && Value(rs[i]) == value {
      assert IsTheOne(rest, i - 1) && rs[i] == rest[i - 1];
    }
  }

  /** An unusable second entry of that name makes the list ambiguous: a list is refused though just one
      of its entries of that name has an id. */
  lemma {:induction false} AZeroIdStillCounts(a: Record, b: Record, little: bool)
    requires WellFormed(a) && WellFormed(b) && a.name == SERVER_TIME && b.name == SERVER_TIME && a.id == 0 && b.id != 0
    ensures Answer(Parse(2, EncodeAll([a, b], little), little)) == None
  {
    EncodedListsParse([a, b], little);
    assert Named([a, b][1..]) == [(b.id, Value(b))] by { assert [a, b][1..] == [b]; assert [b][1..] == []; }
  }

  /* Time stamps. */

  const EPOCH := 0x1_0000_0000

  function EventTime(stamp: int, now: int): Option<int> {
    if !(0 <= stamp < EPOCH) then None
    else
      var age := (now - stamp) % EPOCH;
      if age >= EPOCH / 2 then None else Some(now - age)
  }

  ghost predicate IsEventTime(t: int, stamp: int, now: int) {
    0 <= stamp < EPOCH && t % EPOCH == stamp && now - EPOCH / 2 < t <= now
  }

  /** The answer is the one time in the half epoch up to now that has this stamp. */
  lemma {:induction false} EventTimeIsTheOnly(stamp: int, now: int, t: int)
    ensures EventTime(stamp, now) == Some(t) <==> IsEventTime(t, stamp, now)
  {
  }

  lemma {:induction false} RefusedExactlyWhenThereIsNone(stamp: int, now: int)
    ensures EventTime(stamp, now).None? <==> forall t :: !IsEventTime(t, stamp, now)
  {
    if EventTime(stamp, now).Some? { EventTimeIsTheOnly(stamp, now, EventTime(stamp, now).value); }
    forall t | IsEventTime(t, stamp, now) ensures EventTime(stamp, now).Some? { EventTimeIsTheOnly(stamp, now, t); }
  }

  class ServerClock {
    var first: Option<int>
    var last: Option<int>

    ghost predicate Valid()
      reads this
    {
      && first.Some? == last.Some?
      && (first.Some? ==> 0 <= first.value <= last.value <= first.value + 90_000)
    }

    constructor ()
      ensures Valid() && first == None
    {
      first, last := None, None;
    }

    /** A reading never falls behind the one before it, nor leaves the ninety seconds of the run. */
    method Read(length: nat, hi: Signed, lo: Word) returns (value: Option<int>)
      requires Valid()
      modifies this
      ensures Valid()
      ensures value.Some? <==>
              && length == 0 && hi * EPOCH + lo >= 0
              && (old(first).Some? ==> old(last).value <= hi * EPOCH + lo <= old(first).value + 90_000)
      ensures value.Some? ==> last == value && value.value == hi * EPOCH + lo
      ensures value.Some? ==> first == if old(first).None? then value else old(first)
      ensures value.None? ==> first == old(first) && last == old(last)
    {
      var v := hi * EPOCH + lo;
      if length != 0 || v < 0 || (last.Some? && (v < last.value || v - first.value > 90_000)) { return None; }
      if first.None? { first := Some(v); }
      last := Some(v);
      value := last;
    }
  }

  /** Within a run, an event's stamp gives back its full time, whether or not the 32-bit clock has
      wrapped in between. */
  lemma {:induction false} EventsOfARunAreDated(first: int, t: int, now: int)
    requires first <= t <= now <= first + 90_000
    ensures EventTime(t % EPOCH, now) == Some(t)
  {
    EventTimeIsTheOnly(t % EPOCH, now, t);
  }
}
