/**
 Track metadata sent to an AVRCP controller (`audio/control.c`): the attribute fields of a
 response, and its split over a START and an END packet.
 */
module AvrcpMetadata {
  import opened Bytes
  import opened Sequences

  const MAX_STRING_LEN: nat := 150
  const MAX_NUMBER_LEN: nat := 40
  const MAX_COUNT: nat := 7
  const FIELD_LEN: nat := 8
  const HEADER_LEN: nat := 14
  const MAX_PKT_SIZE: nat := 512
  const CHARSET_UTF8: nat := 0x6A

  const PACKET_SINGLE: byte := 0
  const PACKET_START: byte := 1
  const PACKET_CONTINUE: byte := 2
  const PACKET_END: byte := 3

  /** Title, artist, album, number, total, playing time, genre: the order fields are written in. */
  const ORDER: seq<nat> := [1, 2, 3, 4, 5, 7, 6]

  predicate IsNumber(id: nat) { id == 4 || id == 5 || id == 7 }

  /** The longest text `update_metadata` keeps for an attribute. */
  function Limit(id: nat): nat {
    if IsNumber(id) then MAX_NUMBER_LEN - 1 else MAX_STRING_LEN - 1
  }

  /** `texts[id - 1]` is the text of attribute `id`. */
  ghost predicate TextsOk(texts: seq<seq<byte>>) {
    |texts| == 7 && forall id | 1 <= id <= 7 :: |texts[id - 1]| <= Limit(id)
  }

  /** One attribute of a response. */
  datatype Field = Field(id: nat, charset: nat, text: seq<byte>)

  ghost predicate FieldOk(f: Field) {
    f.id < 0x1_0000_0000 && f.charset < 0x1_0000 && |f.text| < 0x1_0000
  }

  function FieldBytes(f: Field): (r: seq<byte>)
    ensures |r| == FIELD_LEN + |f.text|
  {
    BigEndian(f.id, 4) + BigEndian(f.charset, 2) + BigEndian(|f.text|, 2) + f.text
  }

  function Wire(fs: seq<Field>): seq<byte> {
    if fs == [] then [] else Wire(fs[..|fs| - 1]) + FieldBytes(fs[|fs| - 1])
  }

  function Zeros(n: nat): (r: seq<byte>)
    ensures |r| == n
  {
    seq(n, _ => 0)
  }

  /** `region` is `w` and then zeros. */
  ghost predicate Padded(region: seq<byte>, w: seq<byte>) {
    |w| <= |region| && region == w + Zeros(|region| - |w|)
  }

  lemma PaddedUnique(a: seq<byte>, b: seq<byte>, w: seq<byte>)
    requires Padded(a, w) && Padded(b, w) && |a| == |b|
    ensures a == b
  {
  }

  lemma PaddedWith(w: seq<byte>, n: nat)
    ensures Padded(w + Zeros(n), w)
  {
  }

  /** What unused room reads as. */
  const BLANK_FIELD: Field := Field(0, 0, [])

  function Blanks(n: nat): (r: seq<Field>)
    ensures |r| == n && forall i | 0 <= i < n :: r[i] == BLANK_FIELD
  {
    seq(n, _ => BLANK_FIELD)
  }

  // --------------------------------------------------------------- reading fields

  /** A controller reads `n` fields that take up all of `bytes`, one after the other. */
  function ParseFields(bytes: seq<byte>, n: nat): Option<seq<Field>> {
    if n == 0 then if bytes == [] then Some([]) else None
    else if |bytes| < FIELD_LEN then None
    else
      var len := FromBigEndian(bytes[6..8]);
      if |bytes| < FIELD_LEN + len then None
      else
        match ParseFields(bytes[FIELD_LEN + len..], n - 1)
        case None => None
        case Some(rest) =>
          Some([Field(FromBigEndian(bytes[..4]), FromBigEndian(bytes[4..6]), bytes[8..FIELD_LEN + len])] + rest)
  }

  lemma Pow256Values()
    ensures Pow256(2) == 0x1_0000 && Pow256(4) == 0x1_0000_0000
  {
    assert Pow256(1) == 256 * Pow256(0) && Pow256(3) == 256 * Pow256(2);
  }

  lemma FieldReads(f: Field, rest: seq<byte>)
    requires FieldOk(f)
    ensures var b := FieldBytes(f) + rest;
            && FromBigEndian(b[..4]) == f.id && FromBigEndian(b[4..6]) == f.charset
            && FromBigEndian(b[6..8]) == |f.text|
            && b[8..FIELD_LEN + |f.text|] == f.text && b[FIELD_LEN + |f.text|..] == rest
  {
    var b := FieldBytes(f) + rest;
    assert b[..4] == BigEndian(f.id, 4) && b[4..6] == BigEndian(f.charset, 2) && b[6..8] == BigEndian(|f.text|, 2);
    Pow256Values();
    BigEndianRoundTrip(f.id, 4);
    BigEndianRoundTrip(f.charset, 2);
    BigEndianRoundTrip(|f.text|, 2);
  }

  lemma {:induction false} WireFront(fs: seq<Field>)
    requires fs != []
    ensures Wire(fs) == FieldBytes(fs[0]) + Wire(fs[1..])
  {
    var init := fs[..|fs| - 1];
    if init == [] {
      assert fs[1..] == [];
    } else {
      WireFront(init);
      assert init[1..] == fs[1..][..|fs| - 2];
    }
  }

  lemma ParseStep(f: Field, rest: seq<byte>, n: nat, fs: seq<Field>)
    requires FieldOk(f) && ParseFields(rest, n) == Some(fs)
    ensures ParseFields(FieldBytes(f) + rest, n + 1) == Some([f] + fs)
  {
    FieldReads(f, rest);
    hide FromBigEndian, FieldBytes, FieldOk;
    var b := FieldBytes(f) + rest;
    assert b[FIELD_LEN + |f.text|..] == rest;
  }

  lemma {:induction false} ParseUndoesWire(fs: seq<Field>)
    requires forall i | 0 <= i < |fs| :: FieldOk(fs[i])
    ensures ParseFields(Wire(fs), |fs|) == Some(fs)
  {
    if fs != [] {
      WireFront(fs);
      ParseUndoesWire(fs[1..]);
      hide ParseFields, Wire, FieldBytes, FieldOk;
      ParseStep(fs[0], Wire(fs[1..]), |fs| - 1, fs[1..]);
      assert fs == [fs[0]] + fs[1..];
    }
  }

  lemma {:induction false} WireAppend(a: seq<Field>, b: seq<Field>)
    ensures Wire(a + b) == Wire(a) + Wire(b)
  {
    if b == [] {
      assert a + b == a && Wire(a) + [] == Wire(a);
    } else {
      hide Wire;
      var init, last := b[..|b| - 1], b[|b| - 1];
      assert init + [last] == b;
      WireAppend(a, init);
      WireAppendSnoc(a, init, last);
    }
  }

  lemma WireAppendSnoc(a: seq<Field>, b: seq<Field>, f: Field)
    requires Wire(a + b) == Wire(a) + Wire(b)
    ensures Wire(a + (b + [f])) == Wire(a) + Wire(b + [f])
  {
    WireSnoc(b, f);
    WireSnoc(a + b, f);
    hide Wire;
    ConcatAssociative(a, b, [f]);
    ConcatAssociative(Wire(a), Wire(b), FieldBytes(f));
  }

  lemma BlankBytes()
    ensures FieldBytes(BLANK_FIELD) == Zeros(FIELD_LEN)
  {
    assert BigEndian(0, 1) == [0] && BigEndian(0, 2) == [0, 0] && BigEndian(0, 3) == [0, 0, 0];
  }

  lemma ZerosAppend(m: nat, n: nat)
    ensures Zeros(m) + Zeros(n) == Zeros(m + n)
  {
  }

  lemma {:induction false} WireBlanks(n: nat)
    ensures Wire(Blanks(n)) == Zeros(FIELD_LEN * n)
  {
    if n > 0 {
      assert Blanks(n) == Blanks(n - 1) + [BLANK_FIELD];
      hide Wire, Zeros, Blanks, FieldBytes;
      WireBlanks(n - 1);
      BlankBytes();
      WireSnoc(Blanks(n - 1), BLANK_FIELD);
      ZerosAppend(FIELD_LEN * (n - 1), FIELD_LEN);
    }
  }

  // --------------------------------------------------------------- writing fields

  /** The fields asked for, from position `k` of the order on. */
  function Selected(texts: seq<seq<byte>>, mask: set<nat>, k: nat): seq<Field>
    requires |texts| == 7 && k <= 7
    decreases 7 - k
  {
    if k == 7 then []
    else (if ORDER[k] in mask then [Field(ORDER[k], CHARSET_UTF8, texts[ORDER[k] - 1])] else [])
         + Selected(texts, mask, k + 1)
  }

  function TextLength(fs: seq<Field>): nat {
    if fs == [] then 0 else TextLength(fs[..|fs| - 1]) + |fs[|fs| - 1].text|
  }

  /** A field written after one with an empty text takes its place: what is left of `fs`. */
  function Surviving(fs: seq<Field>): (r: seq<Field>)
    ensures fs != [] ==> r != [] && r[|r| - 1] == fs[|fs| - 1]
    ensures |r| <= |fs|
  {
    if |fs| <= 1 then fs
    else
      var r := Surviving(fs[..|fs| - 1]);
      (if fs[|fs| - 2].text == [] then r[..|r| - 1] else r) + [fs[|fs| - 1]]
  }

  /** All texts but the last are non-empty. */
  ghost predicate AllButLastFull(fs: seq<Field>) {
    forall i | 0 <= i < |fs| - 1 :: fs[i].text != []
  }

  lemma {:induction false} FullSurvives(fs: seq<Field>)
    requires AllButLastFull(fs)
    ensures Surviving(fs) == fs
  {
    if |fs| > 1 {
      var init, last := fs[..|fs| - 1], fs[|fs| - 1];
      assert AllButLastFull(init) && init[|init| - 1].text != [];
      hide AllButLastFull, Surviving;
      assert init + [last] == fs;
      FullSurvives(init);
      FullSnoc(init, last);
    }
  }

  lemma FullSnoc(fs: seq<Field>, f: Field)
    requires fs != [] && fs[|fs| - 1].text != [] && Surviving(fs) == fs
    ensures Surviving(fs + [f]) == fs + [f]
  {
    hide Surviving;
    SurvivingSnoc(fs, f);
  }

  lemma {:induction false} EmptyIsLost(fs: seq<Field>, i: nat)
    requires i + 1 < |fs| && fs[i].text == []
    ensures |Surviving(fs)| < |fs|
  {
    if i + 2 < |fs| { EmptyIsLost(fs[..|fs| - 1], i); }
  }

  lemma {:induction false} WireLength(fs: seq<Field>)
    ensures |Wire(fs)| == FIELD_LEN * |fs| + TextLength(fs)
  {
    if fs != [] { WireLength(fs[..|fs| - 1]); }
  }

  lemma TextSnoc(fs: seq<Field>, f: Field)
    ensures TextLength(fs + [f]) == TextLength(fs) + |f.text|
  {
    assert (fs + [f])[..|fs|] == fs;
  }

  /** Only fields without text are lost. */
  lemma {:induction false} SurvivingText(fs: seq<Field>)
    ensures TextLength(Surviving(fs)) == TextLength(fs)
  {
    if fs != [] {
      hide Surviving, TextLength;
      var init, last := fs[..|fs| - 1], fs[|fs| - 1];
      assert init + [last] == fs;
      SurvivingText(init);
      SurvivingTextSnoc(init, last);
    }
  }

  lemma SurvivingTextSnoc(fs: seq<Field>, f: Field)
    requires TextLength(Surviving(fs)) == TextLength(fs)
    ensures TextLength(Surviving(fs + [f])) == TextLength(fs + [f])
  {
    hide Surviving, Kept, TextLength;
    SurvivingSnoc(fs, f);
    TextSnoc(fs, f);
    TextSnoc(Kept(fs), f);
    KeptText(fs);
  }

  lemma SurvivingLength(fs: seq<Field>)
    ensures |Wire(Surviving(fs))| == FIELD_LEN * |Surviving(fs)| + TextLength(fs)
  {
    hide Wire, Surviving, TextLength;
    WireLength(Surviving(fs));
    SurvivingText(fs);
  }

  lemma KeptText(fs: seq<Field>)
    ensures TextLength(Kept(fs)) == TextLength(Surviving(fs))
  {
    var r := Surviving(fs);
    hide Surviving;
    if fs != [] {
      TextSnoc(r[..|r| - 1], r[|r| - 1]);
      assert r[..|r| - 1] + [r[|r| - 1]] == r;
    }
  }

  lemma {:induction false} SurvivingIn(fs: seq<Field>)
    ensures forall f | f in Surviving(fs) :: f in fs
  {
    if fs != [] {
      hide Surviving;
      var init, last := fs[..|fs| - 1], fs[|fs| - 1];
      assert init + [last] == fs;
      SurvivingIn(init);
      SurvivingInSnoc(init, last);
    }
  }

  lemma SurvivingInSnoc(fs: seq<Field>, f: Field)
    requires forall g | g in Surviving(fs) :: g in fs
    ensures forall g | g in Surviving(fs + [f]) :: g in fs + [f]
  {
    hide Surviving;
    SurvivingSnoc(fs, f);
    assert forall g | g in Kept(fs) :: g in Surviving(fs);
  }

  /** The region after octets are written into it. */
  function Written(region: seq<byte>, at: nat, b: seq<byte>): (r: seq<byte>)
    requires at + |b| <= |region|
    ensures |r| == |region|
  {
    region[..at] + b + region[at + |b|..]
  }

  /** What is written behind `kept`, over `gone` octets and zeros. */
  lemma WriteBehind(region: seq<byte>, kept: seq<byte>, gone: seq<byte>, b: seq<byte>)
    requires |gone| <= |b| && |kept| + |b| <= |region|
    requires Padded(region, kept + gone)
    ensures Padded(Written(region, |kept|, b), kept + b)
  {
    assert region[..|kept|] == kept;
    assert region[|kept| + |b|..] == Zeros(|region| - |kept| - |b|);
  }

  /** The field blocks of `send_meta_data`: a field goes behind the previous one only if that had a text. */
  method FillFields(buf: array<byte>, fs: seq<Field>)
    requires buf.Length >= HEADER_LEN + Room(fs)
    requires buf[HEADER_LEN..] == Zeros(buf.Length - HEADER_LEN)
    modifies buf
    ensures buf[..HEADER_LEN] == old(buf[..HEADER_LEN]) && Padded(buf[HEADER_LEN..], Wire(Surviving(fs)))
  {
    var pos, len := HEADER_LEN, 0;
    ghost var header := buf[..HEADER_LEN];
    assert fs[..0] == [] && fs[..|fs|] == fs;
    PlacedEmpty(buf[HEADER_LEN..]);
    hide Wire, Surviving, FieldBytes, Zeros, Room, Placed;
    for i := 0 to |fs|
      invariant buf[..HEADER_LEN] == header
      invariant Placed(buf[HEADER_LEN..], fs[..i], pos - HEADER_LEN, len) && pos >= HEADER_LEN && len >= 0
    {
      pos := PlaceField(buf, fs, i, pos, len);
      len := |fs[i].text|;
    }
    PlacedIs(buf[HEADER_LEN..], fs, pos - HEADER_LEN, len);
  }

  /** Octets that all of the fields would take. */
  function Room(fs: seq<Field>): nat {
    FIELD_LEN * |fs| + TextLength(fs)
  }

  /** One field block. */
  method PlaceField(buf: array<byte>, fs: seq<Field>, i: nat, pos: nat, len: nat) returns (pos': nat)
    requires i < |fs| && buf.Length >= HEADER_LEN + Room(fs) && pos >= HEADER_LEN
    requires Placed(buf[HEADER_LEN..], fs[..i], pos - HEADER_LEN, len)
    modifies buf
    ensures buf[..HEADER_LEN] == old(buf[..HEADER_LEN]) && pos' >= HEADER_LEN
    ensures Placed(buf[HEADER_LEN..], fs[..i + 1], pos' - HEADER_LEN, |fs[i].text|)
  {
    hide Wire, Surviving, FieldBytes, Zeros, Room, Placed, Written;
    var f := fs[i];
    assert fs[..i] + [f] == fs[..i + 1];
    Fits(fs, i + 1);
    PlacedNext(buf[HEADER_LEN..], fs[..i], pos - HEADER_LEN, len, f);
    pos' := if len > 0 then pos + FIELD_LEN + len else pos;
    PutField(buf, pos', FieldBytes(f));
  }

  /** Copies a field into the buffer behind the header. */
  method PutField(buf: array<byte>, pos: nat, b: seq<byte>)
    requires HEADER_LEN <= pos && pos + |b| <= buf.Length
    modifies buf
    ensures buf[..HEADER_LEN] == old(buf[..HEADER_LEN])
    ensures var at, region := pos - HEADER_LEN, old(buf[HEADER_LEN..]);
            buf[HEADER_LEN..] == Written(region, at, b)
  {
    CopyInto(buf, pos, b);
  }

  /** What survives of the first fields fits where all of them would. */
  lemma Fits(fs: seq<Field>, i: nat)
    requires i <= |fs|
    ensures |Wire(Surviving(fs[..i]))| <= Room(fs)
  {
    SurvivingLength(fs[..i]);
    TextPrefix(fs, i);
  }

  /** `region` holds what survives of `fs`, then zeros; its last field starts at `at` and has `len` octets of text. */
  ghost predicate Placed(region: seq<byte>, fs: seq<Field>, at: int, len: int) {
    var r := Surviving(fs);
    && Padded(region, Wire(r))
    && (if fs == [] then at == 0 && len == 0 else at == |Wire(r[..|r| - 1])| && len == |r[|r| - 1].text|)
  }

  lemma PlacedEmpty(region: seq<byte>)
    requires region == Zeros(|region|)
    ensures Placed(region, [], 0, 0)
  {
    assert [] + region == region;
  }

  lemma PlacedIs(region: seq<byte>, fs: seq<Field>, at: int, len: int)
    requires Placed(region, fs, at, len)
    ensures Padded(region, Wire(Surviving(fs)))
  {
  }

  lemma {:induction false} TextPrefix(fs: seq<Field>, i: nat)
    requires i <= |fs|
    ensures TextLength(fs[..i]) <= TextLength(fs)
  {
    if i < |fs| {
      TextPrefix(fs[..|fs| - 1], i);
      assert fs[..|fs| - 1][..i] == fs[..i];
    } else {
      assert fs[..i] == fs;
    }
  }

  lemma WireSnoc(fs: seq<Field>, f: Field)
    ensures Wire(fs + [f]) == Wire(fs) + FieldBytes(f)
  {
    assert (fs + [f])[..|fs|] == fs;
  }

  /** What survives of the fields before `f` once `f` is written. */
  function Kept(fs: seq<Field>): seq<Field> {
    var r := Surviving(fs);
    if fs != [] && fs[|fs| - 1].text == [] then r[..|r| - 1] else r
  }

  lemma SurvivingSnoc(fs: seq<Field>, f: Field)
    ensures Surviving(fs + [f]) == Kept(fs) + [f]
  {
    assert (fs + [f])[..|fs|] == fs;
    if fs == [] { assert [] + [f] == [f]; }
  }

  /** Where the next field goes, and what it overwrites. */
  lemma PlacedKept(region: seq<byte>, fs: seq<Field>, at: nat, len: nat) returns (gone: seq<byte>)
    requires Placed(region, fs, at, len)
    ensures |gone| <= FIELD_LEN && Padded(region, Wire(Kept(fs)) + gone)
    ensures |Wire(Kept(fs))| == if len > 0 then at + FIELD_LEN + len else at
  {
    var r := Surviving(fs);
    hide Surviving, FieldBytes, Zeros, Padded;
    gone := [];
    if fs != [] {
      var init, last := r[..|r| - 1], r[|r| - 1];
      assert r != [] && last == fs[|fs| - 1];
      WireSnoc(init, last);
      assert init + [last] == r;
      hide Wire;
      if len == 0 {
        gone := FieldBytes(last);
        assert Kept(fs) == init;
      } else {
        assert Kept(fs) == r;
      }
    }
    hide Wire;
    assert Wire(Kept(fs)) + gone == Wire(r);
  }

  lemma PlacedAt(region: seq<byte>, fs: seq<Field>, kept: seq<Field>, f: Field)
    requires fs != [] && Surviving(fs) == kept + [f] && Padded(region, Wire(kept + [f]))
    ensures Placed(region, fs, |Wire(kept)|, |f.text|)
  {
    hide Wire, Surviving, Zeros, Padded;
    assert (kept + [f])[..|kept|] == kept;
  }

  lemma PlacedNext(region: seq<byte>, fs: seq<Field>, at: nat, len: nat, f: Field)
    requires Placed(region, fs, at, len)
    requires |Wire(Surviving(fs + [f]))| <= |region|
    ensures var at', b := (if len > 0 then at + FIELD_LEN + len else at), FieldBytes(f);
            at' + |b| <= |region| && Placed(Written(region, at', b), fs + [f], at', |f.text|)
  {
    assert |FieldBytes(f)| >= FIELD_LEN;
    hide Wire, Surviving, Kept, FieldBytes, Zeros, Placed, Written, Padded;
    var kept, b := Kept(fs), FieldBytes(f);
    var gone := PlacedKept(region, fs, at, len);
    SurvivingSnoc(fs, f);
    WireSnoc(kept, f);
    WriteBehind(region, Wire(kept), gone, b);
    PlacedAt(Written(region, |Wire(kept)|, b), fs + [f], kept, f);
  }

  // -------------------------------------------------------------- asking for fields

  /** The attributes of a request for `ids`; an empty or too long request is for all of them. */
  function Mask(ids: seq<nat>): set<nat> {
    if ids == [] || |ids| > MAX_COUNT then {1, 2, 3, 4, 5, 6, 7} else Ids(ids)
  }

  /** The number of attributes announced in the response. */
  function Count(ids: seq<nat>): nat {
    if ids == [] || |ids| > MAX_COUNT then MAX_COUNT else |ids|
  }

  function Ids(ids: seq<nat>): (r: set<nat>)
    ensures |r| <= |ids|
  {
    if ids == [] then {} else Ids(ids[..|ids| - 1]) + {ids[|ids| - 1]}
  }

  lemma {:induction false} SelectedCount(texts: seq<seq<byte>>, mask: set<nat>, left: set<nat>, k: nat)
    requires |texts| == 7 && k <= 7
    requires forall j | k <= j < 7 && ORDER[j] in mask :: ORDER[j] in left
    ensures |Selected(texts, mask, k)| <= |left|
    decreases 7 - k
  {
    if k < 7 {
      var id := ORDER[k];
      assert forall j | k < j < 7 :: ORDER[j] != id;
      SelectedCount(texts, mask, if id in mask then left - {id} else left, k + 1);
    }
  }

  /** The place of an attribute in a response: the playing time comes before the genre. */
  function Place(id: nat): nat {
    if id == 7 then 6 else if id == 6 then 7 else id
  }

  /** The field of an attribute. */
  function FieldOf(texts: seq<seq<byte>>, id: nat): Field
    requires |texts| == 7 && 1 <= id <= 7
  {
    Field(id, CHARSET_UTF8, texts[id - 1])
  }

  /** Exactly the attributes of the mask with places above `k`, in the order of their places. */
  ghost predicate Exactly(fs: seq<Field>, texts: seq<seq<byte>>, mask: set<nat>, k: nat)
    requires |texts| == 7
  {
    && (forall i | 0 <= i < |fs| ::
          && 1 <= fs[i].id <= 7 && fs[i].id in mask && Place(fs[i].id) > k && fs[i] == FieldOf(texts, fs[i].id))
    && (forall id | 1 <= id <= 7 && id in mask && Place(id) > k :: FieldOf(texts, id) in fs)
    && (forall i, j | 0 <= i < j < |fs| :: Place(fs[i].id) < Place(fs[j].id))
  }

  lemma ExactlySkip(fs: seq<Field>, texts: seq<seq<byte>>, mask: set<nat>, k: nat, id: nat)
    requires |texts| == 7 && Exactly(fs, texts, mask, k + 1) && 1 <= id <= 7 && Place(id) == k + 1 && id !in mask
    ensures Exactly(fs, texts, mask, k)
  {
  }

  lemma ExactlyCons(fs: seq<Field>, texts: seq<seq<byte>>, mask: set<nat>, k: nat, id: nat)
    requires |texts| == 7 && Exactly(fs, texts, mask, k + 1) && 1 <= id <= 7 && Place(id) == k + 1 && id in mask
    ensures Exactly([FieldOf(texts, id)] + fs, texts, mask, k)
  {
    var gs := [FieldOf(texts, id)] + fs;
    assert gs[0] == FieldOf(texts, id) && forall i | 0 < i < |gs| :: gs[i] == fs[i - 1];
    forall n | 1 <= n <= 7 && n in mask && Place(n) > k ensures FieldOf(texts, n) in gs {
      if n != id { assert FieldOf(texts, n) in fs; }
    }
  }

  lemma OrderPlaces(k: nat)
    requires k < 7
    ensures 1 <= ORDER[k] <= 7 && Place(ORDER[k]) == k + 1
  {
  }

  lemma SelectedStep(texts: seq<seq<byte>>, mask: set<nat>, k: nat)
    requires |texts| == 7 && k < 7 && 1 <= ORDER[k] <= 7
    ensures Selected(texts, mask, k)
         == if ORDER[k] in mask then [FieldOf(texts, ORDER[k])] + Selected(texts, mask, k + 1)
             else Selected(texts, mask, k + 1)
  {
    assert Selected(texts, mask, k)
        == (if ORDER[k] in mask then [FieldOf(texts, ORDER[k])] else []) + Selected(texts, mask, k + 1);
  }

  /**
   What a response is made from are exactly the attributes of the mask with their texts, in the order of their
   places.
   */
  lemma {:induction false} SelectedExactly(texts: seq<seq<byte>>, mask: set<nat>, k: nat)
    requires |texts| == 7 && k <= 7
    ensures Exactly(Selected(texts, mask, k), texts, mask, k)
    decreases 7 - k
  {
    if k < 7 {
      hide Selected, Exactly;
      OrderPlaces(k);
      SelectedExactly(texts, mask, k + 1);
      SelectedStep(texts, mask, k);
      var id, rest := ORDER[k], Selected(texts, mask, k + 1);
      if id in mask { ExactlyCons(rest, texts, mask, k, id); } else { ExactlySkip(rest, texts, mask, k, id); }
    }
  }

  /** The attributes of a response are those asked for; none or too many identifiers ask for all. */
  lemma FieldsAskedFor(texts: seq<seq<byte>>, ids: seq<nat>, id: nat)
    requires |texts| == 7 && 1 <= id <= 7
    ensures FieldOf(texts, id) in Selected(texts, Mask(ids), 0) <==> ids == [] || |ids| > MAX_COUNT || id in ids
  {
    hide Selected;
    IdsAre(ids, id);
    SelectedExactly(texts, Mask(ids), 0);
    hide Ids;
  }

  lemma {:induction false} IdsAre(ids: seq<nat>, id: nat)
    ensures id in Ids(ids) <==> id in ids
  {
    if ids != [] {
      IdsAre(ids[..|ids| - 1], id);
      assert ids == ids[..|ids| - 1] + [ids[|ids| - 1]];
    }
  }

  /** No more fields are written than the count announces. */
  lemma CountCovers(texts: seq<seq<byte>>, ids: seq<nat>)
    requires |texts| == 7
    ensures |Selected(texts, Mask(ids), 0)| <= Count(ids) <= MAX_COUNT
    ensures Count(ids) == if 1 <= |ids| <= 7 then |ids| else 7
  {
    hide Selected;
    var mask := Mask(ids);
    SelectedCount(texts, mask, mask, 0);
    assert |mask| <= Count(ids) by { hide Ids; }
  }

  function LimitSum(k: nat): nat
    requires k <= 7
    decreases 7 - k
  {
    if k == 7 then 0 else Limit(ORDER[k]) + LimitSum(k + 1)
  }

  lemma {:induction false} TextFront(f: Field, fs: seq<Field>)
    ensures TextLength([f] + fs) == |f.text| + TextLength(fs)
  {
    var all := [f] + fs;
    if fs == [] {
      assert all[..0] == [];
    } else {
      TextFront(f, fs[..|fs| - 1]);
      assert all[..|all| - 1] == [f] + fs[..|fs| - 1];
    }
  }

  lemma {:induction false} TextBound(texts: seq<seq<byte>>, mask: set<nat>, k: nat)
    requires TextsOk(texts) && k <= 7
    ensures TextLength(Selected(texts, mask, k)) <= LimitSum(k)
    decreases 7 - k
  {
    if k < 7 {
      TextBound(texts, mask, k + 1);
      var id, rest := ORDER[k], Selected(texts, mask, k + 1);
      assert 1 <= id <= 7 && |texts[id - 1]| <= Limit(id);
      hide TextsOk, TextLength, Limit;
      TextFront(Field(id, CHARSET_UTF8, texts[id - 1]), rest);
      assert [] + rest == rest;
    }
  }

  lemma {:induction false} SelectedOk(texts: seq<seq<byte>>, mask: set<nat>, k: nat, i: nat)
    requires TextsOk(texts) && k <= 7 && i < |Selected(texts, mask, k)|
    ensures var f := Selected(texts, mask, k)[i]; FieldOk(f) && f.id != 0
    decreases 7 - k
  {
    if k < 7 {
      var id := ORDER[k];
      assert 1 <= id <= 7 && |texts[id - 1]| <= Limit(id);
      assert FieldOk(Field(id, CHARSET_UTF8, texts[id - 1]));
      hide TextsOk, FieldOk, Limit;
      if id in mask {
        if i > 0 { SelectedOk(texts, mask, k + 1, i - 1); }
      } else {
        SelectedOk(texts, mask, k + 1, i);
      }
    }
  }

  lemma LimitTotal()
    ensures LimitSum(0) == 713
  {
    assert LimitSum(4) == Limit(5) + (Limit(7) + (Limit(6) + LimitSum(7)));
    assert LimitSum(0) == Limit(1) + (Limit(2) + (Limit(3) + (Limit(4) + LimitSum(4))));
  }

  /** The metadata of a response: what survives of the fields, and zeros for the rest of the announced count. */
  function Metadata(fs: seq<Field>, count: nat): seq<byte>
    requires |fs| <= count
  {
    Wire(Surviving(fs) + Blanks(count - |Surviving(fs)|))
  }

  lemma MetadataSize(fs: seq<Field>, count: nat)
    requires |fs| <= count
    ensures |Metadata(fs, count)| == FIELD_LEN * count + TextLength(fs)
    ensures Padded(Metadata(fs, count), Wire(Surviving(fs)))
  {
    var n := count - |Surviving(fs)|;
    hide Wire, Surviving, Zeros, Blanks, TextLength, Padded;
    SurvivingLength(fs);
    WireAppend(Surviving(fs), Blanks(n));
    WireBlanks(n);
    PaddedWith(Wire(Surviving(fs)), FIELD_LEN * n);
  }

  /** The response to a request holds at most 769 octets of metadata. */
  lemma ResponseSize(texts: seq<seq<byte>>, ids: seq<nat>)
    requires TextsOk(texts)
    ensures |Selected(texts, Mask(ids), 0)| <= Count(ids) <= MAX_COUNT
    ensures |Metadata(Selected(texts, Mask(ids), 0), Count(ids))| <= 769
  {
    assert |texts| == 7;
    hide TextsOk, Selected, Mask, Count, Metadata, TextLength;
    CountCovers(texts, ids);
    TextBound(texts, Mask(ids), 0);
    LimitTotal();
    MetadataSize(Selected(texts, Mask(ids), 0), Count(ids));
  }

  /** The parameters of the response to a request: the count and the metadata. */
  ghost function Response(texts: seq<seq<byte>>, ids: seq<nat>): seq<byte>
    requires TextsOk(texts)
  {
    hide Selected, Metadata;
    ResponseSize(texts, ids);
    [Count(ids)] + Metadata(Selected(texts, Mask(ids), 0), Count(ids))
  }

  /**
   A controller reads the fields that were asked for exactly when the count is theirs and all texts but the last are
   non-empty.
   */
  lemma MetadataParses(fs: seq<Field>, count: nat)
    requires |fs| <= count && forall i | 0 <= i < |fs| :: FieldOk(fs[i]) && fs[i].id != 0
    ensures ParseFields(Metadata(fs, count), count) == Some(fs) <==> count == |fs| && AllButLastFull(fs)
  {
    hide ParseFields, Metadata, FieldOk, Surviving, AllButLastFull;
    MetadataReads(fs, count);
    SurvivesIff(fs, count);
  }

  /** The fields that survive, filled up with blank ones, are all the fields exactly under that condition. */
  lemma SurvivesIff(fs: seq<Field>, count: nat)
    requires |fs| <= count && forall i | 0 <= i < |fs| :: fs[i].id != 0
    ensures Surviving(fs) + Blanks(count - |Surviving(fs)|) == fs <==> count == |fs| && AllButLastFull(fs)
  {
    hide Surviving;
    var all := Surviving(fs) + Blanks(count - |Surviving(fs)|);
    if AllButLastFull(fs) {
      FullSurvives(fs);
      if count == |fs| { assert all == fs; }
    } else {
      var i :| 0 <= i < |fs| - 1 && fs[i].text == [];
      EmptyIsLost(fs, i);
      assert all[count - 1] == BLANK_FIELD;
      assert count == |fs| ==> all[count - 1] != fs[count - 1];
    }
  }

  /** What a controller reads: the fields that survive, and blank ones. */
  lemma MetadataReads(fs: seq<Field>, count: nat)
    requires |fs| <= count && forall i | 0 <= i < |fs| :: FieldOk(fs[i])
    ensures ParseFields(Metadata(fs, count), count) == Some(Surviving(fs) + Blanks(count - |Surviving(fs)|))
  {
    var all := Surviving(fs) + Blanks(count - |Surviving(fs)|);
    assert FieldOk(BLANK_FIELD);
    hide ParseFields, Surviving, Wire, FieldOk, TextLength;
    SurvivingIn(fs);
    forall i | 0 <= i < |all| ensures FieldOk(all[i]) {
      if i < |Surviving(fs)| { assert all[i] in Surviving(fs); }
    }
    ParseUndoesWire(all);
  }

  // --------------------------------------------------------------------- packets

  /** The 13 octets in front of the parameters: AVCTP and AVRCP headers, company, PDU, packet type, length. */
  function HeaderBytes(transaction: nat, kind: byte, paramLen: nat): (r: seq<byte>)
    requires transaction < 16
    ensures |r| == HEADER_LEN - 1
  {
    [2 + 16 * transaction, 0x11, 0x0E, 0x0C, 0x48, 0x00, 0x00, 0x19, 0x58, 0x20, kind] + BigEndian(paramLen, 2)
  }

  /** What a controller takes from a packet: its type and its parameters, if the length is right. */
  function ReadPacket(p: seq<byte>): Option<(byte, seq<byte>)> {
    if |p| < HEADER_LEN - 1 || FromBigEndian(p[11..13]) != |p| - 13 then None else Some((p[10], p[13..]))
  }

  lemma CompanyReads()
    ensures FromBigEndian([0x00, 0x19, 0x58]) == 0x1958
  {
    assert [0x00, 0x19, 0x58][..2] == [0x00, 0x19] && [0x00, 0x19][..1] == [0x00] && [0x00][..0] == [];
  }

  lemma HeaderIs(transaction: nat, kind: byte, paramLen: nat)
    requires transaction < 16
    ensures var p := HeaderBytes(transaction, kind, paramLen);
            && p[0] / 16 == transaction && p[0] % 16 == 2 && p[1..3] == [0x11, 0x0E]
            && p[3..6] == [0x0C, 0x48, 0x00] && FromBigEndian(p[6..9]) == 0x1958 && p[9] == 0x20
  {
    CompanyReads();
    hide FromBigEndian, BigEndian;
    assert HeaderBytes(transaction, kind, paramLen)[6..9] == [0x00, 0x19, 0x58];
  }

  /**
   The parameters come through, behind an AVCTP response header with the AVRCP profile and the Bluetooth SIG's
   company.
   */
  lemma PacketReads(transaction: nat, kind: byte, body: seq<byte>)
    requires transaction < 16 && |body| < 0x1_0000
    ensures ReadPacket(HeaderBytes(transaction, kind, |body|) + body) == Some((kind, body))
    ensures var p := HeaderBytes(transaction, kind, |body|);
            && p[0] / 16 == transaction && p[0] % 16 == 2 && p[1..3] == [0x11, 0x0E]
            && p[3..6] == [0x0C, 0x48, 0x00] && FromBigEndian(p[6..9]) == 0x1958 && p[9] == 0x20
  {
    HeaderIs(transaction, kind, |body|);
    var p := HeaderBytes(transaction, kind, |body|) + body;
    assert p[11..13] == BigEndian(|body|, 2) && p[13..] == body;
    Pow256Values();
    BigEndianRoundTrip(|body|, 2);
  }

  lemma ResponseIs(texts: seq<seq<byte>>, ids: seq<nat>, params: seq<byte>)
    requires TextsOk(texts) && |Selected(texts, Mask(ids), 0)| <= Count(ids) < 256
    requires params == [Count(ids)] + Metadata(Selected(texts, Mask(ids), 0), Count(ids))
    ensures params == Response(texts, ids) && |params| <= 770
  {
    hide Selected, Mask, Count, Metadata, TextsOk;
    ResponseSize(texts, ids);
  }

  /** The metadata part of `struct control`. */
  class Control {
    var texts: seq<seq<byte>>
    var remaining: seq<byte>

    ghost predicate Valid()
      reads this
    {
      TextsOk(texts) && |remaining| <= 268
    }

    constructor ()
      ensures Valid() && remaining == []
    {
      texts := [[], [], [], [], [], [], []];
      remaining := [];
    }

    /** `update_metadata`: each text is kept up to its limit. */
    method UpdateMetadata(given: seq<seq<byte>>)
      requires Valid() && |given| == 7
      modifies this`texts
      ensures Valid()
      ensures forall id | 1 <= id <= 7 ::
                texts[id - 1] == if |given[id - 1]| <= Limit(id) then given[id - 1] else given[id - 1][..Limit(id)]
    {
      var i := 0;
      var kept: seq<seq<byte>> := [];
      while i < 7
        invariant 0 <= i <= 7 && |kept| == i
        invariant forall j | 0 <= j < i ::
                    kept[j] == if |given[j]| <= Limit(j + 1) then given[j] else given[j][..Limit(j + 1)]
      {
        var max := if IsNumber(i + 1) then MAX_NUMBER_LEN else MAX_STRING_LEN;
        kept := kept + [if |given[i]| < max then given[i] else given[i][..max - 1]];
        i := i + 1;
      }
      texts := kept;
    }

    /** `send_meta_data`: one SINGLE packet, or a START packet with the rest kept for later. */
    method SendMetaData(transaction: nat, ids: seq<nat>) returns (packet: seq<byte>)
      requires Valid() && transaction < 16
      modifies this`remaining
      ensures Valid()
      ensures var body := Response(texts, ids);
              if |body| <= 502 then
                packet == HeaderBytes(transaction, PACKET_SINGLE, |body|) + body && remaining == old(remaining)
              else
                packet == HeaderBytes(transaction, PACKET_START, 502) + body[..502] && remaining == body[502..]
    {
      hide Selected, Mask, Count, Metadata, HeaderBytes;
      ResponseSize(texts, ids);
      var fs, count := Selected(texts, Mask(ids), 0), Count(ids);
      var buf := BuildBuffer(fs, count);
      hide Response;
      var params := buf[HEADER_LEN - 1..];
      ResponseIs(texts, ids, params);
      var metaDataLen := |buf| - HEADER_LEN;
      if metaDataLen + HEADER_LEN - 3 > MAX_PKT_SIZE {
        var len := MAX_PKT_SIZE - 3 - 8 + 1;
        packet := HeaderBytes(transaction, PACKET_START, len) + params[..len];
        remaining := params[len..];
      } else {
        packet := HeaderBytes(transaction, PACKET_SINGLE, metaDataLen + 1) + params;
      }
    }

    /** `send_meta_data_continue_response`: the rest always fits, so the packet is an END packet. */
    method SendContinue(transaction: nat) returns (packet: seq<byte>)
      requires Valid() && transaction < 16
      modifies this`remaining
      ensures Valid() && remaining == []
      ensures packet == HeaderBytes(transaction, PACKET_END, |old(remaining)|) + old(remaining)
    {
      var metaDataLen := |remaining| + HEADER_LEN - 1;
      if metaDataLen > MAX_PKT_SIZE {
        assert false;
      }
      packet := HeaderBytes(transaction, PACKET_END, metaDataLen - HEADER_LEN + 1) + remaining;
      remaining := [];
    }
  }

  /** The part of the response buffer in use, with the fields and the count but no headers yet. */
  method BuildBuffer(fs: seq<Field>, count: nat) returns (bytes: seq<byte>)
    requires |fs| <= count < 256
    ensures |bytes| >= HEADER_LEN && bytes[13..] == [count] + Metadata(fs, count)
  {
    hide Metadata, Wire, Surviving, TextLength, Zeros, Padded;
    MetadataSize(fs, count);
    var buf := new byte[HEADER_LEN + FIELD_LEN * count + TextLength(fs)];
    ClearBuffer(buf);
    FillFields(buf, fs);
    PaddedUnique(buf[HEADER_LEN..], Metadata(fs, count), Wire(Surviving(fs)));
    bytes := SetCount(buf, count);
  }

  /** The count goes in front of the metadata. */
  method SetCount(buf: array<byte>, count: byte) returns (bytes: seq<byte>)
    requires buf.Length >= HEADER_LEN
    modifies buf
    ensures |bytes| == buf.Length && bytes[13..] == [count] + old(buf[HEADER_LEN..])
  {
    buf[13] := count;
    bytes := buf[..];
    assert bytes[HEADER_LEN..] == old(buf[HEADER_LEN..]);
    assert bytes[13..] == [count] + bytes[HEADER_LEN..];
  }

  /** `g_new0`. */
  method ClearBuffer(buf: array<byte>)
    requires buf.Length >= HEADER_LEN
    modifies buf
    ensures buf[HEADER_LEN..] == Zeros(buf.Length - HEADER_LEN)
  {
    for i := 0 to buf.Length
      invariant forall j | 0 <= j < i :: buf[j] == 0
    {
      buf[i] := 0;
    }
  }

  /** Packets of legal size that carry the parameters: one SINGLE packet, or a START packet and an END packet. */
  ghost predicate Carries(packets: seq<seq<byte>>, params: seq<byte>) {
    && (forall i | 0 <= i < |packets| :: |packets[i]| <= MAX_PKT_SIZE + 3)
    && (|| (|packets| == 1 && ReadPacket(packets[0]) == Some((PACKET_SINGLE, params)))
        || (|packets| == 2 && exists a, b ::
              && params == a + b
              && ReadPacket(packets[0]) == Some((PACKET_START, a)) && ReadPacket(packets[1]) == Some((PACKET_END, b))))
  }

  /** A request and, after a START packet, its continuation: at most two packets carry the whole response. */
  method Respond(c: Control, transaction: nat, ids: seq<nat>) returns (packets: seq<seq<byte>>, params: seq<byte>)
    requires c.Valid() && transaction < 16
    modifies c
    ensures c.Valid() && c.texts == old(c.texts)
    ensures Carries(packets, params) && params == Response(c.texts, ids)
  {
    ResponseReads(c.texts, ids);
    hide Response, Carries, HeaderBytes, TextsOk;
    ghost var body := Response(c.texts, ids);
    var p := c.SendMetaData(transaction, ids);
    packets, params := Collect(c, transaction, p, body);
  }

  /** The controller asks for the rest after a START packet. */
  method Collect(c: Control, transaction: nat, p: seq<byte>, ghost body: seq<byte>)
    returns (packets: seq<seq<byte>>, params: seq<byte>)
    requires c.Valid() && transaction < 16 && |body| <= 770
    requires if |body| <= 502 then p == HeaderBytes(transaction, PACKET_SINGLE, |body|) + body
             else p == HeaderBytes(transaction, PACKET_START, 502) + body[..502] && c.remaining == body[502..]
    modifies c
    ensures c.Valid() && c.texts == old(c.texts) && params == body
    ensures Carries(packets, params)
  {
    var single := p[10] == PACKET_SINGLE;
    assert single <==> |body| <= 502;
    hide HeaderBytes, ReadPacket, TextsOk;
    packets := [p];
    if single {
      PacketReads(transaction, PACKET_SINGLE, body);
      params := p[13..];
    } else {
      PacketReads(transaction, PACKET_START, body[..502]);
      PacketReads(transaction, PACKET_END, body[502..]);
      var q := c.SendContinue(transaction);
      packets := [p, q];
      params := p[13..] + q[13..];
      assert body[..502] + body[502..] == body;
    }
  }

  /**
   A controller reads the count and the fields asked for from the parameters exactly when the count is
   theirs (no attribute asked for twice or unknown) and all texts but the last are non-empty.
   */
  lemma ResponseReads(texts: seq<seq<byte>>, ids: seq<nat>)
    requires TextsOk(texts)
    ensures var fs, params := Selected(texts, Mask(ids), 0), Response(texts, ids);
            && 1 <= |params| <= 770 && params[0] == Count(ids)
            && (ParseFields(params[1..], params[0]) == Some(fs) <==> Count(ids) == |fs| && AllButLastFull(fs))
  {
    hide Selected, Mask, Count, Metadata, ParseFields, AllButLastFull, FieldOk;
    var fs, count := Selected(texts, Mask(ids), 0), Count(ids);
    forall i | 0 <= i < |fs| ensures FieldOk(fs[i]) && fs[i].id != 0 { SelectedOk(texts, Mask(ids), 0, i); }
    ResponseSize(texts, ids);
    MetadataParses(fs, count);
    assert Response(texts, ids)[1..] == Metadata(fs, count);
  }
}
