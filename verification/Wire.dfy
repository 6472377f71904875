/** The ITCH 5.0 wire format: big-endian readers and decoders of include/hft/itch50.hpp, the
    message builder of scripts/gen_itch50_oracle.py, and the packet encoder and the adapter of
    include/hft/itch_adapter.hpp. */
module Wire {
  import opened Framing
  import opened Itch
  import opened Engine
  import Tr = Translation

  // ---- Big-endian integers ----

  type u48 = n: nat | n < 0x1_0000_0000_0000

  function Be16(b: seq<byte>, i: nat): u16
    requires i + 2 <= |b|
  {
    (b[i] as nat) * 0x100 + b[i + 1]
  }

  function Be32(b: seq<byte>, i: nat): u32
    requires i + 4 <= |b|
  {
    (Be16(b, i) as nat) * 0x1_0000 + Be16(b, i + 2)
  }

  function Be48(b: seq<byte>, i: nat): u48
    requires i + 6 <= |b|
  {
    (Be16(b, i) as nat) * 0x1_0000_0000 + Be32(b, i + 2)
  }

  function Be64(b: seq<byte>, i: nat): u64
    requires i + 8 <= |b|
  {
    (Be32(b, i) as nat) * 0x1_0000_0000 + Be32(b, i + 4)
  }

  /** The base-256 value of some bytes, most significant first. */
  function Value(bs: seq<byte>): nat {
    if bs == [] then 0 else Value(bs[..|bs| - 1]) * 256 + bs[|bs| - 1]
  }

  function Power(w: nat): nat {
    if w == 0 then 1 else 256 * Power(w - 1)
  }

  /** The big-endian bytes of the low w bytes of a value. */
  function Bytes(v: nat, w: nat): (bs: seq<byte>)
    ensures |bs| == w
  {
    if w == 0 then [] else Bytes(v / 256, w - 1) + [v % 256]
  }

  lemma ValueTwo(b: seq<byte>, i: nat)
    requires i + 2 <= |b|
    ensures Be16(b, i) == Value(b[i..i + 2])
  {
    var s := b[i..i + 2];
    assert s[..1] == [b[i]] && [b[i]][..0] == [];
    assert Value([b[i]]) == b[i];
  }

  lemma Scale(v: nat, p: nat, w: nat)
    ensures (v * p + w) * 256 == v * (256 * p) + w * 256
  {
  }

  lemma {:induction false} ValueConcat(x: seq<byte>, y: seq<byte>)
    ensures Value(x + y) == Value(x) * Power(|y|) + Value(y)
  {
    if y == [] {
      assert x + y == x;
    } else {
      var init, last := y[..|y| - 1], y[|y| - 1];
      assert (x + y)[..|x + y| - 1] == x + init;
      ValueConcat(x, init);
      Scale(Value(x), Power(|init|), Value(init));
      assert Power(|y|) == 256 * Power(|init|);
      assert Value(y) == Value(init) * 256 + last;
    }
  }

  lemma Powers()
    ensures Power(2) == 0x1_0000 && Power(4) == 0x1_0000_0000
    ensures Power(6) == 0x1_0000_0000_0000 && Power(8) == 0x1_0000_0000_0000_0000
  {
    assert Power(1) == 256 && Power(3) == 0x100_0000 && Power(5) == 0x100_0000_0000 && Power(7) == 0x100_0000_0000_0000;
  }

  lemma ValueFour(b: seq<byte>, i: nat)
    requires i + 4 <= |b|
    ensures Be32(b, i) == Value(b[i..i + 4])
  {
    ValueTwo(b, i);
    ValueTwo(b, i + 2);
    assert b[i..i + 4] == b[i..i + 2] + b[i + 2..i + 4];
    ValueConcat(b[i..i + 2], b[i + 2..i + 4]);
    Powers();
  }

  /** The nested readers are the base-256 positional value of the bytes they cover. */
  lemma ReadersArePositional(b: seq<byte>, i: nat)
    ensures i + 2 <= |b| ==> Be16(b, i) == Value(b[i..i + 2])
    ensures i + 4 <= |b| ==> Be32(b, i) == Value(b[i..i + 4])
    ensures i + 6 <= |b| ==> Be48(b, i) == Value(b[i..i + 6])
    ensures i + 8 <= |b| ==> Be64(b, i) == Value(b[i..i + 8])
  {
    if i + 2 <= |b| { ValueTwo(b, i); }
    if i + 4 <= |b| { ValueFour(b, i); }
    if i + 6 <= |b| { ValueSix(b, i); }
    if i + 8 <= |b| { ValueEight(b, i); }
  }

  lemma ValueSix(b: seq<byte>, i: nat)
    requires i + 6 <= |b|
    ensures Be48(b, i) == Value(b[i..i + 6])
  {
    ValueTwo(b, i);
    ValueFour(b, i + 2);
    assert b[i..i + 6] == b[i..i + 2] + b[i + 2..i + 6];
    ValueConcat(b[i..i + 2], b[i + 2..i + 6]);
    Powers();
  }

  lemma ValueEight(b: seq<byte>, i: nat)
    requires i + 8 <= |b|
    ensures Be64(b, i) == Value(b[i..i + 8])
  {
    ValueFour(b, i);
    ValueFour(b, i + 4);
    assert b[i..i + 8] == b[i..i + 4] + b[i + 4..i + 8];
    ValueConcat(b[i..i + 4], b[i + 4..i + 8]);
    Powers();
  }

  lemma DivBelow(v: nat, p: nat)
    requires v < 256 * p
    ensures v / 256 < p
  {
  }

  /** Encoding and reading are inverse, in both directions. */
  lemma {:induction false} ValueOfBytes(v: nat, w: nat)
    requires v < Power(w)
    ensures Value(Bytes(v, w)) == v
    decreases w
  {
    if w > 0 {
      DivBelow(v, Power(w - 1));
      ValueOfBytes(v / 256, w - 1);
      var bs := Bytes(v, w);
      assert bs[..w - 1] == Bytes(v / 256, w - 1);
    }
  }

  lemma {:induction false} BytesOfValue(bs: seq<byte>)
    ensures Bytes(Value(bs), |bs|) == bs
  {
    if bs != [] {
      var init, last := bs[..|bs| - 1], bs[|bs| - 1];
      BytesOfValue(init);
      assert Value(bs) / 256 == Value(init) && Value(bs) % 256 == last;
    }
  }

  /** A reader over a stored field gives the field back. */
  lemma ReadField(b: seq<byte>, i: nat, v: nat, w: nat)
    requires i + w <= |b| && b[i..i + w] == Bytes(v, w) && v < Power(w)
    ensures w == 2 ==> Be16(b, i) == v
    ensures w == 4 ==> Be32(b, i) == v
    ensures w == 6 ==> Be48(b, i) == v
    ensures w == 8 ==> Be64(b, i) == v
  {
    ReadersArePositional(b, i);
    ValueOfBytes(v, w);
  }

  // ---- Decoders ----

  const TYPE_A: byte := 65
  const TYPE_C: byte := 67
  const TYPE_D: byte := 68
  const TYPE_E: byte := 69
  const TYPE_F: byte := 70
  const TYPE_U: byte := 85
  const TYPE_X: byte := 88

  datatype Decoded = BookEvent(ev: Event) | Malformed | Ignored

  /** The decoders by message type: a book message that is long enough, one that is too short,
      or a message that is not about the book. */
  function Decode(b: seq<byte>): Decoded {
    if b == [] then Ignored
    else if b[0] == TYPE_A || b[0] == TYPE_F then
      if |b| < (if b[0] == TYPE_A then 36 else 40) then Malformed
      else BookEvent(Add(Be64(b, 11), b[19] as char, Be32(b, 32), Be32(b, 20)))
    else if b[0] == TYPE_E || b[0] == TYPE_C then
      if |b| < (if b[0] == TYPE_E then 31 else 36) then Malformed
      else BookEvent(Reduce(Be64(b, 11), Be32(b, 19), true))
    else if b[0] == TYPE_X then
      if |b| < 23 then Malformed else BookEvent(Reduce(Be64(b, 11), Be32(b, 19), false))
    else if b[0] == TYPE_D then
      if |b| < 19 then Malformed else BookEvent(Delete(Be64(b, 11)))
    else if b[0] == TYPE_U then
      if |b| < 35 then Malformed else BookEvent(Replace(Be64(b, 11), Be64(b, 19), Be32(b, 27), Be32(b, 31)))
    else Ignored
  }

  /** The seven message types that are about the book, and their lengths in section 4. */
  predicate BookType(t: byte) {
    t as char in "AFECXDU"
  }

  function Length(t: byte): nat {
    match t as char
    case 'A' => 36
    case 'F' => 40
    case 'E' => 31
    case 'C' => 36
    case 'X' => 23
    case 'D' => 19
    case 'U' => 35
    case _ => 0
  }

  /** A book message that ends before its length. */
  predicate Short(b: seq<byte>) {
    b != [] && BookType(b[0]) && |b| < Length(b[0])
  }

  /** Exactly the messages of other types are ignored and exactly the short book messages are
      malformed. */
  lemma DecodeIff(b: seq<byte>)
    ensures Decode(b).Ignored? <==> b == [] || !BookType(b[0])
    ensures Decode(b).Malformed? <==> Short(b)
    ensures Decode(b).BookEvent? <==> b != [] && BookType(b[0]) && |b| >= Length(b[0])
  {
    hide Be64, Be32;
  }

  /** Of a longer message only the bytes within the length are read. */
  lemma DecodeWithin(b: seq<byte>)
    requires b != [] && BookType(b[0]) && |b| >= Length(b[0])
    ensures Decode(b[..Length(b[0])]) == Decode(b)
  {
    var c := b[..Length(b[0])];
    hide Be64, Be32;
    forall i: nat | i + 8 <= |c| ensures Be64(c, i) == Be64(b, i) {
      SameRead(b, |c|, i);
    }
    forall i: nat | i + 4 <= |c| ensures Be32(c, i) == Be32(b, i) {
      SameRead(b, |c|, i);
    }
  }

  lemma SameRead(b: seq<byte>, n: nat, i: nat)
    requires n <= |b|
    ensures i + 4 <= n ==> Be32(b[..n], i) == Be32(b, i)
    ensures i + 8 <= n ==> Be64(b[..n], i) == Be64(b, i)
  {
  }

  // ---- The builder ----

  datatype Header = Header(locate: u16, tracking: u16, ts: u48)

  /** The fields the book does not need: symbol, attribution, match number, printable flag and
      execution price; and which of two message types carries the event. */
  datatype Extras = Extras(stock: seq<byte>, mpid: seq<byte>, matchNo: u64, printable: byte, execPrice: u32, long: bool)

  predicate ValidExtras(x: Extras) {
    |x.stock| == 8 && |x.mpid| == 4
  }

  /** ts_split and build: type, locate, tracking, and the timestamp as 16 and 32 bits. */
  function Head(t: byte, h: Header): (bs: seq<byte>)
    ensures |bs| == 11
  {
    [t] + Bytes(h.locate, 2) + Bytes(h.tracking, 2) + Bytes(h.ts / 0x1_0000_0000, 2) + Bytes(h.ts % 0x1_0000_0000, 4)
  }

  ghost predicate WireEvent(e: Event) {
    e.Add? ==> e.side as int < 256
  }

  function Build(e: Event, h: Header, x: Extras): seq<byte>
    requires ValidExtras(x) && (e.Add? ==> e.side as int < 256)
  {
    match e
    case Add(ref, side, price, shares) =>
      Head(if x.long then TYPE_F else TYPE_A, h) + Bytes(ref, 8) + [side as int] + Bytes(shares, 4) + x.stock
          + Bytes(price, 4)
      + if x.long then x.mpid else []
    case Reduce(ref, shares, exec) =>
      if exec then
        Head(if x.long then TYPE_C else TYPE_E, h) + Bytes(ref, 8) + Bytes(shares, 4) + Bytes(x.matchNo, 8)
        + if x.long then [x.printable] + Bytes(x.execPrice, 4) else []
      else Head(TYPE_X, h) + Bytes(ref, 8) + Bytes(shares, 4)
    case Delete(ref) => Head(TYPE_D, h) + Bytes(ref, 8)
    case Replace(orig, nref, shares, price) =>
      Head(TYPE_U, h) + Bytes(orig, 8) + Bytes(nref, 8) + Bytes(shares, 4) + Bytes(price, 4)
  }

  /** A field between what comes before and after it. */
  lemma FieldAt(b: seq<byte>, pre: seq<byte>, v: nat, w: nat, post: seq<byte>)
    requires b == pre + Bytes(v, w) + post && v < Power(w)
    ensures |pre| + w <= |b| && b[|pre|..|pre| + w] == Bytes(v, w)
    ensures w == 2 ==> Be16(b, |pre|) == v
    ensures w == 4 ==> Be32(b, |pre|) == v
    ensures w == 6 ==> Be48(b, |pre|) == v
    ensures w == 8 ==> Be64(b, |pre|) == v
  {
    assert b[|pre|..|pre| + w] == Bytes(v, w);
    ReadField(b, |pre|, v, w);
  }

  lemma SliceAt(b: seq<byte>, pre: seq<byte>, mid: seq<byte>, post: seq<byte>)
    requires b == pre + mid + post
    ensures b[|pre|..|pre| + |mid|] == mid
  {
  }

  /** The parts of an add message at their offsets. */
  lemma AddParts(b: seq<byte>, head: seq<byte>, ref: seq<byte>, side: byte, shares: seq<byte>, stock: seq<byte>,
                 price: seq<byte>, tail: seq<byte>)
    requires |head| == 11 && |ref| == 8 && |shares| == 4 && |stock| == 8 && |price| == 4
    requires b == head + ref + [side] + shares + stock + price + tail
    ensures |b| == 36 + |tail| && b[0] == head[0] && b[19] == side
    ensures b[11..19] == ref && b[20..24] == shares && b[32..36] == price
  {
    var p1 := head + ref + [side];
    var p2 := p1 + shares + stock;
    assert b == head + ref + ([side] + shares + stock + price + tail);
    SliceAt(b, head, ref, [side] + shares + stock + price + tail);
    assert b == p1 + shares + (stock + price + tail);
    SliceAt(b, p1, shares, stock + price + tail);
    SliceAt(b, p2, price, tail);
  }

  lemma AddFields(b: seq<byte>, ref: u64, side: byte, shares: u32, price: u32)
    requires |b| >= 36 && (b[0] == TYPE_A || (b[0] == TYPE_F && |b| >= 40)) && b[19] == side
    requires b[11..19] == Bytes(ref, 8) && b[20..24] == Bytes(shares, 4) && b[32..36] == Bytes(price, 4)
    ensures Decode(b) == BookEvent(Add(ref, side as char, price, shares))
  {
    hide Bytes, Power, Be64, Be32;
    Powers();
    ReadField(b, 11, ref, 8);
    ReadField(b, 20, shares, 4);
    ReadField(b, 32, price, 4);
  }

  lemma BuildAdd(b: seq<byte>, e: Event, h: Header, x: Extras)
    requires ValidExtras(x) && e.Add? && e.side as int < 256 && b == Build(e, h, x)
    ensures Decode(b) == BookEvent(e)
  {
    hide Bytes, Decode;
    var t := if x.long then TYPE_F else TYPE_A;
    var head := Head(t, h);
    assert head[0] == t;
    var tail := if x.long then x.mpid else [];
    AddParts(b, head, Bytes(e.ref, 8), e.side as int, Bytes(e.shares, 4), x.stock, Bytes(e.price, 4), tail);
    AddFields(b, e.ref, e.side as int, e.shares, e.price);
  }

  lemma BuildReduce(b: seq<byte>, e: Event, h: Header, x: Extras)
    requires ValidExtras(x) && e.Reduce? && b == Build(e, h, x)
    ensures Decode(b) == BookEvent(e)
  {
    hide Bytes, Power, Be64, Be32;
    Powers();
    var head := Head(if !e.exec then TYPE_X else if x.long then TYPE_C else TYPE_E, h);
    var tail := if !e.exec then [] else Bytes(x.matchNo, 8) + if x.long then [x.printable] + Bytes(x.execPrice, 4)
        else [];
    assert b == head + Bytes(e.ref, 8) + (Bytes(e.shares, 4) + tail);
    assert b[0] == head[0];
    FieldAt(b, head, e.ref, 8, Bytes(e.shares, 4) + tail);
    var p1 := head + Bytes(e.ref, 8);
    assert b == p1 + Bytes(e.shares, 4) + tail;
    FieldAt(b, p1, e.shares, 4, tail);
  }

  lemma BuildOther(b: seq<byte>, e: Event, h: Header, x: Extras)
    requires ValidExtras(x) && (e.Delete? || e.Replace?) && b == Build(e, h, x)
    ensures Decode(b) == BookEvent(e)
  {
    hide Bytes, Power, Be64, Be32;
    Powers();
    if e.Delete? {
      var head := Head(TYPE_D, h);
      assert b[0] == head[0];
      assert b == head + Bytes(e.ref, 8) + [];
      FieldAt(b, head, e.ref, 8, []);
    } else {
      var head := Head(TYPE_U, h);
      assert b[0] == head[0];
      var p1 := head + Bytes(e.orig, 8);
      var p2 := p1 + Bytes(e.nref, 8);
      var p3 := p2 + Bytes(e.shares, 4);
      assert b == head + Bytes(e.orig, 8) + (Bytes(e.nref, 8) + Bytes(e.shares, 4) + Bytes(e.price, 4));
      FieldAt(b, head, e.orig, 8, Bytes(e.nref, 8) + Bytes(e.shares, 4) + Bytes(e.price, 4));
      assert b == p1 + Bytes(e.nref, 8) + (Bytes(e.shares, 4) + Bytes(e.price, 4));
      FieldAt(b, p1, e.nref, 8, Bytes(e.shares, 4) + Bytes(e.price, 4));
      FieldAt(b, p2, e.shares, 4, Bytes(e.price, 4));
      assert b == p3 + Bytes(e.price, 4) + [];
      FieldAt(b, p3, e.price, 4, []);
    }
  }

  /** Decoding what was built gives the event back, whatever header, message variant and
      unrelated fields carried it. */
  lemma DecodeBuild(e: Event, h: Header, x: Extras)
    requires ValidExtras(x) && WireEvent(e)
    ensures Decode(Build(e, h, x)) == BookEvent(e)
  {
    hide Build, Decode;
    match e
    case Add(_, _, _, _) => BuildAdd(Build(e, h, x), e, h, x);
    case Reduce(_, _, _) => BuildReduce(Build(e, h, x), e, h, x);
    case Delete(_) => BuildOther(Build(e, h, x), e, h, x);
    case Replace(_, _, _, _) => BuildOther(Build(e, h, x), e, h, x);
  }

  lemma HeadFields(b: seq<byte>, t: byte, h: Header, post: seq<byte>)
    requires b == Head(t, h) + post
    ensures |b| >= 11 && b[0] == t && Be16(b, 1) == h.locate && Be16(b, 3) == h.tracking && Be48(b, 5) == h.ts
  {
    hide Bytes, Power, Be16, Be32;
    Powers();
    var l, k, t1, t2 := Bytes(h.locate, 2), Bytes(h.tracking, 2), Bytes(h.ts / 0x1_0000_0000, 2),
        Bytes(h.ts % 0x1_0000_0000, 4);
    assert b == [t] + l + (k + t1 + t2 + post);
    FieldAt(b, [t], h.locate, 2, k + t1 + t2 + post);
    var p1 := [t] + l;
    assert b == p1 + k + (t1 + t2 + post);
    FieldAt(b, p1, h.tracking, 2, t1 + t2 + post);
    var p2 := p1 + k;
    assert b == p2 + t1 + (t2 + post);
    FieldAt(b, p2, h.ts / 0x1_0000_0000, 2, t2 + post);
    var p3 := p2 + t1;
    assert b == p3 + t2 + post;
    FieldAt(b, p3, h.ts % 0x1_0000_0000, 4, post);
  }

  lemma BuildHeader(e: Event, h: Header, x: Extras)
    requires ValidExtras(x) && WireEvent(e)
    ensures var b := Build(e, h, x);
            11 <= |b| < MAX_LEN && Be16(b, 1) == h.locate && Be16(b, 3) == h.tracking && Be48(b, 5) == h.ts
  {
    hide Head, Bytes, Be16, Be48;
    var b := Build(e, h, x);
    var t := match e
      case Add(_, _, _, _) => if x.long then TYPE_F else TYPE_A
      case Reduce(_, _, exec) => if !exec then TYPE_X else if x.long then TYPE_C else TYPE_E
      case Delete(_) => TYPE_D
      case Replace(_, _, _, _) => TYPE_U;
    assert b == Head(t, h) + b[11..];
    HeadFields(b, t, h, b[11..]);
  }

  /** A field written back from its reader. */
  lemma FieldBack(b: seq<byte>, i: nat)
    ensures i + 2 <= |b| ==> Bytes(Be16(b, i), 2) == b[i..i + 2]
    ensures i + 4 <= |b| ==> Bytes(Be32(b, i), 4) == b[i..i + 4]
    ensures i + 8 <= |b| ==> Bytes(Be64(b, i), 8) == b[i..i + 8]
  {
    hide Bytes, Be16, Be32, Be64;
    ReadersArePositional(b, i);
    if i + 2 <= |b| { BytesOfValue(b[i..i + 2]); }
    if i + 4 <= |b| { BytesOfValue(b[i..i + 4]); }
    if i + 8 <= |b| { BytesOfValue(b[i..i + 8]); }
  }

  /** The header some bytes carry. */
  function HeaderOf(b: seq<byte>): Header
    requires |b| >= 11
  {
    Header(Be16(b, 1), Be16(b, 3), Be48(b, 5))
  }

  lemma HeadBack(b: seq<byte>)
    requires |b| >= 11
    ensures b[..11] == Head(b[0], HeaderOf(b))
  {
    hide Bytes, Be16, Be32;
    FieldBack(b, 1);
    FieldBack(b, 3);
    FieldBack(b, 5);
    FieldBack(b, 7);
    assert Be48(b, 5) / 0x1_0000_0000 == Be16(b, 5) && Be48(b, 5) % 0x1_0000_0000 == Be32(b, 7);
    assert b[..11] == [b[0]] + b[1..3] + b[3..5] + b[5..7] + b[7..11];
  }

  /** The fields besides the event, as far as the message has them. */
  function ExtrasOf(b: seq<byte>): (x: Extras)
    requires |b| >= 19
    ensures ValidExtras(x)
  {
    var none: seq<byte> := [0, 0, 0, 0];
    Extras(
      if |b| >= 32 then b[24..32] else none + none,
      if |b| >= 40 then b[36..40] else none,
      if |b| >= 31 then Be64(b, 23) else 0,
      if |b| >= 36 then b[31] else 0,
      if |b| >= 36 then Be32(b, 32) else 0,
      b[0] as char in "FC")
  }

  lemma AddDecoded(b: seq<byte>)
    requires |b| >= 36 && (b[0] == TYPE_A || (b[0] == TYPE_F && |b| >= 40))
    ensures Decode(b) == BookEvent(Add(Be64(b, 11), b[19] as char, Be32(b, 32), Be32(b, 20)))
  {
    hide Be32, Be64;
  }

  lemma AddPieces(b: seq<byte>)
    requires |b| >= 36
    ensures b == b[..11] + b[11..19] + [b[19]] + b[20..24] + b[24..32] + b[32..36] + b[36..]
  {
  }

  lemma AddExtras(b: seq<byte>)
    requires (|b| == 36 && b[0] == TYPE_A) || (|b| == 40 && b[0] == TYPE_F)
    ensures var x := ExtrasOf(b); x.stock == b[24..32] && b[36..] == (if x.long then x.mpid else [])
    ensures b[0] == if ExtrasOf(b).long then TYPE_F else TYPE_A
  {
  }

  lemma AddBack(b: seq<byte>)
    requires (|b| == 36 && b[0] == TYPE_A) || (|b| == 40 && b[0] == TYPE_F)
    ensures Decode(b).BookEvent? && Decode(b).ev.Add? && WireEvent(Decode(b).ev)
    ensures Build(Decode(b).ev, HeaderOf(b), ExtrasOf(b)) == b
  {
    hide Head, Bytes, Be16, Be32, Be48, Be64, HeaderOf, ExtrasOf, Decode;
    AddDecoded(b);
    AddExtras(b);
    HeadBack(b);
    FieldBack(b, 11);
    FieldBack(b, 20);
    FieldBack(b, 32);
    AddPieces(b);
  }

  lemma CancelBack(b: seq<byte>)
    requires |b| == 23 && b[0] == TYPE_X
    ensures Decode(b).BookEvent? && Build(Decode(b).ev, HeaderOf(b), ExtrasOf(b)) == b
  {
    hide Head, Bytes, Be16, Be32, Be48, Be64, HeaderOf;
    HeadBack(b);
    FieldBack(b, 11);
    FieldBack(b, 19);
    hide ExtrasOf;
    assert b == b[..11] + b[11..19] + b[19..23];
  }

  lemma ExecDecoded(b: seq<byte>)
    requires (|b| == 31 && b[0] == TYPE_E) || (|b| == 36 && b[0] == TYPE_C)
    ensures Decode(b) == BookEvent(Reduce(Be64(b, 11), Be32(b, 19), true))
    ensures var x := ExtrasOf(b);
            && x.matchNo == Be64(b, 23) && b[0] == (if x.long then TYPE_C else TYPE_E)
            && (x.long ==> x.printable == b[31] && x.execPrice == Be32(b, 32))
  {
    hide Be32, Be64;
  }

  lemma ExecPieces(b: seq<byte>)
    requires |b| >= 31
    ensures b == b[..11] + b[11..19] + b[19..23] + b[23..31] + b[31..]
    ensures |b| == 36 ==> b[31..] == [b[31]] + b[32..36]
  {
  }

  lemma ExecBack(b: seq<byte>)
    requires (|b| == 31 && b[0] == TYPE_E) || (|b| == 36 && b[0] == TYPE_C)
    ensures Decode(b).BookEvent? && Build(Decode(b).ev, HeaderOf(b), ExtrasOf(b)) == b
  {
    hide Head, Bytes, Be16, Be32, Be48, Be64, HeaderOf, ExtrasOf, Decode;
    ExecDecoded(b);
    HeadBack(b);
    FieldBack(b, 11);
    FieldBack(b, 19);
    FieldBack(b, 23);
    FieldBack(b, 32);
    ExecPieces(b);
  }

  lemma DeleteBack(b: seq<byte>)
    requires b != [] && b[0] as char == 'D' && |b| == Length(b[0])
    ensures Decode(b).BookEvent? && Build(Decode(b).ev, HeaderOf(b), ExtrasOf(b)) == b
  {
    hide Head, Bytes, Be16, Be32, Be48, Be64, HeaderOf;
    HeadBack(b);
    FieldBack(b, 11);
    assert b == b[..11] + b[11..19];
  }

  lemma ReplaceBack(b: seq<byte>)
    requires b != [] && b[0] as char == 'U' && |b| == Length(b[0])
    ensures Decode(b).BookEvent? && Build(Decode(b).ev, HeaderOf(b), ExtrasOf(b)) == b
  {
    hide Head, Bytes, Be16, Be32, Be48, Be64, HeaderOf;
    HeadBack(b);
    FieldBack(b, 11);
    FieldBack(b, 19);
    FieldBack(b, 27);
    FieldBack(b, 31);
    hide ExtrasOf;
    assert b == b[..11] + b[11..19] + b[19..27] + b[27..31] + b[31..35];
  }

  /** Every book message of its exact length is the one built from what it decodes to: with
      DecodeBuild, decoding and building are inverse in both directions. */
  lemma BuildDecode(b: seq<byte>)
    requires b != [] && BookType(b[0]) && |b| == Length(b[0])
    ensures Decode(b).BookEvent? && WireEvent(Decode(b).ev)
    ensures Build(Decode(b).ev, HeaderOf(b), ExtrasOf(b)) == b
  {
    hide Build, Be16, Be32, Be48, Be64, HeaderOf, ExtrasOf;
    if b[0] as char in "AF" {
      AddBack(b);
    } else if b[0] as char in "EC" {
      ExecBack(b);
    } else if b[0] as char == 'X' {
      CancelBack(b);
    } else if b[0] as char == 'D' {
      DeleteBack(b);
    } else {
      ReplaceBack(b);
    }
  }

  /** A frame is the message after its length in two big-endian bytes. */
  lemma FramesAreBigEndian(m: seq<byte>, bs: seq<byte>)
    requires |m| < MAX_LEN
    ensures Frame(m) == Bytes(|m|, 2) + m
    ensures |bs| >= 2 ==> Declared(bs) == Be16(bs, 0)
  {
    TwoBytes(|m|);
  }

  lemma OneByte(v: nat)
    requires v < 256
    ensures Bytes(v, 1) == [v]
  {
    assert Bytes(v / 256, 0) == [] && v % 256 == v;
  }

  lemma TwoBytes(v: nat)
    requires v < MAX_LEN
    ensures Bytes(v, 2) == [v / 256, v % 256]
  {
    OneByte(v / 256);
    assert Bytes(v, 2) == Bytes(v / 256, 1) + [v % 256];
  }

  // ---- The packet encoder ----

  /** The buffer with these bytes at an offset. */
  function Stored(x: seq<byte>, off: nat, bs: seq<byte>): (y: seq<byte>)
    requires off + |bs| <= |x|
    ensures |y| == |x|
  {
    x[..off] + bs + x[off + |bs|..]
  }

  lemma StoredAt(x: seq<byte>, off: nat, bs: seq<byte>)
    requires off + |bs| <= |x|
    ensures Stored(x, off, bs)[off..off + |bs|] == bs
  {
  }

  lemma StoredElsewhere(x: seq<byte>, off: nat, bs: seq<byte>, i: nat, j: nat)
    requires off + |bs| <= |x| && i <= j <= |x| && (j <= off || off + |bs| <= i)
    ensures Stored(x, off, bs)[i..j] == x[i..j]
  {
  }

  /** memcpy into a buffer. */
  method Store(a: array<byte>, off: nat, bs: seq<byte>)
    requires off + |bs| <= a.Length
    modifies a
    ensures a[..] == Stored(old(a[..]), off, bs)
  {
    for k := 0 to |bs|
      invariant forall i :: off <= i < off + k ==> a[i] == bs[i - off]
      invariant forall i :: 0 <= i < off || off + k <= i < a.Length ==> a[i] == old(a[i])
    {
      a[off + k] := bs[k];
    }
  }

  /** The first eight characters of the padded symbol. */
  const TEST: seq<byte> := [84, 69, 83, 84, 32, 32, 32, 32]

  /** The extras of a message without attribution, for a symbol. */
  function Plain(stock: seq<byte>): Extras {
    Extras(stock, [0, 0, 0, 0], 0, 0, 0, false)
  }

  /** The body is the builder's: an order message without attribution, a header of zeros and the
      symbol TEST. */
  method MakeAddMessage(ref: u64, side: byte, shares: u32, price: u32) returns (itch: array<byte>)
    ensures fresh(itch) && itch.Length == 36
    ensures itch[..] == Build(Add(ref, side as char, price, shares), Header(0, 0, 0), Plain(TEST))
  {
    hide Bytes, Build, Stored;
    itch := new byte[36](_ => 0);
    itch[0] := TYPE_A;
    ghost var b0 := itch[..];
    Store(itch, 11, Bytes(ref, 8));
    ghost var b1 := itch[..];
    itch[19] := side;
    ghost var b2 := itch[..];
    Store(itch, 20, Bytes(shares, 4));
    ghost var b3 := itch[..];
    Store(itch, 24, TEST);
    ghost var b4 := itch[..];
    Store(itch, 32, Bytes(price, 4));
    AddStored(b0, b1, b2, b3, b4, itch[..], ref, side, shares, price);
  }

  lemma ZeroHead(b: seq<byte>)
    requires |b| == 11 && b[0] == TYPE_A && forall i :: 1 <= i < 11 ==> b[i] == 0
    ensures b == Head(TYPE_A, Header(0, 0, 0))
  {
    ZeroBytes(2);
    ZeroBytes(4);
  }

  lemma {:induction false} ZeroBytes(w: nat)
    ensures forall i :: 0 <= i < w ==> Bytes(0, w)[i] == 0
  {
    if w > 0 {
      ZeroBytes(w - 1);
    }
  }

  lemma AddStored(b0: seq<byte>, b1: seq<byte>, b2: seq<byte>, b3: seq<byte>, b4: seq<byte>, b: seq<byte>,
                  ref: u64, side: byte, shares: u32, price: u32)
    requires |b0| == 36 && b0[0] == TYPE_A && (forall i :: 1 <= i < 36 ==> b0[i] == 0)
    requires b1 == Stored(b0, 11, Bytes(ref, 8)) && b2 == b1[19 := side]
    requires b3 == Stored(b2, 20, Bytes(shares, 4)) && b4 == Stored(b3, 24, TEST)
             && b == Stored(b4, 32, Bytes(price, 4))
    ensures b == Build(Add(ref, side as char, price, shares), Header(0, 0, 0), Plain(TEST))
  {
    hide Bytes, Head;
    assert b[19] == b4[19] == b3[19] == b2[19] == side;
    hide Stored;
    StoredElsewhere(b0, 11, Bytes(ref, 8), 0, 11);
    StoredAt(b0, 11, Bytes(ref, 8));
    assert b2[..11] == b1[..11] && b2[11..19] == b1[11..19];
    StoredElsewhere(b2, 20, Bytes(shares, 4), 0, 11);
    StoredElsewhere(b3, 24, TEST, 0, 11);
    StoredElsewhere(b4, 32, Bytes(price, 4), 0, 11);
    StoredElsewhere(b2, 20, Bytes(shares, 4), 11, 19);
    StoredElsewhere(b3, 24, TEST, 11, 19);
    StoredElsewhere(b4, 32, Bytes(price, 4), 11, 19);
    StoredAt(b2, 20, Bytes(shares, 4));
    StoredElsewhere(b3, 24, TEST, 20, 24);
    StoredElsewhere(b4, 32, Bytes(price, 4), 20, 24);
    StoredAt(b3, 24, TEST);
    StoredElsewhere(b4, 32, Bytes(price, 4), 24, 32);
    StoredAt(b4, 32, Bytes(price, 4));
    assert b[0..11] == b0[0..11];
    ZeroHead(b[0..11]);
    assert b == b[0..11] + b[11..19] + [b[19]] + b[20..24] + b[24..32] + b[32..36];
  }

  /** make_mold_add_packet, byte for byte: ten spaces for the session, the sequence number, a
      count of one, and one framed message, which decodes to the fields it was made from. */
  method MakeMoldAddPacket(seqNum: u64, ref: u64, side: byte, shares: u32, price: u32) returns (pkt: array<byte>)
    ensures fresh(pkt) && pkt.Length == 58
    ensures var body := Build(Add(ref, side as char, price, shares), Header(0, 0, 0), Plain(TEST));
            pkt[..] == seq(10, _ => 32) + Bytes(seqNum, 8) + Bytes(1, 2) + Bytes(36, 2) + body
    ensures Spells(pkt[..], 0, "          ") && Spells(pkt[..], 46, "TEST    ")
    ensures Be64(pkt[..], 10) == seqNum && Be16(pkt[..], 18) == 1 && Be16(pkt[..], 20) == 36
    ensures Decode(pkt[22..]) == BookEvent(Add(ref, side as char, price, shares))
  {
    hide Bytes, Decode, Be64, Be16, Stored, Build, Spells;
    var itch := MakeAddMessage(ref, side, shares, price);
    pkt := new byte[58](_ => 0);
    ghost var z := pkt[..];
    Store(pkt, 0, seq(10, _ => 32));
    ghost var b0 := pkt[..];
    Store(pkt, 10, Bytes(seqNum, 8));
    Store(pkt, 18, Bytes(1, 2));
    Store(pkt, 20, Bytes(36, 2));
    Store(pkt, 22, itch[..]);
    StoredAt(z, 0, seq(10, _ => 32));
    PacketStored(b0, pkt[..], seqNum, itch[..]);
    assert pkt[22..] == pkt[..][22..];
    DecodeBuild(Add(ref, side as char, price, shares), Header(0, 0, 0), Plain(TEST));
    SymbolAt(itch[..], Add(ref, side as char, price, shares), Header(0, 0, 0), Plain(TEST));
    PacketSpells(pkt[..], seq(10, _ => 32), itch[..]);
  }

  /** The bytes at an offset are the characters of a text. */
  predicate Spells(b: seq<byte>, off: nat, text: string) {
    off + |text| <= |b| && forall i :: 0 <= i < |text| ==> b[off + i] as char == text[i]
  }

  lemma SpellsAt(b: seq<byte>, off: nat, bs: seq<byte>, text: string)
    requires off + |bs| <= |b| && b[off..off + |bs|] == bs && |bs| == |text| && Spells(bs, 0, text)
    ensures Spells(b, off, text)
  {
    forall i | 0 <= i < |text| ensures b[off + i] as char == text[i] {
      assert bs[0 + i] == b[off..off + |bs|][i] == b[off + i];
    }
  }

  lemma PacketSpells(b: seq<byte>, spaces: seq<byte>, body: seq<byte>)
    requires |b| == 58 && b[0..10] == spaces && spaces == seq(10, _ => 32)
    requires |body| == 36 && b[22..] == body && body[24..32] == TEST
    ensures Spells(b, 0, "          ") && Spells(b, 46, "TEST    ")
  {
    assert Spells(spaces, 0, "          ") && Spells(TEST, 0, "TEST    ");
    SpellsAt(b, 0, spaces, "          ");
    assert b[46..54] == b[22..][24..32];
    SpellsAt(b, 46, TEST, "TEST    ");
  }

  lemma SymbolAt(b: seq<byte>, e: Event, h: Header, x: Extras)
    requires ValidExtras(x) && e.Add? && e.side as int < 256 && !x.long && b == Build(e, h, x)
    ensures |b| == 36 && b[24..32] == x.stock
  {
    hide Bytes, Head;
    var pre := Head(TYPE_A, h) + Bytes(e.ref, 8) + [e.side as int] + Bytes(e.shares, 4);
    assert b == pre + x.stock + Bytes(e.price, 4);
    SliceAt(b, pre, x.stock, Bytes(e.price, 4));
  }

  lemma PacketStored(b0: seq<byte>, b: seq<byte>, seqNum: u64, body: seq<byte>)
    requires |b0| == 58 && |body| == 36
    requires b == Stored(Stored(Stored(Stored(b0, 10, Bytes(seqNum, 8)), 18, Bytes(1, 2)), 20, Bytes(36, 2)), 22, body)
    ensures |b| == 58 && Be64(b, 10) == seqNum && Be16(b, 18) == 1 && Be16(b, 20) == 36 && b[22..] == body
    ensures b[0..10] == b0[0..10] && b == b0[0..10] + Bytes(seqNum, 8) + Bytes(1, 2) + Bytes(36, 2) + body
  {
    hide Bytes, Be64, Be16, Stored;
    var b1 := Stored(b0, 10, Bytes(seqNum, 8));
    var b2 := Stored(b1, 18, Bytes(1, 2));
    var b3 := Stored(b2, 20, Bytes(36, 2));
    StoredElsewhere(b0, 10, Bytes(seqNum, 8), 0, 10);
    StoredElsewhere(b1, 18, Bytes(1, 2), 0, 10);
    StoredElsewhere(b2, 20, Bytes(36, 2), 0, 10);
    StoredElsewhere(b3, 22, body, 0, 10);
    StoredAt(b0, 10, Bytes(seqNum, 8));
    StoredElsewhere(b1, 18, Bytes(1, 2), 10, 18);
    StoredElsewhere(b2, 20, Bytes(36, 2), 10, 18);
    StoredElsewhere(b3, 22, body, 10, 18);
    StoredAt(b1, 18, Bytes(1, 2));
    StoredElsewhere(b2, 20, Bytes(36, 2), 18, 20);
    StoredElsewhere(b3, 22, body, 18, 20);
    StoredAt(b2, 20, Bytes(36, 2));
    StoredElsewhere(b3, 22, body, 20, 22);
    StoredAt(b3, 22, body);
    assert b[22..] == b[22..58];
    assert b == b[0..10] + b[10..18] + b[18..20] + b[20..22] + b[22..58];
    Powers();
    ReadField(b, 10, seqNum, 8);
    ReadField(b, 18, 1, 2);
    ReadField(b, 20, 36, 2);
  }

  // ---- The adapter ----

  /** The feed's sequence number replaces the translator's own. */
  function Restamp(ms: seq<Msg>, n: nat): seq<Msg> {
    seq(|ms|, i requires 0 <= i < |ms| => ms[i].(seqNum := n))
  }

  lemma RestampCons(ms: seq<Msg>, n: nat)
    requires ms != []
    ensures Restamp(ms, n) != [] && Restamp(ms, n)[0] == ms[0].(seqNum := n)
            && Restamp(ms, n)[1..] == Restamp(ms[1..], n)
  {
  }

  /** The engine does not look at sequence numbers. */
  lemma {:induction false} RestampFeeds(b: Book, ms: seq<Msg>, n: nat)
    ensures Feed(b, Restamp(ms, n)) == Feed(b, ms)
    decreases ms
  {
    hide Process, Restamp;
    if ms == [] {
      assert Restamp(ms, n) == [] by { RestampNone(n); }
    } else {
      RestampCons(ms, n);
      StampIgnored(b, ms[0], n);
      RestampFeeds(Process(b, ms[0]).0, ms[1..], n);
    }
  }

  lemma RestampNone(n: nat)
    ensures Restamp([], n) == []
  {
  }

  class ItchAdapter {
    const tr: Tr.Translator
    var parseErrors: nat
    /** Everything handed to the callback, in order. */
    var delivered: seq<Msg>

    constructor ()
      ensures fresh(tr) && tr.View() == Tr.EMPTY && parseErrors == 0 && delivered == []
    {
      tr := new Tr.Translator();
      parseErrors, delivered := 0, [];
    }

    /** A book message goes through the translator and out with the feed's sequence number; a
        short one counts as a parse error and changes nothing else; others do nothing. */
    method OnMoldMessage(b: seq<byte>, seqNum: nat)
      modifies this, tr
      ensures Decode(b).BookEvent? ==>
                && tr.View() == Tr.Step(old(tr.View()), Decode(b).ev)
                && delivered == old(delivered) + Restamp(Tr.Emit(old(tr.orders), old(tr.seqNum), Decode(b).ev), seqNum)
      ensures !Decode(b).BookEvent? ==> tr.View() == old(tr.View()) && delivered == old(delivered)
      ensures Decode(b).BookEvent? <==> b != [] && BookType(b[0]) && |b| >= Length(b[0])
      ensures parseErrors == old(parseErrors) + if Short(b) then 1 else 0
    {
      hide Tr.Step, Tr.Emit, Be64, Be32, BookType, Length, Short;
      DecodeIff(b);
      if |b| == 0 {
        return;
      }
      var out: seq<Msg>;
      if b[0] == TYPE_A || b[0] == TYPE_F {
        if |b| < (if b[0] == TYPE_A then 36 else 40) {
          parseErrors := parseErrors + 1;
          return;
        }
        out := tr.OnAdd(Be64(b, 11), b[19] as char, Be32(b, 32), Be32(b, 20));
      } else if b[0] == TYPE_E || b[0] == TYPE_C {
        if |b| < (if b[0] == TYPE_E then 31 else 36) {
          parseErrors := parseErrors + 1;
          return;
        }
        out := tr.OnReduce(Be64(b, 11), Be32(b, 19), true);
      } else if b[0] == TYPE_X {
        if |b| < 23 {
          parseErrors := parseErrors + 1;
          return;
        }
        out := tr.OnReduce(Be64(b, 11), Be32(b, 19), false);
      } else if b[0] == TYPE_D {
        if |b| < 19 {
          parseErrors := parseErrors + 1;
          return;
        }
        out := tr.OnDelete(Be64(b, 11));
      } else if b[0] == TYPE_U {
        if |b| < 35 {
          parseErrors := parseErrors + 1;
          return;
        }
        out := tr.OnReplace(Be64(b, 11), Be64(b, 19), Be32(b, 27), Be32(b, 31));
      } else {
        return;
      }
      delivered := delivered + Restamp(out, seqNum);
    }
  }

  /** What the adapter hands out for a run of packets, and the events in them. */
  datatype Packet = Packet(body: seq<byte>, seqNum: nat)

  function Delivered(s: Tr.State, ps: seq<Packet>): seq<Msg>
    decreases ps
  {
    if ps == [] then []
    else match Decode(ps[0].body)
      case BookEvent(e) => Restamp(Tr.Emit(s.orders, s.seqNum, e), ps[0].seqNum) + Delivered(Tr.Step(s, e), ps[1..])
      case _ => Delivered(s, ps[1..])
  }

  function PacketEvents(ps: seq<Packet>): seq<Event> {
    if ps == [] then []
    else match Decode(ps[0].body)
      case BookEvent(e) => [e] + PacketEvents(ps[1..])
      case _ => PacketEvents(ps[1..])
  }

  /** For every run of packets the live path gives the engine the same book and the same
      reports as the replay path gives it for the events they carry. */
  lemma {:induction false} LivePathIsReplayPath(b: Book, s: Tr.State, ps: seq<Packet>)
    ensures Feed(b, Delivered(s, ps)) == Feed(b, Tr.EmitAll(s, PacketEvents(ps)))
    decreases ps
  {
    hide Decode, Tr.Emit, Tr.Step, Feed, Restamp;
    if ps != [] {
      var p := ps[0];
      if Decode(p.body).BookEvent? {
        var e := Decode(p.body).ev;
        var ms, s' := Tr.Emit(s.orders, s.seqNum, e), Tr.Step(s, e);
        RestampFeeds(b, ms, p.seqNum);
        FeedAppend(b, Restamp(ms, p.seqNum), Delivered(s', ps[1..]));
        FeedAppend(b, ms, Tr.EmitAll(s', PacketEvents(ps[1..])));
        assert PacketEvents(ps)[1..] == PacketEvents(ps[1..]);
        LivePathIsReplayPath(Feed(b, ms).0, s', ps[1..]);
      } else {
        LivePathIsReplayPath(b, s, ps[1..]);
      }
    }
  }
}
