/** A whole file: the selection of one symbol's book messages in the loop of
    tools/replay_itch50.cpp, and the files scripts/gen_itch50_oracle.py writes, in which the
    symbols are interleaved with each other and with messages that are not about the book. */
module DayFile {
  import opened Framing
  import opened Itch
  import opened Options
  import opened Wire
  import R = Replay
  import G = Generator
  import Ref = ReferenceBook
  import Replication

  // ---- The selection ----

  const TYPE_R: byte := 82
  const DIRECTORY_LENGTH := 39

  /** A symbol without its padding: trailing spaces and zeros go. */
  function Trim(s: seq<byte>): (r: seq<byte>)
    ensures r <= s
  {
    if s != [] && (s[|s| - 1] == 32 || s[|s| - 1] == 0) then Trim(s[..|s| - 1]) else s
  }

  predicate IsPad(b: byte) {
    b == 32 || b == 0
  }

  /** It is what is left without the longest run of padding at the end. */
  lemma {:induction false} TrimIff(s: seq<byte>, r: seq<byte>)
    ensures Trim(s) == r <==>
              && r <= s && (r != [] ==> !IsPad(r[|r| - 1]))
              && forall k :: |r| <= k < |s| ==> IsPad(s[k])
    decreases s
  {
    if s != [] && IsPad(s[|s| - 1]) {
      TrimIff(s[..|s| - 1], r);
      assert r <= s && |r| == |s| ==> r == s;
    } else if s != [] && r <= s && |r| < |s| {
      assert !IsPad(s[|s| - 1]);
    }
  }

  /** A whole directory message for the symbol. */
  predicate Names(b: seq<byte>, symbol: seq<byte>) {
    |b| >= DIRECTORY_LENGTH && b[0] == TYPE_R && Trim(b[11..19]) == symbol
  }

  /** The code under which the symbol trades: the last directory message for it says. */
  function TargetAfter(ms: seq<seq<byte>>, symbol: seq<byte>): Option<u16> {
    if ms == [] then None
    else if Names(ms[|ms| - 1], symbol) then Some(Be16(ms[|ms| - 1], 1))
    else TargetAfter(ms[..|ms| - 1], symbol)
  }

  /** What the driver makes of one message of the symbol. */
  function Classify(b: seq<byte>): seq<R.BookMsg> {
    if |b| < 11 then []
    else match Decode(b)
      case BookEvent(e) => [R.Good(Be48(b, 5), e)]
      case Malformed => [R.Bad(Be48(b, 5))]
      case Ignored => []
  }

  /** The book messages of the symbol: those under the code known by then. */
  function Selected(ms: seq<seq<byte>>, symbol: seq<byte>): seq<R.BookMsg> {
    if ms == [] then []
    else
      var init, b := ms[..|ms| - 1], ms[|ms| - 1];
      Selected(init, symbol)
      + if |b| >= 11 && TargetAfter(init, symbol) == Some(Be16(b, 1)) then Classify(b) else []
  }

  function WithoutHeader(ms: seq<seq<byte>>): nat {
    if ms == [] then 0 else WithoutHeader(ms[..|ms| - 1]) + if |ms[|ms| - 1]| < 11 then 1 else 0
  }

  /** Of the symbol's messages with a header the driver takes those of the book types: too short ones
      as malformed, the others with their time and event. */
  lemma ClassifyIs(b: seq<byte>)
    requires |b| >= 11
    ensures Classify(b) ==
            if !BookType(b[0]) then []
            else if |b| < Length(b[0]) then [R.Bad(Be48(b, 5))]
            else [R.Good(Be48(b, 5), Decode(b).ev)]
  {
    hide Decode, Be48, BookType, Length;
    DecodeIff(b);
  }

  /** Messages of the symbol that have a header but end before their length. */
  function ShortUnder(ms: seq<seq<byte>>, symbol: seq<byte>): nat {
    if ms == [] then 0
    else
      var init, b := ms[..|ms| - 1], ms[|ms| - 1];
      ShortUnder(init, symbol)
      + if |b| >= 11 && TargetAfter(init, symbol) == Some(Be16(b, 1)) && Short(b) then 1 else 0
  }

  /** Those are what the driver counts as malformed beside empty frames and missing headers. */
  lemma {:induction false} MalformedIsShort(ms: seq<seq<byte>>, symbol: seq<byte>)
    ensures |Selected(ms, symbol)| - |R.Events(Selected(ms, symbol))| == ShortUnder(ms, symbol)
  {
    hide Decode, Be16, Be48, BookType, Length, Classify, TargetAfter;
    if ms != [] {
      var init, b := ms[..|ms| - 1], ms[|ms| - 1];
      MalformedIsShort(init, symbol);
      var taken: seq<R.BookMsg> :=
        if |b| >= 11 && TargetAfter(init, symbol) == Some(Be16(b, 1)) then Classify(b) else [];
      assert Selected(ms, symbol) == Selected(init, symbol) + taken;
      R.EventsConcat(Selected(init, symbol), taken);
      if taken != [] {
        ClassifyIs(b);
        assert taken[..0] == [];
      } else if |b| >= 11 {
        ClassifyIs(b);
      }
    }
  }

  lemma SelectedNext(ms: seq<seq<byte>>, symbol: seq<byte>, i: nat)
    requires i < |ms|
    ensures var b := ms[i];
            && TargetAfter(ms[..i + 1], symbol) ==
               (if Names(b, symbol) then Some(Be16(b, 1)) else TargetAfter(ms[..i], symbol))
            && Selected(ms[..i + 1], symbol) == Selected(ms[..i], symbol)
               + (if |b| >= 11 && TargetAfter(ms[..i], symbol) == Some(Be16(b, 1)) then Classify(b) else [])
            && WithoutHeader(ms[..i + 1]) == WithoutHeader(ms[..i]) + if |b| < 11 then 1 else 0
  {
    assert ms[..i + 1][..i] == ms[..i];
  }

  /** The body of the read loop up to the book message: the header, the directory, the code of
      the symbol, the type. */
  method SelectMessages(ms: seq<seq<byte>>, symbol: seq<byte>) returns (out: seq<R.BookMsg>, malformed: nat)
    ensures out == Selected(ms, symbol) && malformed == WithoutHeader(ms)
  {
    hide Selected, TargetAfter, WithoutHeader, Decode, Be16, Be48, Trim;
    NothingSelected(symbol);
    var target: Option<u16> := None;
    out, malformed := [], 0;
    for i := 0 to |ms|
      invariant target == TargetAfter(ms[..i], symbol)
      invariant out == Selected(ms[..i], symbol) && malformed == WithoutHeader(ms[..i])
    {
      var b := ms[i];
      SelectedNext(ms, symbol, i);
      DecodeIff(b);
      if |b| < 11 {
        malformed := malformed + 1;
        continue;
      }
      if b[0] == TYPE_R {
        if |b| >= DIRECTORY_LENGTH && Trim(b[11..19]) == symbol {
          target := Some(Be16(b, 1));
        }
        continue;
      }
      if target.None? || target.value != Be16(b, 1) || !BookType(b[0]) {
        continue;
      }
      out := out + Classify(b);
    }
    assert ms[..|ms|] == ms;
  }

  lemma NothingSelected(symbol: seq<byte>)
    ensures TargetAfter([], symbol) == None && Selected([], symbol) == [] && WithoutHeader([]) == 0
  {
  }

  /** What is selected from the first messages is not changed by later ones, so a file cut short
      gives a prefix of the book messages of the whole. */
  lemma {:induction false} SelectedPrefix(xs: seq<seq<byte>>, ys: seq<seq<byte>>, symbol: seq<byte>)
    requires xs <= ys
    ensures Selected(xs, symbol) <= Selected(ys, symbol)
    decreases |ys|
  {
    if |xs| == |ys| {
      assert xs == ys;
    } else {
      SelectedPrefix(xs, ys[..|ys| - 1], symbol);
    }
  }

  lemma CutSelects(ms: seq<seq<byte>>, n: nat, symbol: seq<byte>)
    requires Framable(ms) && n <= |FrameAll(ms)|
    ensures Selected(NonEmpty(Split(FrameAll(ms)[..n]).0), symbol) <= Selected(NonEmpty(ms), symbol)
  {
    hide *;
    CutReads(ms, n);
    SelectedPrefix(NonEmpty(Split(FrameAll(ms)[..n]).0), NonEmpty(ms), symbol);
  }

  // ---- Writing a file ----

  /** A message of a file: one about the book, a directory entry, or anything else. */
  datatype Item =
    | Book(e: Event, h: Header, x: Extras)
    | Directory(h: Header, stock: seq<byte>, rest: seq<byte>)
    | Noise(t: byte, h: Header, rest: seq<byte>)

  ghost predicate Sendable(i: Item) {
    match i
    case Book(e, _, x) => ValidExtras(x) && WireEvent(e)
    case Directory(_, stock, rest) => |stock| == 8 && |rest| == 20
    case Noise(t, _, rest) => !BookType(t) && t as char != 'R' && |rest| < 0xFFF0
  }

  ghost predicate AllSendable(items: seq<Item>) {
    forall k :: 0 <= k < |items| ==> Sendable(items[k])
  }

  ghost function Written(i: Item): seq<byte>
    requires Sendable(i)
  {
    match i
    case Book(e, h, x) => Build(e, h, x)
    case Directory(h, stock, rest) => Head(82, h) + stock + rest
    case Noise(t, h, rest) => Head(t, h) + rest
  }

  ghost function WrittenAll(items: seq<Item>): (ms: seq<seq<byte>>)
    requires AllSendable(items)
    ensures |ms| == |items| && forall k :: 0 <= k < |items| ==> ms[k] == Written(items[k])
  {
    seq(|items|, k requires 0 <= k < |items| => Written(items[k]))
  }

  /** The bytes of a message carry its header; it is about the book, or names a symbol, exactly
      when the item does. */
  lemma WrittenReads(i: Item, symbol: seq<byte>)
    requires Sendable(i)
    ensures var b := Written(i);
            && 11 <= |b| < MAX_LEN && Be16(b, 1) == i.h.locate
            && Classify(b) == (if i.Book? then [R.Good(i.h.ts, i.e)] else [])
            && (Names(b, symbol) <==> i.Directory? && Trim(i.stock) == symbol)
  {
    hide Be16, Be48, Bytes, Trim;
    var b := Written(i);
    match i {
      case Book(e, h, x) =>
        hide Build, Decode, ValidExtras, WireEvent, Head;
        BuildHeader(e, h, x);
        DecodeBuild(e, h, x);
        DecodeIff(b);
      case Directory(h, stock, rest) =>
        hide Head;
        HeadFields(b, 82, h, stock + rest);
        assert b == Head(82, h) + (stock + rest);
        SliceAt(b, Head(82, h), stock, rest);
        DecodeIff(b);
      case Noise(t, h, rest) =>
        hide Head;
        HeadFields(b, t, h, rest);
        DecodeIff(b);
    }
  }

  // ---- Reading it back ----

  /** The items that are about the book under one code, in order. */
  ghost function BookOf(items: seq<Item>, loc: u16): seq<R.BookMsg> {
    if items == [] then []
    else
      var i := items[|items| - 1];
      BookOf(items[..|items| - 1], loc) + if i.Book? && i.h.locate == loc then [R.Good(i.h.ts, i.e)] else []
  }

  ghost predicate IsEntry(i: Item, symbol: seq<byte>) {
    i.Directory? && Trim(i.stock) == symbol
  }

  lemma WrittenNext(items: seq<Item>, i: Item, symbol: seq<byte>)
    requires AllSendable(items) && Sendable(i)
    ensures AllSendable(items + [i])
    ensures var ms, ms' := WrittenAll(items), WrittenAll(items + [i]);
            && TargetAfter(ms', symbol) ==
               (if IsEntry(i, symbol) then Some(i.h.locate) else TargetAfter(ms, symbol))
            && Selected(ms', symbol) == Selected(ms, symbol)
               + if i.Book? && TargetAfter(ms, symbol) == Some(i.h.locate) then [R.Good(i.h.ts, i.e)] else []
  {
    hide Sendable, Written, TargetAfter, Selected, WithoutHeader, Classify, Names, Be16, Trim;
    var ms, ms' := WrittenAll(items), WrittenAll(items + [i]);
    WrittenReads(i, symbol);
    SelectedNext(ms', symbol, |items|);
    assert ms'[..|items|] == ms && ms'[..|items| + 1] == ms';
    assert Selected(ms, symbol) + [] == Selected(ms, symbol);
  }

  /** Before its directory entry a symbol has no messages. */
  lemma {:induction false} SelectedBefore(items: seq<Item>, symbol: seq<byte>)
    requires AllSendable(items) && forall k :: 0 <= k < |items| ==> !IsEntry(items[k], symbol)
    ensures TargetAfter(WrittenAll(items), symbol) == None && Selected(WrittenAll(items), symbol) == []
    decreases |items|
  {
    if items != [] {
      var init, last := items[..|items| - 1], items[|items| - 1];
      assert items == init + [last];
      SelectedBefore(init, symbol);
      WrittenNext(init, last, symbol);
    }
  }

  /** After it, and as long as no entry gives it another code, it has those under its code. */
  lemma {:induction false} SelectedSince(pre: seq<Item>, entry: Item, post: seq<Item>, symbol: seq<byte>)
    requires AllSendable(pre) && Sendable(entry) && AllSendable(post)
    requires IsEntry(entry, symbol) && forall k :: 0 <= k < |pre| ==> !IsEntry(pre[k], symbol)
    requires forall k :: 0 <= k < |post| && IsEntry(post[k], symbol) ==> post[k].h.locate == entry.h.locate
    ensures AllSendable(pre + [entry] + post)
    ensures var ms := WrittenAll(pre + [entry] + post);
            && TargetAfter(ms, symbol) == Some(entry.h.locate)
            && Selected(ms, symbol) == BookOf(post, entry.h.locate)
    decreases |post|
  {
    hide Sendable, Written, TargetAfter, Selected, IsEntry, WrittenAll;
    if post == [] {
      assert pre + [entry] + post == pre + [entry];
      SelectedBefore(pre, symbol);
      WrittenNext(pre, entry, symbol);
      EntryIsNoBook(entry, symbol);
    } else {
      var init, last := post[..|post| - 1], post[|post| - 1];
      assert pre + [entry] + post == (pre + [entry] + init) + [last];
      SelectedSince(pre, entry, init, symbol);
      WrittenNext(pre + [entry] + init, last, symbol);
    }
  }

  lemma EntryIsNoBook(i: Item, symbol: seq<byte>)
    requires IsEntry(i, symbol)
    ensures !i.Book?
  {
  }

  lemma {:induction false} AllHeaders(items: seq<Item>)
    requires AllSendable(items)
    ensures Framable(WrittenAll(items)) && NonEmpty(WrittenAll(items)) == WrittenAll(items)
    ensures WithoutHeader(WrittenAll(items)) == 0 && forall k :: 0 <= k < |items| ==> WrittenAll(items)[k] != []
    decreases |items|
  {
    forall k | 0 <= k < |items| ensures 11 <= |WrittenAll(items)[k]| < MAX_LEN {
      WrittenReads(items[k], []);
    }
    assert forall k :: 0 <= k < |items| ==> WrittenAll(items)[k] != [];
    NonEmptyAll(WrittenAll(items));
    HeadersAll(WrittenAll(items));
  }

  lemma {:induction false} HeadersAll(ms: seq<seq<byte>>)
    requires forall k :: 0 <= k < |ms| ==> |ms[k]| >= 11
    ensures WithoutHeader(ms) == 0
  {
    if ms != [] {
      HeadersAll(ms[..|ms| - 1]);
    }
  }

  lemma AllFramed(ms: seq<seq<byte>>)
    requires Framable(ms)
    ensures Split(FrameAll(ms)) == (ms, [])
  {
    hide Split, FrameAll;
    IncompleteEmpty();
    SplitFrames(ms, []);
    assert FrameAll(ms) + [] == FrameAll(ms);
  }

  /** A framed file in which other symbols' messages and messages of other kinds lie anywhere in
      between reads back, for a symbol, as exactly the events and timestamps written under its
      code since its directory entry. Nothing is left over, and nothing in it is malformed. */
  lemma FileRoundTrip(pre: seq<Item>, entry: Item, post: seq<Item>, symbol: seq<byte>)
    requires AllSendable(pre) && Sendable(entry) && AllSendable(post)
    requires IsEntry(entry, symbol) && forall k :: 0 <= k < |pre| ==> !IsEntry(pre[k], symbol)
    requires forall k :: 0 <= k < |post| && IsEntry(post[k], symbol) ==> post[k].h.locate == entry.h.locate
    ensures AllSendable(pre + [entry] + post) && Framable(WrittenAll(pre + [entry] + post))
    ensures var (frames, rest) := Split(FrameAll(WrittenAll(pre + [entry] + post)));
            && rest == [] && NonEmpty(frames) == frames && WithoutHeader(frames) == 0
            && Selected(frames, symbol) == BookOf(post, entry.h.locate)
            && R.Events(Selected(frames, symbol)) == EventsUnder(post, entry.h.locate)
            && |R.Events(Selected(frames, symbol))| == |Selected(frames, symbol)|
  {
    hide *;
    SelectedSince(pre, entry, post, symbol);
    var ms := WrittenAll(pre + [entry] + post);
    AllHeaders(pre + [entry] + post);
    AllFramed(ms);
    EventsOfBook(post, entry.h.locate);
  }

  /** The events written under one code, in order. */
  ghost function EventsUnder(items: seq<Item>, loc: u16): seq<Event> {
    if items == [] then []
    else
      var i := items[|items| - 1];
      EventsUnder(items[..|items| - 1], loc) + if i.Book? && i.h.locate == loc then [i.e] else []
  }

  lemma {:induction false} EventsOfBook(items: seq<Item>, loc: u16)
    ensures R.Events(BookOf(items, loc)) == EventsUnder(items, loc)
    ensures |EventsUnder(items, loc)| == |BookOf(items, loc)|
    decreases |items|
  {
    if items != [] {
      var init, i := items[..|items| - 1], items[|items| - 1];
      EventsOfBook(init, loc);
      var one: seq<R.BookMsg> := if i.Book? && i.h.locate == loc then [R.Good(i.h.ts, i.e)] else [];
      assert BookOf(items, loc) == BookOf(init, loc) + one;
      R.EventsConcat(BookOf(init, loc), one);
      if one != [] {
        assert one[..0] == [];
      }
    }
  }

  // ---- Generated days ----

  /** The book messages a generated day consists of. */
  ghost function Books(items: seq<Item>): seq<G.Message> {
    if items == [] then []
    else
      var i := items[|items| - 1];
      Books(items[..|items| - 1]) + if i.Book? then [G.Message(i.h.locate, i.e)] else []
  }

  /** The generator's file, whatever it was padded out with, gives the replay of each symbol
      exactly the events the generator recorded for it. */
  lemma {:induction false} GeneratedFile(items: seq<Item>, loc: u16)
    ensures EventsUnder(items, loc) == G.EventsOf(Books(items), loc)
    decreases |items|
  {
    if items != [] {
      var init, i := items[..|items| - 1], items[|items| - 1];
      GeneratedFile(init, loc);
      if i.Book? {
        G.EventsOfSnoc(Books(init), G.Message(i.h.locate, i.e), loc);
      } else {
        assert Books(items) == Books(init) && EventsUnder(items, loc) == EventsUnder(init, loc);
      }
    }
  }

  /** So the replay of any symbol of a generated file sees a clean, never crossed day: not one
      malformed message, no anomaly, and the table the generator kept. */
  lemma GeneratedFileReplays(pre: seq<Item>, entry: Item, post: seq<Item>, symbol: seq<byte>, t: Table)
    requires AllSendable(pre) && Sendable(entry) && AllSendable(post)
    requires IsEntry(entry, symbol) && forall k :: 0 <= k < |pre| ==> !IsEntry(pre[k], symbol)
    requires forall k :: 0 <= k < |post| && IsEntry(post[k], symbol) ==> post[k].h.locate == entry.h.locate
    requires var es := G.EventsOf(Books(post), entry.h.locate); G.Generated(map[], 1000, es) && t == TableRun(map[], es)
    ensures AllSendable(pre + [entry] + post) && Framable(WrittenAll(pre + [entry] + post))
    ensures var frames := Split(FrameAll(WrittenAll(pre + [entry] + post))).0;
            var es := R.Events(Selected(frames, symbol));
            && es == G.EventsOf(Books(post), entry.h.locate)
            && NonEmpty(frames) == frames && WithoutHeader(frames) == 0 && |es| == |Selected(frames, symbol)|
            && Ref.Run(Ref.EMPTY, es).orders == t && Ref.Run(Ref.EMPTY, es).an == Ref.Anomalies(0, 0, 0)
            && Replication.NeverCrosses(map[], es)
  {
    hide *;
    FileRoundTrip(pre, entry, post, symbol);
    GeneratedFile(post, entry.h.locate);
    G.DayIsSound(G.EventsOf(Books(post), entry.h.locate), t);
  }
}
