/** Length-prefixed framing: `frame` of scripts/gen_itch50_oracle.py and the read loop of
    tools/replay_itch50.cpp. */
module Framing {
  type byte = n: nat | n < 256

  const MAX_LEN := 0x1_0000

  function Frame(m: seq<byte>): seq<byte>
    requires |m| < MAX_LEN
  {
    [|m| / 256, |m| % 256] + m
  }

  ghost predicate Framable(ms: seq<seq<byte>>) {
    forall k :: 0 <= k < |ms| ==> |ms[k]| < MAX_LEN
  }

  function FrameAll(ms: seq<seq<byte>>): seq<byte>
    requires Framable(ms)
  {
    if ms == [] then [] else Frame(ms[0]) + FrameAll(ms[1..])
  }

  /** The length the first two bytes declare. */
  function Declared(bs: seq<byte>): nat
    requires |bs| >= 2
  {
    (bs[0] as nat) * 256 + bs[1]
  }

  /** Some bytes, but not a whole frame. */
  predicate Incomplete(bs: seq<byte>) {
    bs == [] || |bs| < 2 || |bs| < 2 + Declared(bs)
  }

  /** The frames of a byte string, empty ones included, and the bytes that are left. */
  function Split(bs: seq<byte>): (r: (seq<seq<byte>>, seq<byte>))
    ensures Framable(r.0) && Incomplete(r.1)
  {
    if Incomplete(bs) then ([], bs)
    else
      var n := 2 + Declared(bs);
      var (ms, rest) := Split(bs[n..]);
      ([bs[2..n]] + ms, rest)
  }

  function NonEmpty(ms: seq<seq<byte>>): seq<seq<byte>> {
    if ms == [] then [] else (if ms[0] == [] then [] else [ms[0]]) + NonEmpty(ms[1..])
  }

  lemma FrameHead(m: seq<byte>, rest: seq<byte>)
    requires |m| < MAX_LEN
    ensures var bs := Frame(m) + rest;
            && !Incomplete(bs) && Declared(bs) == |m| && bs[2..2 + |m|] == m && bs[2 + |m|..] == rest
  {
    var bs := Frame(m) + rest;
    assert bs[0] == |m| / 256 && bs[1] == |m| % 256;
  }

  /** Splitting is exactly undoing framing: it finds these frames and this remainder if and
      only if the bytes are these frames followed by this incomplete remainder. */
  lemma {:induction false} SplitIff(bs: seq<byte>, ms: seq<seq<byte>>, rest: seq<byte>)
    ensures Split(bs) == (ms, rest) <==> Framable(ms) && Incomplete(rest) && bs == FrameAll(ms) + rest
  {
    SplitExplains(bs);
    if Framable(ms) && Incomplete(rest) && bs == FrameAll(ms) + rest {
      SplitFrames(ms, rest);
    }
  }

  lemma {:induction false} SplitExplains(bs: seq<byte>)
    ensures bs == FrameAll(Split(bs).0) + Split(bs).1
  {
    if !Incomplete(bs) {
      var n := 2 + Declared(bs);
      SplitExplains(bs[n..]);
      var m := bs[2..n];
      var (ms, rest) := Split(bs[n..]);
      assert Frame(m) == bs[..n] by {
        assert |m| / 256 == bs[0] && |m| % 256 == bs[1];
      }
      assert ([m] + ms)[1..] == ms;
      assert bs == bs[..n] + bs[n..];
      assert (Frame(m) + FrameAll(ms)) + rest == Frame(m) + (FrameAll(ms) + rest);
    } else {
      assert FrameAll([]) + bs == bs;
    }
  }

  lemma {:induction false} SplitFrames(ms: seq<seq<byte>>, rest: seq<byte>)
    requires Framable(ms) && Incomplete(rest)
    ensures Split(FrameAll(ms) + rest) == (ms, rest)
  {
    hide Incomplete;
    if ms == [] {
      assert FrameAll(ms) + rest == rest;
      IncompleteSplit(rest);
    } else {
      SplitFrames(ms[1..], rest);
      var tail := FrameAll(ms[1..]) + rest;
      assert FrameAll(ms) + rest == Frame(ms[0]) + tail;
      hide FrameAll, Frame, Split;
      SplitHead(ms[0], tail);
      assert ms == [ms[0]] + ms[1..];
    }
  }

  lemma SplitHead(m: seq<byte>, tail: seq<byte>)
    requires |m| < MAX_LEN
    ensures Split(Frame(m) + tail) == ([m] + Split(tail).0, Split(tail).1)
  {
    FrameHead(m, tail);
    hide Frame, Incomplete, Declared;
  }

  lemma IncompleteSplit(bs: seq<byte>)
    requires Incomplete(bs)
    ensures Split(bs) == ([], bs)
  {
  }

  // ---- Prefixes of a file ----

  /** The byte position where the k-th frame begins. */
  function Boundary(ms: seq<seq<byte>>, k: nat): nat
    requires Framable(ms) && k <= |ms|
  {
    |FrameAll(ms[..k])|
  }

  lemma BoundaryTail(ms: seq<seq<byte>>, k: nat)
    requires Framable(ms) && 0 < k <= |ms|
    ensures Framable(ms[1..]) && Boundary(ms, k) == |Frame(ms[0])| + Boundary(ms[1..], k - 1)
  {
    assert ms[..k][1..] == ms[1..][..k - 1];
  }

  lemma BoundaryZero(ms: seq<seq<byte>>)
    requires Framable(ms)
    ensures Boundary(ms, 0) == 0
  {
    assert ms[..0] == [];
  }

  ghost predicate OnBoundary(ms: seq<seq<byte>>, n: nat)
    requires Framable(ms)
  {
    exists k :: 0 <= k <= |ms| && Boundary(ms, k) == n
  }

  lemma OnBoundaryTail(ms: seq<seq<byte>>, n: nat)
    requires Framable(ms) && ms != [] && n >= |Frame(ms[0])|
    ensures OnBoundary(ms, n) <==> OnBoundary(ms[1..], n - |Frame(ms[0])|)
  {
    if OnBoundary(ms, n) {
      BoundaryZero(ms);
      var k :| 0 <= k <= |ms| && Boundary(ms, k) == n;
      BoundaryTail(ms, k);
    }
    if OnBoundary(ms[1..], n - |Frame(ms[0])|) {
      var k :| 0 <= k <= |ms[1..]| && Boundary(ms[1..], k) == n - |Frame(ms[0])|;
      BoundaryTail(ms, k + 1);
    }
  }

  lemma InsideFirst(ms: seq<seq<byte>>, n: nat)
    requires Framable(ms) && ms != [] && 0 < n < |Frame(ms[0])|
    ensures !OnBoundary(ms, n)
  {
    forall k | 0 <= k <= |ms| ensures Boundary(ms, k) != n {
      if k == 0 {
        assert ms[..0] == [];
      } else {
        BoundaryTail(ms, k);
      }
    }
  }

  lemma CutFrame(m: seq<byte>, rest: seq<byte>, n: nat)
    requires |m| < MAX_LEN && n < |Frame(m)|
    ensures Incomplete((Frame(m) + rest)[..n])
  {
    FrameHead(m, rest);
    var bs := Frame(m) + rest;
    if n >= 2 {
      assert bs[..n][0] == bs[0] && bs[..n][1] == bs[1];
    }
  }

  /** Reading the first n bytes yields a prefix of the frames, and bytes are left over exactly
      when the cut is not on a boundary. */
  ghost predicate CutWell(ms: seq<seq<byte>>, n: nat)
    requires Framable(ms) && n <= |FrameAll(ms)|
  {
    var (got, rest) := Split(FrameAll(ms)[..n]);
    got <= ms && (rest == [] <==> OnBoundary(ms, n))
  }

  lemma StartIsBoundary(ms: seq<seq<byte>>)
    requires Framable(ms)
    ensures OnBoundary(ms, 0)
  {
    BoundaryZero(ms);
  }

  lemma CutInFirst(ms: seq<seq<byte>>, n: nat)
    requires Framable(ms) && ms != [] && n < |Frame(ms[0])| && n <= |FrameAll(ms)|
    ensures CutWell(ms, n)
  {
    CutFrame(ms[0], FrameAll(ms[1..]), n);
    hide Incomplete, Split, OnBoundary, Frame;
    IncompleteSplit(FrameAll(ms)[..n]);
    if n == 0 {
      StartIsBoundary(ms);
    } else {
      InsideFirst(ms, n);
    }
  }

  lemma CutLater(ms: seq<seq<byte>>, n: nat)
    requires Framable(ms) && ms != [] && |Frame(ms[0])| <= n <= |FrameAll(ms)|
    requires Framable(ms[1..]) && n - |Frame(ms[0])| <= |FrameAll(ms[1..])| && CutWell(ms[1..], n - |Frame(ms[0])|)
    ensures CutWell(ms, n)
  {
    var f, tail := Frame(ms[0]), FrameAll(ms[1..]);
    assert FrameAll(ms) == f + tail;
    hide FrameAll, Frame, Split, OnBoundary, Incomplete;
    PrefixPast(f, tail, n);
    OnBoundaryTail(ms, n);
    SplitHead(ms[0], tail[..n - |f|]);
    PrefixCons(ms, Split(tail[..n - |f|]).0);
  }

  lemma PrefixPast(f: seq<byte>, tail: seq<byte>, n: nat)
    requires |f| <= n <= |f| + |tail|
    ensures (f + tail)[..n] == f + tail[..n - |f|]
  {
  }

  lemma PrefixCons(ms: seq<seq<byte>>, got: seq<seq<byte>>)
    requires ms != [] && got <= ms[1..]
    ensures [ms[0]] + got <= ms
  {
  }

  /** Cutting a file anywhere cuts it well. */
  lemma {:induction false} CutAnywhere(ms: seq<seq<byte>>, n: nat)
    requires Framable(ms) && n <= |FrameAll(ms)|
    ensures CutWell(ms, n)
  {
    if ms == [] {
      StartIsBoundary(ms);
      IncompleteEmpty();
      IncompleteSplit([]);
      assert FrameAll(ms)[..n] == [];
    } else {
      hide CutWell, Frame;
      if n < |Frame(ms[0])| {
        CutInFirst(ms, n);
      } else {
        CutAnywhere(ms[1..], n - |Frame(ms[0])|);
        CutLater(ms, n);
      }
    }
  }

  /** So the messages read are a prefix of the messages written. */
  lemma CutReads(ms: seq<seq<byte>>, n: nat)
    requires Framable(ms) && n <= |FrameAll(ms)|
    ensures NonEmpty(Split(FrameAll(ms)[..n]).0) <= NonEmpty(ms)
  {
    hide Split, FrameAll, NonEmpty;
    CutAnywhere(ms, n);
    NonEmptyPrefix(Split(FrameAll(ms)[..n]).0, ms);
  }

  lemma IncompleteEmpty()
    ensures Incomplete([])
  {
  }

  // ---- The read loop ----

  /** The frames up to and with the n-th non-empty one; all of them if there are fewer. */
  function Until(ms: seq<seq<byte>>, n: nat): seq<seq<byte>> {
    if ms == [] || n == 0 then [] else [ms[0]] + Until(ms[1..], if ms[0] == [] then n else n - 1)
  }

  lemma {:induction false} UntilCounts(ms: seq<seq<byte>>, n: nat)
    ensures Until(ms, n) <= ms
    ensures |NonEmpty(Until(ms, n))| == if |NonEmpty(ms)| < n then |NonEmpty(ms)| else n
  {
    if ms != [] && n > 0 {
      var k := if ms[0] == [] then n else n - 1;
      UntilCounts(ms[1..], k);
      assert Until(ms, n)[1..] == Until(ms[1..], k);
    }
  }

  lemma {:induction false} NonEmptyPrefix(xs: seq<seq<byte>>, ys: seq<seq<byte>>)
    requires xs <= ys
    ensures NonEmpty(xs) <= NonEmpty(ys)
  {
    if xs != [] {
      NonEmptyPrefix(xs[1..], ys[1..]);
    }
  }

  lemma {:induction false} NonEmptySnoc(ms: seq<seq<byte>>, m: seq<byte>)
    ensures NonEmpty(ms + [m]) == NonEmpty(ms) + if m == [] then [] else [m]
  {
    var one: seq<seq<byte>> := if m == [] then [] else [m];
    if ms == [] {
      assert ms + [m] == [m] && [m][1..] == [];
      assert NonEmpty([m]) == one + NonEmpty([]);
      assert one + [] == one && [] + one == one;
    } else {
      var head: seq<seq<byte>> := if ms[0] == [] then [] else [ms[0]];
      assert (ms + [m])[0] == ms[0] && (ms + [m])[1..] == ms[1..] + [m];
      NonEmptySnoc(ms[1..], m);
      assert NonEmpty(ms + [m]) == head + (NonEmpty(ms[1..]) + one);
      assert head + (NonEmpty(ms[1..]) + one) == (head + NonEmpty(ms[1..])) + one;
    }
  }

  lemma {:induction false} NonEmptyAll(ms: seq<seq<byte>>)
    requires forall k :: 0 <= k < |ms| ==> ms[k] != []
    ensures NonEmpty(ms) == ms
  {
    if ms != [] {
      NonEmptyAll(ms[1..]);
    }
  }

  /** Some frames are done and the rest of the file is `left`. */
  ghost predicate Reading(bs: seq<byte>, left: seq<byte>, done: seq<seq<byte>>, msgs: seq<seq<byte>>, malformed: nat) {
    && done + Split(left).0 == Split(bs).0 && Split(left).1 == Split(bs).1
    && msgs == NonEmpty(done) && malformed == |done| - |msgs|
  }

  lemma ReadStart(bs: seq<byte>)
    ensures Reading(bs, bs, [], [], 0)
  {
    assert [] + Split(bs).0 == Split(bs).0;
  }

  lemma ReadNext(bs: seq<byte>, left: seq<byte>, done: seq<seq<byte>>, msgs: seq<seq<byte>>, malformed: nat)
    requires Reading(bs, left, done, msgs, malformed) && !Incomplete(left)
    ensures var n := 2 + Declared(left);
            if n == 2 then Reading(bs, left[2..], done + [[]], msgs, malformed + 1)
            else Reading(bs, left[n..], done + [left[2..n]], msgs + [left[2..n]], malformed)
  {
    var n := 2 + Declared(left);
    var m := left[2..n];
    assert done + Split(left).0 == (done + [m]) + Split(left[n..]).0;
    NonEmptySnoc(done, m);
  }

  lemma ReadEnd(bs: seq<byte>, left: seq<byte>, done: seq<seq<byte>>, msgs: seq<seq<byte>>, malformed: nat)
    requires Reading(bs, left, done, msgs, malformed) && Incomplete(left)
    ensures msgs == NonEmpty(Split(bs).0) && malformed == |Split(bs).0| - |msgs| && Split(bs).1 == left
  {
    assert done + [] == done;
  }

  /** With a limit, what is done is what the limit lets through so far. */
  ghost predicate Limited(bs: seq<byte>, left: seq<byte>, done: seq<seq<byte>>, n: nat, max: nat) {
    max != 0 ==> n <= max && Until(Split(bs).0, max) == done + Until(Split(left).0, max - n)
  }

  lemma LimitStart(bs: seq<byte>, max: nat)
    ensures Limited(bs, bs, [], 0, max)
  {
    if max != 0 {
      assert [] + Until(Split(bs).0, max) == Until(Split(bs).0, max);
    }
  }

  lemma LimitNext(bs: seq<byte>, left: seq<byte>, done: seq<seq<byte>>, k: nat, max: nat)
    requires Limited(bs, left, done, k, max) && !Incomplete(left) && (max != 0 ==> k < max)
    ensures var n := 2 + Declared(left);
            Limited(bs, left[n..], done + [left[2..n]], if n == 2 then k else k + 1, max)
  {
    var n := 2 + Declared(left);
    var m, rest := left[2..n], Split(left[n..]).0;
    assert Split(left).0 == [m] + rest;
    hide Split, Incomplete;
    if max != 0 {
      var more := Until(rest, if m == [] then max - k else max - k - 1);
      assert ([m] + rest)[1..] == rest;
      assert Until([m] + rest, max - k) == [m] + more;
      assert done + ([m] + more) == (done + [m]) + more;
    }
  }

  lemma LimitStops(bs: seq<byte>, left: seq<byte>, done: seq<seq<byte>>, k: nat, max: nat)
    requires Limited(bs, left, done, k, max) && (Incomplete(left) || k == max)
    ensures max != 0 ==> Until(Split(bs).0, max) == done
  {
    assert done + [] == done;
  }

  lemma ReadCounts(bs: seq<byte>, left: seq<byte>, done: seq<seq<byte>>, msgs: seq<seq<byte>>, malformed: nat)
    requires Reading(bs, left, done, msgs, malformed)
    ensures msgs == NonEmpty(done) && malformed == |done| - |msgs|
  {
  }

  /** The loop terminates on every byte string. Without a message limit it reads exactly the
      non-empty frames, counts the empty ones as malformed, and reports one truncation exactly
      when bytes are left. With a limit it does so for the frames up to the last message the
      limit lets through, and reports no truncation once the limit is reached. */
  method ReadFrames(bs: seq<byte>, maxMsgs: nat) returns (msgs: seq<seq<byte>>, malformed: nat, truncated: nat)
    ensures var seen := if maxMsgs == 0 then Split(bs).0 else Until(Split(bs).0, maxMsgs);
            && msgs == NonEmpty(seen)
            && malformed == |seen| - |msgs|
            && truncated == if Split(bs).1 == [] || (maxMsgs != 0 && |msgs| == maxMsgs) then 0 else 1
  {
    hide Reading, Split, NonEmpty, Limited, Until, Incomplete;
    msgs, malformed, truncated := [], 0, 0;
    var left := bs;
    ghost var done: seq<seq<byte>> := [];
    ReadStart(bs);
    LimitStart(bs, maxMsgs);
    while true
      invariant Reading(bs, left, done, msgs, malformed) && truncated == 0
      invariant Limited(bs, left, done, |msgs|, maxMsgs) && (maxMsgs != 0 ==> |msgs| <= maxMsgs)
      decreases |left|
    {
      ReadCounts(bs, left, done, msgs, malformed);
      if maxMsgs != 0 && |msgs| >= maxMsgs {
        LimitStops(bs, left, done, |msgs|, maxMsgs);
        break;
      }
      if |left| == 0 {
        ShortIsIncomplete(left);
        ReadEnd(bs, left, done, msgs, malformed);
        LimitStops(bs, left, done, |msgs|, maxMsgs);
        break;
      }
      if |left| < 2 {
        truncated := truncated + 1;
        ShortIsIncomplete(left);
        ReadEnd(bs, left, done, msgs, malformed);
        LimitStops(bs, left, done, |msgs|, maxMsgs);
        break;
      }
      var len := (left[0] as nat) * 256 + left[1];
      LongIsComplete(left);
      if len == 0 {
        ReadNext(bs, left, done, msgs, malformed);
        LimitNext(bs, left, done, |msgs|, maxMsgs);
        assert left[2..2] == [];
        malformed := malformed + 1;
        left, done := left[2..], done + [[]];
        continue;
      }
      if |left| - 2 < len {
        truncated := truncated + 1;
        ReadEnd(bs, left, done, msgs, malformed);
        LimitStops(bs, left, done, |msgs|, maxMsgs);
        break;
      }
      ReadNext(bs, left, done, msgs, malformed);
      LimitNext(bs, left, done, |msgs|, maxMsgs);
      var m := left[2..2 + len];
      msgs := msgs + [m];
      left, done := left[2 + len..], done + [m];
    }
  }

  lemma ShortIsIncomplete(bs: seq<byte>)
    requires |bs| < 2
    ensures Incomplete(bs)
  {
  }

  lemma LongIsComplete(bs: seq<byte>)
    requires |bs| >= 2
    ensures Incomplete(bs) <==> |bs| < 2 + Declared(bs)
  {
  }

  /** Framing then reading gives back every list of non-empty messages. */
  lemma RoundTrip(ms: seq<seq<byte>>)
    requires Framable(ms) && forall k :: 0 <= k < |ms| ==> ms[k] != []
    ensures NonEmpty(Split(FrameAll(ms)).0) == ms && Split(FrameAll(ms)).1 == []
  {
    assert FrameAll(ms) + [] == FrameAll(ms);
    IncompleteEmpty();
    SplitFrames(ms, []);
    NonEmptyAll(ms);
  }
}
