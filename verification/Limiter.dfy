/** The fixed-window rate limit of a connection's read loop, and the sliding bound that
    follows from it. */
module Limiter {
  import opened Clock

  const MAX_MSGS := 1000
  const MAX_BYTES := 16 * 1024 * 1024

  /** A frame as the read loop gets it, with the clock reading made for it. */
  datatype Frame = Frame(text: bool, at: int, size: nat)

  datatype Meter = Meter(window: int, msgs: nat, bytes: nat)

  /** The counters after a text frame is counted; a window that is over restarts at it. */
  function Counted(m: Meter, f: Frame): Meter {
    var m' := if f.at - m.window >= SECOND then Meter(f.at, 0, 0) else m;
    m'.(msgs := m'.msgs + 1, bytes := m'.bytes + f.size)
  }

  predicate Fits(m: Meter) {
    m.msgs <= MAX_MSGS && m.bytes <= MAX_BYTES
  }

  /** The text frames handled before the connection ends or breaks the limit. */
  function Accepted(m: Meter, fs: seq<Frame>): seq<Frame>
    decreases |fs|
  {
    if fs == [] then []
    else if !fs[0].text then Accepted(m, fs[1..])
    else if !Fits(Counted(m, fs[0])) then []
    else [fs[0]] + Accepted(Counted(m, fs[0]), fs[1..])
  }

  lemma AcceptedSplit(m: Meter, fs: seq<Frame>)
    requires fs != []
    ensures !fs[0].text ==> Accepted(m, fs) == Accepted(m, fs[1..])
    ensures fs[0].text && !Fits(Counted(m, fs[0])) ==> Accepted(m, fs) == []
    ensures fs[0].text && Fits(Counted(m, fs[0])) ==>
      Accepted(m, fs) == [fs[0]] + Accepted(Counted(m, fs[0]), fs[1..])
  {}

  lemma DropOne(fs: seq<Frame>, i: nat)
    requires i < |fs|
    ensures fs[i..][0] == fs[i] && fs[i..][1..] == fs[i + 1..]
  {}

  lemma JoinOne(all: seq<Frame>, done: seq<Frame>, f: Frame, rest: seq<Frame>)
    requires all == done + ([f] + rest)
    ensures all == (done + [f]) + rest
  {}

  method ReadLoop(start: int, fs: seq<Frame>) returns (handled: seq<Frame>)
    ensures handled == Accepted(Meter(start, 0, 0), fs)
  {
    var window, msgs, bytes := start, 0, 0;
    handled := [];
    var i := 0;
    while i < |fs|
      invariant 0 <= i <= |fs| && msgs >= 0 && bytes >= 0
      invariant Accepted(Meter(start, 0, 0), fs) == handled + Accepted(Meter(window, msgs, bytes), fs[i..])
    {
      var f := fs[i];
      ghost var before := Meter(window, msgs, bytes);
      AcceptedSplit(before, fs[i..]);
      DropOne(fs, i);
      if f.text {
        if f.at - window >= SECOND { window, msgs, bytes := f.at, 0, 0; }
        msgs := msgs + 1;
        bytes := bytes + f.size;
        if msgs > MAX_MSGS || bytes > MAX_BYTES { return; }
        JoinOne(Accepted(Meter(start, 0, 0), fs), handled, f, Accepted(Meter(window, msgs, bytes), fs[i + 1..]));
        handled := handled + [f];
      }
      i := i + 1;
    }
  }

  // ----- the sliding bound -----

  /** The clock never goes back. */
  ghost predicate Monotone(from: int, fs: seq<Frame>)
    decreases |fs|
  {
    fs == [] || (from <= fs[0].at && Monotone(fs[0].at, fs[1..]))
  }

  /** How many frames, and how many bytes, fall between two moments, both included. */
  function Count(fs: seq<Frame>, lo: int, hi: int): nat {
    if fs == [] then 0 else (if lo <= fs[0].at <= hi then 1 else 0) + Count(fs[1..], lo, hi)
  }

  function Volume(fs: seq<Frame>, lo: int, hi: int): nat {
    if fs == [] then 0 else (if lo <= fs[0].at <= hi then fs[0].size else 0) + Volume(fs[1..], lo, hi)
  }

  /** What may still be accepted until hi: the rest of this window, and if it ends by
      then, one window more. */
  lemma {:induction false} RestOfWindow(m: Meter, from: int, fs: seq<Frame>, lo: int, hi: int)
    requires Fits(m) && Monotone(from, fs) && hi - m.window < 2 * SECOND
    ensures Count(Accepted(m, fs), lo, hi) <= (if hi - m.window < SECOND then MAX_MSGS else 2 * MAX_MSGS) - m.msgs
    ensures Volume(Accepted(m, fs), lo, hi) <= (if hi - m.window < SECOND then MAX_BYTES else 2 * MAX_BYTES) - m.bytes
    decreases |fs|
  {
    if fs == [] {
    } else if !fs[0].text {
      RestOfWindow(m, fs[0].at, fs[1..], lo, hi);
    } else if Fits(Counted(m, fs[0])) {
      var m' := Counted(m, fs[0]);
      AcceptedSplit(m, fs);
      assert ([fs[0]] + Accepted(m', fs[1..]))[1..] == Accepted(m', fs[1..]);
      if fs[0].at <= hi {
        RestOfWindow(m', fs[0].at, fs[1..], lo, hi);
      } else {
        NothingAfter(m', fs[0].at, fs[1..], lo, hi);
      }
    }
  }

  lemma {:induction false} NothingAfter(m: Meter, from: int, fs: seq<Frame>, lo: int, hi: int)
    requires Monotone(from, fs) && hi < from
    ensures Count(Accepted(m, fs), lo, hi) == 0 && Volume(Accepted(m, fs), lo, hi) == 0
    decreases |fs|
  {
    if fs != [] {
      AcceptedSplit(m, fs);
      if !fs[0].text {
        NothingAfter(m, fs[0].at, fs[1..], lo, hi);
      } else if Fits(Counted(m, fs[0])) {
        var m' := Counted(m, fs[0]);
        NothingAfter(m', fs[0].at, fs[1..], lo, hi);
        assert ([fs[0]] + Accepted(m', fs[1..]))[1..] == Accepted(m', fs[1..]);
      }
    }
  }

  /** From any point of a run: whatever window is open when the second begins. */
  lemma {:induction false} SecondFrom(m: Meter, from: int, fs: seq<Frame>, lo: int)
    requires Fits(m) && Monotone(from, fs)
    ensures Count(Accepted(m, fs), lo, lo + SECOND) <= 2 * MAX_MSGS
    ensures Volume(Accepted(m, fs), lo, lo + SECOND) <= 2 * MAX_BYTES
    decreases |fs|
  {
    if fs == [] {
    } else if !fs[0].text {
      SecondFrom(m, fs[0].at, fs[1..], lo);
    } else if Fits(Counted(m, fs[0])) {
      var m' := Counted(m, fs[0]);
      AcceptedSplit(m, fs);
      assert ([fs[0]] + Accepted(m', fs[1..]))[1..] == Accepted(m', fs[1..]);
      if fs[0].at < lo {
        SecondFrom(m', fs[0].at, fs[1..], lo);
      } else {
        RestOfWindow(m', fs[0].at, fs[1..], lo, lo + SECOND);
      }
    }
  }

  /** Main result: on every run, every closed interval of one second holds at most 2000
      accepted text messages and 32 MiB of their payload. */
  lemma SlidingBound(start: int, fs: seq<Frame>, lo: int)
    requires Monotone(start, fs)
    ensures Count(Accepted(Meter(start, 0, 0), fs), lo, lo + SECOND) <= 2000
    ensures Volume(Accepted(Meter(start, 0, 0), fs), lo, lo + SECOND) <= 32 * 1024 * 1024
  {
    SecondFrom(Meter(start, 0, 0), start, fs, lo);
  }

  // ----- what is accepted, exactly -----

  function Texts(fs: seq<Frame>): seq<Frame> {
    if fs == [] then [] else (if fs[0].text then [fs[0]] else []) + Texts(fs[1..])
  }

  function Total(fs: seq<Frame>): nat {
    if fs == [] then 0 else fs[0].size + Total(fs[1..])
  }

  /** Only text frames are handled, in order and none left out before the last. */
  lemma {:induction false} AcceptedIsPrefix(m: Meter, fs: seq<Frame>)
    ensures Accepted(m, fs) <= Texts(fs)
    decreases |fs|
  {
    if fs != [] {
      AcceptedSplit(m, fs);
      if !fs[0].text {
        AcceptedIsPrefix(m, fs[1..]);
        assert [] + Texts(fs[1..]) == Texts(fs[1..]);
      } else if Fits(Counted(m, fs[0])) {
        AcceptedIsPrefix(Counted(m, fs[0]), fs[1..]);
      }
    }
  }

  /** Within one window the next n text frames are accepted exactly if with them the window
      has at most 1000 messages and 16 MiB. */
  lemma {:induction false} WindowAccepts(m: Meter, fs: seq<Frame>, n: nat)
    requires m.msgs <= 1000 && m.bytes <= 16 * 1024 * 1024
    requires forall f :: f in fs ==> f.at - m.window < SECOND
    requires n <= |Texts(fs)|
    ensures n <= |Accepted(m, fs)| <==> m.msgs + n <= 1000 && m.bytes + Total(Texts(fs)[..n]) <= 16 * 1024 * 1024
    decreases |fs|
  {
    if fs == [] || n == 0 {
      assert Texts(fs)[..0] == [];
    } else {
      AcceptedSplit(m, fs);
      assert forall f :: f in fs[1..] ==> f in fs;
      if !fs[0].text {
        assert [] + Texts(fs[1..]) == Texts(fs[1..]);
        WindowAccepts(m, fs[1..], n);
      } else {
        var front := Texts(fs)[..n];
        assert front[0] == fs[0] && front[1..] == Texts(fs[1..])[..n - 1];
        if Fits(Counted(m, fs[0])) { WindowAccepts(Counted(m, fs[0]), fs[1..], n - 1); }
      }
    }
  }

  /** A text frame a second or more after its window began opens a new one, whatever came
      before. */
  lemma NewWindow(m: Meter, fs: seq<Frame>, other: Meter)
    requires fs != [] && fs[0].text && fs[0].at - m.window >= SECOND && fs[0].at - other.window >= SECOND
    ensures Accepted(m, fs) == Accepted(other, fs) == Accepted(Meter(fs[0].at, 0, 0), fs)
  {
    var anew := Meter(fs[0].at, 0, 0);
    assert Counted(m, fs[0]) == Counted(other, fs[0]) == Counted(anew, fs[0]);
    AcceptedSplit(m, fs);
    AcceptedSplit(other, fs);
    AcceptedSplit(anew, fs);
  }

  // ----- the bound is reached -----

  function Burst(at: int, n: nat): seq<Frame> {
    if n == 0 then [] else [Frame(true, at, 0)] + Burst(at, n - 1)
  }

  lemma Regroup(a: seq<Frame>, b: seq<Frame>, c: seq<Frame>)
    ensures a + (b + c) == (a + b) + c
  {}

  lemma BurstStarts(at: int, n: nat, rest: seq<Frame>)
    requires n > 0
    ensures var fs := Burst(at, n) + rest;
      fs[0] == Frame(true, at, 0) && fs[1..] == Burst(at, n - 1) + rest && Burst(at, n) == [fs[0]] + Burst(at, n - 1)
  {}

  lemma {:induction false} BurstFits(m: Meter, at: int, n: nat, rest: seq<Frame>)
    requires at - m.window < SECOND && m.msgs + n <= MAX_MSGS && m.bytes == 0
    ensures Accepted(m, Burst(at, n) + rest) == Burst(at, n) + Accepted(m.(msgs := m.msgs + n), rest)
    decreases n
  {
    if n == 0 {
      assert Burst(at, 0) + rest == rest;
    } else {
      var fs := Burst(at, n) + rest;
      BurstStarts(at, n, rest);
      AcceptedSplit(m, fs);
      var m', end := m.(msgs := m.msgs + 1), m.(msgs := m.msgs + n);
      BurstFits(m', at, n - 1, rest);
      assert m'.(msgs := m'.msgs + (n - 1)) == end && Counted(m, fs[0]) == m';
      Regroup([fs[0]], Burst(at, n - 1), Accepted(end, rest));
    }
  }

  lemma {:induction false} BurstOpens(m: Meter, at: int, n: nat)
    requires at - m.window >= SECOND && 0 < n <= MAX_MSGS
    ensures Accepted(m, Burst(at, n)) == Burst(at, n)
  {
    var fs := Burst(at, n);
    assert fs[1..] == Burst(at, n - 1) + [];
    AcceptedSplit(m, fs);
    BurstFits(Counted(m, fs[0]), at, n - 1, []);
    assert Burst(at, n - 1) + [] == Burst(at, n - 1);
  }

  lemma {:induction false} BurstCount(at: int, n: nat, rest: seq<Frame>, lo: int, hi: int)
    requires lo <= at <= hi
    ensures Count(Burst(at, n) + rest, lo, hi) == n + Count(rest, lo, hi)
    decreases n
  {
    if n == 0 {
      assert Burst(at, 0) + rest == rest;
    } else {
      var fs := Burst(at, n) + rest;
      assert fs[0] == Frame(true, at, 0) && fs[1..] == Burst(at, n - 1) + rest;
      BurstCount(at, n - 1, rest, lo, hi);
    }
  }

  lemma {:induction false} BurstMonotone(from: int, at: int, n: nat, rest: seq<Frame>)
    requires from <= at && Monotone(at, rest)
    ensures Monotone(from, Burst(at, n) + rest)
    decreases n
  {
    if n == 0 {
      assert Burst(at, 0) + rest == rest;
      if rest != [] { assert from <= rest[0].at; }
    } else {
      var fs := Burst(at, n) + rest;
      assert fs[0] == Frame(true, at, 0) && fs[1..] == Burst(at, n - 1) + rest;
      BurstMonotone(at, at, n - 1, rest);
    }
  }

  /** No smaller bound holds: a thousand messages at the end of one window and a thousand
      at the start of the next are all accepted, a nanosecond apart. */
  lemma BoundIsReached(start: int) returns (fs: seq<Frame>)
    ensures Monotone(start, fs) && Accepted(Meter(start, 0, 0), fs) == fs
    ensures Count(fs, start + SECOND - 1, start + SECOND) == 2000
  {
    var a, b := start + SECOND - 1, start + SECOND;
    fs := Burst(a, MAX_MSGS) + Burst(b, MAX_MSGS);
    BurstFits(Meter(start, 0, 0), a, MAX_MSGS, Burst(b, MAX_MSGS));
    BurstOpens(Meter(start, MAX_MSGS, 0), b, MAX_MSGS);
    assert Burst(b, MAX_MSGS) + [] == Burst(b, MAX_MSGS);
    BurstCount(b, MAX_MSGS, [], a, b);
    BurstCount(a, MAX_MSGS, Burst(b, MAX_MSGS), a, b);
    BurstMonotone(a, b, MAX_MSGS, []);
    BurstMonotone(start, a, MAX_MSGS, Burst(b, MAX_MSGS));
  }
}
