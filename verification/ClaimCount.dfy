/** Counting the claims and answers under way on a connection. */
module ClaimCount {
  import opened Wrappers
  import opened Wire
  import opened JoinSpec
  import opened RoomSystem

  function Count<T>(s: seq<T>, p: T -> bool): nat {
    if s == [] then 0 else Count(s[..|s| - 1], p) + (if p(s[|s| - 1]) then 1 else 0)
  }

  lemma {:induction false} CountConcat<T>(s: seq<T>, t: seq<T>, p: T -> bool)
    ensures Count(s + t, p) == Count(s, p) + Count(t, p)
    decreases |t|
  {
    if t == [] {
      assert s + t == s;
    } else {
      assert (s + t)[..|s + t| - 1] == s + t[..|t| - 1];
      CountConcat(s, t[..|t| - 1], p);
    }
  }

  lemma CountOne<T>(x: T, p: T -> bool)
    ensures Count([x], p) == if p(x) then 1 else 0
  {
    assert [x][..0] == [];
  }

  lemma CountTail<T>(s: seq<T>, p: T -> bool)
    requires s != []
    ensures Count(s, p) == (if p(s[0]) then 1 else 0) + Count(s[1..], p)
  {
    assert s == [s[0]] + s[1..];
    CountConcat([s[0]], s[1..], p);
    CountOne(s[0], p);
  }

  lemma {:induction false} CountNone<T>(s: seq<T>, p: T -> bool)
    requires forall x :: x in s ==> !p(x)
    ensures Count(s, p) == 0
  {
    if s != [] { CountNone(s[..|s| - 1], p); }
  }

  lemma {:induction false} CountZero<T>(s: seq<T>, p: T -> bool, x: T)
    requires Count(s, p) == 0 && x in s
    ensures !p(x)
  {
    if x != s[|s| - 1] {
      SplitLast(s);
      CountZero(s[..|s| - 1], p, x);
    }
  }

  predicate ClaimUp(u: Up) { u.ClaimRoom? }
  predicate ClaimAct(a: Action) { a.ClaimReply? || (a.Post? && a.msg.ClaimResult?) }
  predicate ClaimMsg(m: Msg) { m.ClaimResult? }
  predicate WelcomeMsg(m: Msg) { m.Welcome? }

  /** Messages that end no wait. */
  predicate Quiet(m: Msg) {
    !m.ClaimResult? && !m.Welcome?
  }

  function Claims(l: Loop, d: seq<Msg>): nat {
    Count(l.up, ClaimUp) + Count(l.todo, ClaimAct) + Count(d, ClaimMsg)
  }
}
