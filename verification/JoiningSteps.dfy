/** What the server does for one message when nothing happens in between is one of the
    ways the interleaved steps can go. */
module JoiningSteps {
  import opened Wrappers
  import opened StoreSpec
  import opened Wire
  import opened HubSpec
  import opened JoinSpec
  import opened RoomSystem
  import R = RoomSystem
  import opened JoinDesk

  function DeskOf(s: Sys): Desk { Desk(s.held, s.lines) }

  /** Connection id, with this left to do. */
  predicate AtWork(s: Sys, id: Id, todo: seq<Action>) {
    id in s.lines && id in s.loops && s.loops[id].todo == todo
  }

  predicate Composes(a: Action) {
    a.ClaimReply? || a.StatusReply? || a.Broadcast?
  }

  lemma Sends(s: Sys, id: Id, a: Action, rest: seq<Action>) returns (t: Sys)
    requires AtWork(s, id, [a] + rest) && !Composes(a)
    ensures Enabled(s, Acts(id, [])) && t == R.Next(s, Acts(id, []))
    ensures AtWork(t, id, rest) && DeskOf(t) == Do(DeskOf(s), s.room, id, a, []) && t.room == s.room
  {
    t := R.Next(s, Acts(id, []));
    assert ([a] + rest)[1..] == rest;
  }

  /** The message a composing action turns into. */
  function Composed(s: Sys, a: Action, list: seq<Request>): Action
    requires Composes(a)
  {
    match a
    case ClaimReply(ok) => Post(AnswerMsg(s.held, ok, list))
    case StatusReply(q) => Post(JoinStatus(Success(q), InboxPub(s.held)))
    case Broadcast => ToAll(RequestsMsg(s.held, list))
  }

  lemma IsComposed(s: Sys, id: Id, a: Action, rest: seq<Action>, list: seq<Request>) returns (t: Sys)
    requires AtWork(s, id, [a] + rest) && Composes(a) && Quotes(s, list)
    ensures Enabled(s, Acts(id, list)) && t == R.Next(s, Acts(id, list)) && t.room == s.room
    ensures AtWork(t, id, [Composed(s, a, list)] + rest) && DeskOf(t) == DeskOf(s)
    ensures Do(DeskOf(s), s.room, id, a, list) == Do(DeskOf(s), s.room, id, Composed(s, a, list), [])
  {
    t := R.Next(s, Acts(id, list));
    assert ([a] + rest)[1..] == rest;
  }

  lemma RunStarts(s: Sys, e: Event, es: seq<Event>)
    requires Enabled(s, e) && R.Run(R.Next(s, e), es)
    ensures R.Run(s, [e] + es) && R.After(s, [e] + es) == R.After(R.Next(s, e), es)
  {
    assert ([e] + es)[1..] == es;
  }

  ghost predicate QuotesHeld(held: Option<Room>, list: seq<Request>) {
    forall q :: q in list ==> held.Some? && q in held.value.requests.Values
  }

  ghost predicate Doable(held: Option<Room>, todo: seq<Action>, lists: seq<seq<Request>>) {
    && |lists| == |todo|
    && (forall k :: 0 <= k < |todo| && todo[k].Finish? ==> |todo| == 1)
    && (forall k :: 0 <= k < |todo| ==> QuotesHeld(held, lists[k]) && (!Composes(todo[k]) ==> lists[k] == []))
  }

  /** Carried out one after the other, the actions come to DoAll. */
  lemma {:induction false} Uninterrupted(s: Sys, id: Id, todo: seq<Action>, lists: seq<seq<Request>>)
    returns (es: seq<Event>)
    requires AtWork(s, id, todo) && Doable(s.held, todo, lists)
    ensures R.Run(s, es) && DeskOf(R.After(s, es)) == DoAll(DeskOf(s), s.room, id, todo, lists)
    decreases |todo|
  {
    if todo == [] {
      return [];
    }
    var a, rest := todo[0], todo[1..];
    assert todo == [a] + rest;
    DoKeepsLines(DeskOf(s), s.room, id, a, lists[0]);
    var t := s;
    if Composes(a) {
      t := IsComposed(s, id, a, rest, lists[0]);
    }
    var u := Sends(t, id, if Composes(a) then Composed(s, a, lists[0]) else a, rest);
    es := Uninterrupted(u, id, rest, lists[1..]);
    RunStarts(t, Acts(id, []), es);
    es := [Acts(id, [])] + es;
    if Composes(a) {
      RunStarts(s, Acts(id, lists[0]), es);
      es := [Acts(id, lists[0])] + es;
    }
  }

  lemma PendingQuotesHeld(held: Option<Room>, list: seq<Request>, now: int)
    requires IsPendingList(list, held, now)
    ensures QuotesHeld(held, list)
  {
    forall q | q in list ensures held.Some? && q in held.value.requests.Values {
      assert q in PendingSet(held, now);
    }
  }

  lemma HandledIsDoable(held: Option<Room>, reqID: Option<Digest>, u: Up, now: int, lists: seq<seq<Request>>)
    requires !Forwarded(u)
    requires var e := Handle(held, reqID, u, now);
      |lists| == |e.todo| && forall k :: 0 <= k < |lists| ==> Quoted(e.todo[k], lists[k], e.held, now)
    ensures var e := Handle(held, reqID, u, now); Doable(e.held, e.todo, lists)
  {
    var e := Handle(held, reqID, u, now);
    forall k | 0 <= k < |lists| ensures QuotesHeld(e.held, lists[k]) && (!Composes(e.todo[k]) ==> lists[k] == []) {
      if e.todo[k].Broadcast? || e.todo[k] == ClaimReply(true) { PendingQuotesHeld(e.held, lists[k], now); }
    }
  }

  /** Whatever the handler does to store and connections, the interleaved steps can do:
      reading the message, then its actions with nothing in between. */
  lemma HandlingIsARun(s: Sys, id: Id, now: int, d: Desk, lists: seq<seq<Request>>) returns (es: seq<Event>)
    requires Enabled(s, Reads(id, now)) && !Forwarded(s.loops[id].up[0])
    requires Handles(DeskOf(s), d, s.room, id, s.loops[id].up[0], now, lists)
    ensures R.Run(s, es) && DeskOf(R.After(s, es)) == d
  {
    var u := s.loops[id].up[0];
    var e := Handle(s.held, s.lines[id].reqID, u, now);
    var t := R.Next(s, Reads(id, now));
    HandledIsDoable(s.held, s.lines[id].reqID, u, now, lists);
    assert AtWork(t, id, e.todo) && t.held == e.held && t.room == s.room;
    es := Uninterrupted(t, id, e.todo, lists);
    RunStarts(s, Reads(id, now), es);
    es := [Reads(id, now)] + es;
  }
}
