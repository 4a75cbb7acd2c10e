/** Properties of the join-request store over whole runs. */
module StoreTheorems {
  import opened Wrappers
  import opened Window
  import opened StoreSpec
  import Codec

  // ===== 1. Well-formed requests and their life =====

  /** The key is the hash of the public key, approver key and wrap exist exactly when
      approved, and the message limit holds. */
  ghost predicate GoodRequest(id: Digest, q: Request) {
    && q.id == id == Sha256(q.pub)
    && (q.status == Approved <==> q.approverPub != "")
    && (q.status == Approved <==> q.wrap != "")
    && |q.messages| <= MAX_MSGS
  }

  ghost predicate GoodRoom(r: Option<Room>) {
    r.Some? ==> forall id :: id in r.value.requests ==> GoodRequest(id, r.value.requests[id])
  }

  lemma StepKeepsGood(r: Option<Room>, now: int, retention: int, op: Op)
    requires GoodRoom(r)
    ensures GoodRoom(Next(r, now, retention, op))
  {
    if op.DecideOp? && op.verdict.Approve? && ValidVerdict(op.verdict) {
      EmptyIsNoKey();
    }
  }

  lemma EmptyIsNoKey()
    ensures !Codec.ValidPub("")
  {}

  lemma {:induction false} RunKeepsGood(r: Option<Room>, retention: int, run: Run)
    requires GoodRoom(r)
    ensures GoodRoom(After(r, retention, run))
    decreases |run|
  {
    if run != [] {
      StepKeepsGood(r, run[0].0, retention, run[0].1);
      RunKeepsGood(Next(r, run[0].0, retention, run[0].1), retention, run[1..]);
    }
  }

  /** How one incarnation of a request may change: messages only grow, and only while
      pending; a verdict, with its key and wrap, is final. */
  ghost predicate Evolves(q: Request, q': Request) {
    && q'.id == q.id && q'.pub == q.pub && q'.created == q.created
    && q.messages <= q'.messages
    && (q.status != Pending ==>
          q'.status == q.status && q'.approverPub == q.approverPub && q'.wrap == q.wrap && q'.messages == q.messages)
  }

  /** The only way an id gets a new incarnation while it has one. */
  ghost predicate Replaces(r: Option<Room>, now: int, op: Op, id: Digest) {
    && op.SubmitOp? && id == Sha256(op.pub) && Codec.ValidPub(op.pub)
    && r.Some? && id in r.value.requests && Expired(r.value.requests[id], now)
    && |LiveIds(r.value, now)| < MAX_PENDING
  }

  ghost predicate Has(r: Option<Room>, id: Digest) {
    r.Some? && id in r.value.requests
  }

  lemma StepEvolves(r: Option<Room>, now: int, retention: int, op: Op, id: Digest)
    requires Has(r, id) && GoodRoom(r)
    ensures var next := Next(r, now, retention, op);
      Has(next, id) && !Replaces(r, now, op, id) ==> Evolves(r.value.requests[id], next.value.requests[id])
    ensures var next := Next(r, now, retention, op);
      Replaces(r, now, op, id) ==>
        Has(next, id) && next.value.requests[id] == NewRequest(op.name, op.pub, now)
  {}

  /** A request disappears only when the applicant has the key, or it or its room expired. */
  lemma RemovalCauses(r: Option<Room>, now: int, retention: int, op: Op, id: Digest)
    requires Has(r, id)
    ensures !Has(Next(r, now, retention, op), id) <==>
      || (op == DoneOp(id) && r.value.requests[id].status == Approved)
      || (op.PurgeOp? && (Stale(r.value, now, retention) || Expired(r.value.requests[id], now)))
  {}

  /** The run never removes or replaces the request filed under id. */
  ghost predicate Keeps(r: Option<Room>, retention: int, run: Run, id: Digest)
    decreases |run|
  {
    && Has(r, id)
    && (run == [] ||
          (!Replaces(r, run[0].0, run[0].1, id) && Keeps(Next(r, run[0].0, retention, run[0].1), retention, run[1..], id)))
  }

  lemma {:induction false} IncarnationEvolves(r: Option<Room>, retention: int, run: Run, id: Digest)
    requires GoodRoom(r) && Keeps(r, retention, run, id)
    ensures Has(After(r, retention, run), id)
    ensures Evolves(r.value.requests[id], After(r, retention, run).value.requests[id])
    decreases |run|
  {
    if run != [] {
      var next := Next(r, run[0].0, retention, run[0].1);
      StepEvolves(r, run[0].0, retention, run[0].1, id);
      StepKeepsGood(r, run[0].0, retention, run[0].1);
      IncarnationEvolves(next, retention, run[1..], id);
    }
  }

  /** How many verdicts on id the run accepts. */
  ghost function Verdicts(r: Option<Room>, retention: int, run: Run, id: Digest): nat
    decreases |run|
  {
    if run == [] then 0 else
      var (now, op) := run[0];
      (if op.DecideOp? && op.id == id && Decide(r, now, id, op.verdict).1.Success? then 1 else 0)
      + Verdicts(Next(r, now, retention, op), retention, run[1..], id)
  }

  /** One incarnation is decided at most once, and is decided at the end exactly when a
      verdict was accepted or it was decided to begin with. */
  lemma {:induction false} DecidedAtMostOnce(r: Option<Room>, retention: int, run: Run, id: Digest)
    requires GoodRoom(r) && Keeps(r, retention, run, id)
    ensures Has(After(r, retention, run), id)
    ensures Verdicts(r, retention, run, id) + (if r.value.requests[id].status == Pending then 0 else 1)
         == if After(r, retention, run).value.requests[id].status == Pending then 0 else 1
    decreases |run|
  {
    if run != [] {
      StepEvolves(r, run[0].0, retention, run[0].1, id);
      StepKeepsGood(r, run[0].0, retention, run[0].1);
      DecidedAtMostOnce(Next(r, run[0].0, retention, run[0].1), retention, run[1..], id);
    }
  }

  // ===== 2. At most ten live pending requests =====

  lemma LiveShrinks(r: Room, t0: int, t1: int)
    requires t0 <= t1
    ensures LiveIds(r, t1) <= LiveIds(r, t0)
    ensures |LiveIds(r, t1)| <= |LiveIds(r, t0)|
  {
    SubsetSize(LiveIds(r, t1), LiveIds(r, t0));
  }

  ghost function LiveCount(r: Option<Room>, now: int): nat {
    if r.None? then 0 else |LiveIds(r.value, now)|
  }

  lemma LiveGrowsByOne(r: Option<Room>, now: int, op: Op)
    requires op.SubmitOp?
    ensures LiveCount(Next(r, now, 0, op), now) <=
            if LiveCount(r, now) < MAX_PENDING then LiveCount(r, now) + 1 else LiveCount(r, now)
  {
    var next := Next(r, now, 0, op);
    if r.Some? {
      var id := Sha256(op.pub);
      if id in r.value.requests && !Expired(r.value.requests[id], now) {
        SubsetSize(LiveIds(next.value, now), LiveIds(r.value, now));
      } else {
        SubsetSize(LiveIds(next.value, now), LiveIds(r.value, now) + {id});
      }
    }
  }

  /** Only a submission, or a message to a request that already expired, adds a live
      pending request. */
  lemma LiveNeverGrowsOtherwise(r: Option<Room>, now: int, retention: int, op: Op)
    requires !op.SubmitOp? && !(op.MessageOp? && HitsExpired(r, now, op))
    ensures LiveCount(Next(r, now, retention, op), now) <= LiveCount(r, now)
  {
    var next := Next(r, now, retention, op);
    if r.Some? && next.Some? {
      forall id | id in LiveIds(next.value, now) ensures id in LiveIds(r.value, now) {}
      SubsetSize(LiveIds(next.value, now), LiveIds(r.value, now));
    }
  }

  /** The run sends no message to an expired request. */
  ghost predicate NoLateMessage(r: Option<Room>, retention: int, run: Run)
    decreases |run|
  {
    run == [] ||
      (!(run[0].1.MessageOp? && HitsExpired(r, run[0].0, run[0].1))
       && NoLateMessage(Next(r, run[0].0, retention, run[0].1), retention, run[1..]))
  }

  lemma StepKeepsCap(r: Option<Room>, from: int, now: int, retention: int, op: Op)
    requires from <= now && LiveCount(r, from) <= MAX_PENDING
    requires !(op.MessageOp? && HitsExpired(r, now, op))
    ensures LiveCount(Next(r, now, retention, op), now) <= MAX_PENDING
  {
    if r.Some? { LiveShrinks(r.value, from, now); }
    if op.SubmitOp? { LiveGrowsByOne(r, now, op); } else { LiveNeverGrowsOtherwise(r, now, retention, op); }
  }

  ghost function LastTime(from: int, run: Run): int {
    if run == [] then from else run[|run| - 1].0
  }

  /** Main theorem: the cap holds at every moment of every such run. */
  lemma {:induction false} PendingCap(r: Option<Room>, from: int, retention: int, run: Run)
    requires Monotone(from, run) && NoLateMessage(r, retention, run)
    requires LiveCount(r, from) <= MAX_PENDING
    ensures LiveCount(After(r, retention, run), LastTime(from, run)) <= MAX_PENDING
    decreases |run|
  {
    if run != [] {
      StepKeepsCap(r, from, run[0].0, retention, run[0].1);
      PendingCap(Next(r, run[0].0, retention, run[0].1), run[0].0, retention, run[1..]);
    }
  }

  /** The side condition is needed: a late message breaks the cap exactly when it is
      accepted while the room is already full. */
  lemma LateMessageBreaksCap(r: Option<Room>, now: int, op: Op)
    requires op.MessageOp? && HitsExpired(r, now, op) && LiveCount(r, now) <= MAX_PENDING
    ensures LiveCount(Next(r, now, 0, op), now) > MAX_PENDING <==>
      && LiveCount(r, now) == MAX_PENDING
      && ValidMessage(op.msgId, op.data) && |r.value.requests[op.id].messages| < MAX_MSGS
  {
    if ValidMessage(op.msgId, op.data) && |r.value.requests[op.id].messages| < MAX_MSGS {
      var next := Next(r, now, 0, op);
      assert op.id !in LiveIds(r.value, now);
      assert LiveIds(next.value, now) == LiveIds(r.value, now) + {op.id};
    }
  }

  /** A message to an expired request is accepted while the room is full. */
  ghost predicate Overfills(r: Option<Room>, now: int, op: Op) {
    && op.MessageOp? && HitsExpired(r, now, op) && LiveCount(r, now) == MAX_PENDING
    && ValidMessage(op.msgId, op.data) && |r.value.requests[op.id].messages| < MAX_MSGS
  }

  ghost predicate NeverOverfills(r: Option<Room>, retention: int, run: Run)
    decreases |run|
  {
    run == [] ||
      (!Overfills(r, run[0].0, run[0].1) && NeverOverfills(Next(r, run[0].0, retention, run[0].1), retention, run[1..]))
  }

  /** The cap holds after every operation; in between, requests only expire. */
  ghost predicate CapHolds(r: Option<Room>, retention: int, run: Run)
    decreases |run|
  {
    run == [] ||
      (var next := Next(r, run[0].0, retention, run[0].1);
       LiveCount(next, run[0].0) <= MAX_PENDING && CapHolds(next, retention, run[1..]))
  }

  lemma StepCapIff(r: Option<Room>, from: int, now: int, retention: int, op: Op)
    requires from <= now && LiveCount(r, from) <= MAX_PENDING
    ensures LiveCount(Next(r, now, retention, op), now) <= MAX_PENDING <==> !Overfills(r, now, op)
  {
    if r.Some? { LiveShrinks(r.value, from, now); }
    if op.MessageOp? && HitsExpired(r, now, op) {
      LateMessageBreaksCap(r, now, op);
    } else {
      StepKeepsCap(r, from, now, retention, op);
    }
  }

  /** Exactly when the cap holds along a whole run: no message to an expired request is
      accepted while ten are live. */
  lemma {:induction false} CapHoldsIff(r: Option<Room>, from: int, retention: int, run: Run)
    requires Monotone(from, run) && LiveCount(r, from) <= MAX_PENDING
    ensures CapHolds(r, retention, run) <==> NeverOverfills(r, retention, run)
    decreases |run|
  {
    if run != [] {
      var (now, op) := run[0];
      StepCapIff(r, from, now, retention, op);
      if !Overfills(r, now, op) { CapHoldsIff(Next(r, now, retention, op), now, retention, run[1..]); }
    }
  }

  // --- a run that breaks it ---

  /** Eleven applicants. */
  ghost predicate Applicants(pubs: seq<string>) {
    && |pubs| == 11
    && (forall i :: 0 <= i < 11 ==> Codec.ValidPub(pubs[i]))
    && (forall i, j :: 0 <= i < j < 11 ==> pubs[i] != pubs[j])
  }

  function Point(i: nat): seq<Records.byte>
    requires i < 256
  {
    [4, i as Records.byte] + seq(63, _ => 0)
  }

  lemma ApplicantsExist() returns (pubs: seq<string>)
    ensures Applicants(pubs)
  {
    pubs := seq(11, i requires 0 <= i < 11 => Codec.B64uOf(Point(i)));
    forall i | 0 <= i < 11 ensures Codec.RawUrlDecode(pubs[i]) == Some(Point(i)) && Codec.ValidPub(pubs[i]) {
      Codec.EncodedPointIsValid(Point(i));
    }
    forall i, j | 0 <= i < j < 11 ensures pubs[i] != pubs[j] {
      assert Point(i)[1] != Point(j)[1];
    }
  }

  const LATE := REQUEST_TTL + 1

  /** The first applicant at time 0, then n more of them just after it expired. */
  ghost function Crowded(pubs: seq<string>, n: nat): Option<Room>
    requires |pubs| == 11 && n <= 10
  {
    if n == 0 then Next(Next(None, 0, 0, ClaimOp(true, "")), 0, 0, SubmitOp("first", pubs[0]))
    else Submit(Crowded(pubs, n - 1), LATE, "late", pubs[n]).0
  }

  lemma {:induction false} CrowdedRoom(pubs: seq<string>, n: nat)
    requires Applicants(pubs) && n <= 10
    ensures Crowded(pubs, n).Some?
    ensures |LiveIds(Crowded(pubs, n).value, LATE)| == n
    ensures forall id :: id in Crowded(pubs, n).value.requests ==> exists i :: 0 <= i <= n && id == Sha256(pubs[i])
    ensures Has(Crowded(pubs, n), Sha256(pubs[0]))
    ensures Crowded(pubs, n).value.requests[Sha256(pubs[0])] == NewRequest("first", pubs[0], 0)
  {
    if n == 0 {
      var room := Crowded(pubs, 0).value;
      assert room.requests == map[Sha256(pubs[0]) := NewRequest("first", pubs[0], 0)];
      assert LiveIds(room, LATE) == {};
    } else {
      CrowdedRoom(pubs, n - 1);
      var before, id := Crowded(pubs, n - 1).value, Sha256(pubs[n]);
      assert id !in before.requests;
      NewcomerIsLive(before, LATE, "late", pubs[n]);
    }
  }

  lemma NewcomerIsFiled(before: Room, now: int, name: string, pub: string)
    requires Codec.ValidPub(pub) && Sha256(pub) !in before.requests && |LiveIds(before, now)| < MAX_PENDING
    ensures Submit(Some(before), now, name, pub).0 ==
            Some(before.(requests := before.requests[Sha256(pub) := NewRequest(name, pub, now)]))
  {}

  lemma NewcomerCounts(before: Room, now: int, id: Digest, q: Request)
    requires id !in before.requests && LivePending(q, now)
    ensures |LiveIds(before.(requests := before.requests[id := q]), now)| == |LiveIds(before, now)| + 1
  {
    assert LiveIds(before.(requests := before.requests[id := q]), now) == LiveIds(before, now) + {id};
  }

  lemma SubmitIsNext(r: Option<Room>, now: int, name: string, pub: string)
    ensures Next(r, now, 0, SubmitOp(name, pub)) == Submit(r, now, name, pub).0
  {}

  lemma NewcomerIsLive(before: Room, now: int, name: string, pub: string)
    requires Codec.ValidPub(pub) && Sha256(pub) !in before.requests && |LiveIds(before, now)| < MAX_PENDING
    ensures var next := Submit(Some(before), now, name, pub).0;
      && next == Some(before.(requests := before.requests[Sha256(pub) := NewRequest(name, pub, now)]))
      && |LiveIds(next.value, now)| == |LiveIds(before, now)| + 1
  {
    var q := NewRequest(name, pub, now);
    NewcomerIsFiled(before, now, name, pub);
    NewcomerCounts(before, now, Sha256(pub), q);
  }

  /** The same as a run from an empty store, ending with a message that revives the
      first applicant's request. */
  ghost function CrowdedRun(pubs: seq<string>, n: nat): Run
    requires |pubs| == 11 && n <= 10
  {
    if n == 0 then [(0, ClaimOp(true, "")), (0, SubmitOp("first", pubs[0]))]
    else CrowdedRun(pubs, n - 1) + [(LATE, SubmitOp("late", pubs[n]))]
  }

  lemma {:induction false} RunOneMore(r: Option<Room>, from: int, run: Run, e: (int, Op))
    requires Monotone(from, run) && LastTime(from, run) <= e.0
    ensures After(r, 0, run + [e]) == Next(After(r, 0, run), e.0, 0, e.1)
    ensures Monotone(from, run + [e])
    decreases |run|
  {
    if run == [] {
      assert run + [e] == [e];
    } else {
      assert (run + [e])[1..] == run[1..] + [e];
      RunOneMore(Next(r, run[0].0, 0, run[0].1), run[0].0, run[1..], e);
    }
  }

  lemma {:induction false} CrowdedRunIs(pubs: seq<string>, n: nat)
    requires |pubs| == 11 && n <= 10
    ensures After(None, 0, CrowdedRun(pubs, n)) == Crowded(pubs, n)
    ensures Monotone(0, CrowdedRun(pubs, n)) && LastTime(0, CrowdedRun(pubs, n)) <= LATE
  {
    if n == 0 {
      var e0, e1 := (0, ClaimOp(true, "")), (0, SubmitOp("first", pubs[0]));
      RunOneMore(None, 0, [], e0);
      assert [] + [e0] == [e0] && [e0] + [e1] == [e0, e1];
      RunOneMore(None, 0, [e0], e1);
    } else {
      CrowdedRunIs(pubs, n - 1);
      SubmitIsNext(Crowded(pubs, n - 1), LATE, "late", pubs[n]);
      RunOneMore(None, 0, CrowdedRun(pubs, n - 1), (LATE, SubmitOp("late", pubs[n])));
    }
  }

  /** Without the side condition the cap fails: a monotone run from an empty store after
      which more than ten requests are pending and live. */
  lemma CapCanBreak() returns (run: Run)
    ensures Monotone(0, run) && LiveCount(After(None, 0, run), LastTime(0, run)) > MAX_PENDING
  {
    var pubs := ApplicantsExist();
    CrowdedRoom(pubs, 10);
    CrowdedRunIs(pubs, 10);
    var op := MessageOp(Sha256(pubs[0]), "m", "c");
    RunOneMore(None, 0, CrowdedRun(pubs, 10), (LATE, op));
    LateMessageBreaksCap(Crowded(pubs, 10), LATE, op);
    run := CrowdedRun(pubs, 10) + [(LATE, op)];
  }

  // ===== 3. Purging cannot be observed =====

  /** p is u after some purging that is justified at now. */
  ghost predicate Purged(p: Option<Room>, u: Option<Room>, now: int, retention: int) {
    match (p, u)
    case (None, None) => true
    case (None, Some(ur)) => Stale(ur, now, retention)
    case (Some(_), None) => false
    case (Some(pr), Some(ur)) =>
      && pr.created == ur.created && pr.lastActive == ur.lastActive && pr.inboxPub == ur.inboxPub
      && (forall id :: id in pr.requests ==> id in ur.requests && pr.requests[id] == ur.requests[id])
      && (forall id :: id in ur.requests && id !in pr.requests ==> Expired(ur.requests[id], now))
  }

  /** The room is within its retention, and the operation does not address a request
      that is past its own. */
  ghost predicate InTime(u: Option<Room>, now: int, retention: int, op: Op) {
    && (u.Some? ==> !Stale(u.value, now, retention))
    && !HitsExpired(u, now, op)
  }

  lemma PurgedLater(p: Option<Room>, u: Option<Room>, t0: int, t1: int, retention: int)
    requires Purged(p, u, t0, retention) && t0 <= t1
    ensures Purged(p, u, t1, retention)
  {}

  lemma SameLive(p: Room, u: Room, now: int, retention: int)
    requires Purged(Some(p), Some(u), now, retention)
    ensures LiveIds(p, now) == LiveIds(u, now)
  {}

  /** Every operation in time answers alike on both, and keeps them alike. */
  lemma StepUnobservable(p: Option<Room>, u: Option<Room>, now: int, retention: int, op: Op)
    requires Purged(p, u, now, retention) && InTime(u, now, retention, op) && !op.PurgeOp?
    ensures Apply(p, now, retention, op).1 == Apply(u, now, retention, op).1
    ensures Purged(Next(p, now, retention, op), Next(u, now, retention, op), now, retention)
  {
    if op.PendingQuery? {
      SameList(p, u, now, retention);
    } else if p.Some? && op.SubmitOp? {
      SameLive(p.value, u.value, now, retention);
    }
  }

  lemma SameList(p: Option<Room>, u: Option<Room>, now: int, retention: int)
    requires Purged(p, u, now, retention) && (u.Some? ==> !Stale(u.value, now, retention))
    ensures PendingSet(p, now) == PendingSet(u, now)
  {
    if p.Some? {
      SameLive(p.value, u.value, now, retention);
      assert forall id :: id in LiveIds(p.value, now) ==> p.value.requests[id] == u.value.requests[id];
    }
  }

  lemma PurgeKeepsPurged(p: Option<Room>, u: Option<Room>, now: int, retention: int)
    requires Purged(p, u, now, retention)
    ensures Purged(Purge(p, now, retention), u, now, retention)
  {}

  /** The run with its purges left out. */
  ghost function Outputs(r: Option<Room>, retention: int, run: Run, purging: bool): seq<Out>
    decreases |run|
  {
    if run == [] then [] else
      var (now, op) := run[0];
      if op.PurgeOp? && !purging then [Silent] + Outputs(r, retention, run[1..], purging)
      else [Apply(r, now, retention, op).1] + Outputs(Next(r, now, retention, op), retention, run[1..], purging)
  }

  ghost predicate AllInTime(u: Option<Room>, retention: int, run: Run)
    decreases |run|
  {
    run == [] ||
      (var (now, op) := run[0];
       if op.PurgeOp? then AllInTime(u, retention, run[1..])
       else InTime(u, now, retention, op) && AllInTime(Next(u, now, retention, op), retention, run[1..]))
  }

  /** Main theorem: purging at arbitrary times changes no answer of the whole run. */
  lemma {:induction false} PurgeUnobservable(p: Option<Room>, u: Option<Room>, from: int, retention: int, run: Run)
    requires Purged(p, u, from, retention) && Monotone(from, run) && AllInTime(u, retention, run)
    ensures Outputs(p, retention, run, true) == Outputs(u, retention, run, false)
    decreases |run|
  {
    if run != [] {
      var (now, op) := run[0];
      PurgedLater(p, u, from, now, retention);
      if op.PurgeOp? {
        PurgeKeepsPurged(p, u, now, retention);
        PurgeUnobservable(Purge(p, now, retention), u, now, retention, run[1..]);
      } else {
        StepUnobservable(p, u, now, retention, op);
        PurgeUnobservable(Next(p, now, retention, op), Next(u, now, retention, op), now, retention, run[1..]);
      }
    }
  }

  /** Where the side condition fails the difference shows: a well-formed verdict reveals a
      purge exactly when it addresses a pending request that was purged. */
  lemma VerdictSeesPurge(p: Option<Room>, u: Option<Room>, now: int, retention: int, id: Digest, v: Verdict)
    requires Purged(p, u, now, retention) && p.Some? && ValidVerdict(v)
    ensures Apply(p, now, retention, DecideOp(id, v)).1 != Apply(u, now, retention, DecideOp(id, v)).1
       <==> IsPending(u, id) && !Has(p, id)
  {}

  // ===== 4. Decisions endure =====

  ghost predicate Asks(op: Op, q: Request) {
    op.SubmitOp? && op.pub == q.pub
  }

  /** What happens to the decided request q: not purged with its room, not collected once
      approved, and asked about again before its time is up.  since is the time of the
      verdict or of the last attempt after it. */
  ghost predicate Undisturbed(r: Option<Room>, retention: int, run: Run, q: Request, since: int)
    decreases |run|
  {
    run == [] ||
      (var (now, op) := run[0];
       && (op.PurgeOp? && r.Some? ==> !Stale(r.value, now, retention))
       && !(op == DoneOp(q.id) && q.status == Approved)
       && (op.PurgeOp? || Asks(op, q) ==> now - since <= Ttl(q.status))
       && Undisturbed(Next(r, now, retention, op), retention, run[1..], q, if Asks(op, q) then now else since))
  }

  /** Every submission of pub during the run is answered with q's verdict, key and wrap. */
  ghost predicate AlwaysAnswered(r: Option<Room>, retention: int, run: Run, q: Request)
    decreases |run|
  {
    run == [] ||
      (var (now, op) := run[0];
       && (op.SubmitOp? && op.pub == q.pub ==>
             var a := Submit(r, now, op.name, op.pub).1;
             a.Success? && a.value.(updated := 0) == q.(updated := 0))
       && AlwaysAnswered(Next(r, now, retention, op), retention, run[1..], q))
  }

  /** Main theorem: a verdict stands for 24 hours (rejected) or 7 days (approved) from the
      verdict or the applicant's last attempt, across every interleaving with purges and
      with other applicants. */
  lemma {:induction false} DecisionsEndure(r: Option<Room>, retention: int, run: Run, q: Request, since: int)
    requires Has(r, q.id) && r.value.requests[q.id] == q.(updated := since)
    requires GoodRequest(q.id, q) && Codec.ValidPub(q.pub) && q.status != Pending
    requires Undisturbed(r, retention, run, q, since)
    ensures AlwaysAnswered(r, retention, run, q)
    decreases |run|
  {
    if run != [] {
      var (now, op) := run[0];
      DecidedStep(r, now, retention, op, q, since);
      DecisionsEndure(Next(r, now, retention, op), retention, run[1..], q, if Asks(op, q) then now else since);
    }
  }

  lemma DecidedStep(r: Option<Room>, now: int, retention: int, op: Op, q: Request, since: int)
    requires Has(r, q.id) && r.value.requests[q.id] == q.(updated := since)
    requires GoodRequest(q.id, q) && Codec.ValidPub(q.pub) && q.status != Pending
    requires !(op == DoneOp(q.id) && q.status == Approved)
    requires op.PurgeOp? ==> !Stale(r.value, now, retention)
    requires op.PurgeOp? || Asks(op, q) ==> now - since <= Ttl(q.status)
    ensures var next := Next(r, now, retention, op);
      Has(next, q.id) && next.value.requests[q.id] == q.(updated := if Asks(op, q) then now else since)
  {}

  /** And no longer: the first attempt after that is treated as a new application. */
  lemma DecisionLapses(r: Option<Room>, now: int, q: Request, name: string)
    requires Has(r, q.id) && r.value.requests[q.id] == q && GoodRequest(q.id, q) && Codec.ValidPub(q.pub)
    requires q.status != Pending
    ensures now - q.updated > Ttl(q.status) <==>
      Submit(r, now, name, q.pub).1 in {Success(NewRequest(name, q.pub, now)), Failure(TooMany)}
  {}
}
