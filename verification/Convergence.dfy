/** Convergence of the history exchange, over every schedule.

    Here a browser's history is the set of its records and the set of receipts
    saying who read which.  A sync is three separate steps: an ask (the ids in the
    asker's window and a cut-off), an answer computed later from another browser's
    window, and a merge that happens later still.  The network below may delay,
    reorder, repeat, cut short or lose any of them. */
module Convergence {
  import opened Window

  datatype Receipt = Receipt(of: Stamp, reader: string)
  datatype Hist = Hist(records: set<Stamp>, receipts: set<Receipt>)
  type Client = nat

  /** A history-req: the ids in the asker's window, and the cut-off. */
  datatype Ask = Ask(have: set<string>, since: int)

  ghost function Ids(s: set<Stamp>): set<string> {
    set x | x in s :: x.id
  }

  ghost predicate IsOldestTs(w: set<Stamp>, ts: int) {
    (exists x :: x in w && x.ts == ts) && forall x :: x in w ==> ts <= x.ts
  }

  ghost predicate IsAskOf(ask: Ask, h: Hist) {
    var w := Recent(h.records);
    && ask.have == Ids(w)
    && (|w| < HISTORY_LIMIT ==> ask.since == 0)
    && (|w| >= HISTORY_LIMIT ==> IsOldestTs(w, ask.since))
  }

  ghost predicate Wants(ask: Ask, s: Stamp) {
    s.ts >= ask.since && s.id !in ask.have
  }

  /** Of the answerer's window: the records the asker lacks, with their receipts,
      and the receipts of the records the asker named. */
  ghost function AnswerTo(ask: Ask, h: Hist): Hist {
    var w := Recent(h.records);
    Hist(set s | s in w && Wants(ask, s),
         set r | r in h.receipts && r.of in w && (Wants(ask, r.of) || r.of.id in ask.have))
  }

  /** What a browser holding h takes of a: every record, and the receipts but those for
      unknown records and an author's for a record already held. */
  ghost function Landed(h: Hist, a: Hist): Hist {
    Hist(a.records, set r | r in a.receipts && Taken(h, a, r))
  }

  ghost predicate Taken(h: Hist, a: Hist, r: Receipt) {
    if r.of in h.records then r.reader != r.of.author else r.of in a.records
  }

  ghost function Join(a: Hist, b: Hist): Hist {
    Hist(a.records + b.records, a.receipts + b.receipts)
  }

  /** Records are stored when new and otherwise only lend their receipts. */
  ghost function Merge(h: Hist, a: Hist): Hist {
    Join(h, Landed(h, a))
  }

  // ----- the network -----

  datatype AskMsg = AskMsg(from: Client, ask: Ask)

  /** An answer travels in parts; got is what has landed of it so far.  carries is the set
      of clients whose initial history had flowed to its sender. */
  datatype AnswerMsg = AnswerMsg(to: Client, answer: Hist, carries: set<Client>, got: Hist)

  /** asks and answers are everything ever sent.  reach[i] is the set of clients
      whose initial history has had a way to flow to i. */
  datatype Net = Net(hist: map<Client, Hist>, asks: seq<AskMsg>, answers: seq<AnswerMsg>,
                     reach: map<Client, set<Client>>)

  /** A part of an answer may arrive at any time, any number of times, or never.  A client
      also learns, outside any exchange, of what another holds. */
  datatype Step =
    | SendAsk(i: Client, ask: Ask)
    | SendAnswer(j: Client, k: nat)
    | Deliver(m: nat, part: Hist)
    | Learn(i: Client, j: Client, part: Hist)

  ghost predicate Within(a: Hist, b: Hist) {
    a.records <= b.records && a.receipts <= b.receipts
  }

  ghost predicate Enabled(net: Net, step: Step) {
    match step
    case SendAsk(i, ask) => i in net.hist && IsAskOf(ask, net.hist[i])
    case SendAnswer(j, k) =>
      j in net.hist && j in net.reach && k < |net.asks| && net.asks[k].from in net.reach
    case Deliver(m, part) =>
      && m < |net.answers| && net.answers[m].to in net.hist && net.answers[m].to in net.reach
      && Within(part, net.answers[m].answer)
    case Learn(i, j, part) => i in net.hist && j in net.hist && Within(part, net.hist[j])
  }

  /** Once all of an answer has landed, what it carries has reached the asker. */
  ghost function Credit(reach: map<Client, set<Client>>, msg: AnswerMsg): map<Client, set<Client>>
    requires msg.to in reach
  {
    if Within(msg.answer, msg.got) then reach[msg.to := reach[msg.to] + msg.carries] else reach
  }

  ghost function Arrived(msg: AnswerMsg, h: Hist, part: Hist): AnswerMsg {
    msg.(got := Join(msg.got, Landed(h, part)))
  }

  ghost function Next(net: Net, step: Step): Net {
    if !Enabled(net, step) then net else
    match step
    case SendAsk(i, ask) => net.(asks := net.asks + [AskMsg(i, ask)])
    case SendAnswer(j, k) =>
      var reply := AnswerMsg(net.asks[k].from, AnswerTo(net.asks[k].ask, net.hist[j]), net.reach[j], Hist({}, {}));
      net.(answers := net.answers + [reply], reach := Credit(net.reach, reply))
    case Deliver(m, part) =>
      var to := net.answers[m].to;
      var msg := Arrived(net.answers[m], net.hist[to], part);
      net.(hist := net.hist[to := Merge(net.hist[to], part)],
           answers := net.answers[m := msg],
           reach := Credit(net.reach, msg))
    case Learn(i, j, part) => net.(hist := net.hist[i := Merge(net.hist[i], part)])
  }

  ghost function Run(net: Net, steps: seq<Step>): Net
    decreases |steps|
  {
    if steps == [] then net else Run(Next(net, steps[0]), steps[1..])
  }

  ghost function Start(h0: map<Client, Hist>): Net {
    Net(h0, [], [], map i | i in h0 :: {i})
  }

  // ----- the union of all initial histories -----

  ghost function UnionHist(h0: map<Client, Hist>): Hist {
    Hist(set p, s | p in h0 && s in h0[p].records :: s, set p, r | p in h0 && r in h0[p].receipts :: r)
  }

  /** Ids are unique, timestamps are positive, and nobody reads their own record. */
  ghost predicate WellFormed(u: Hist) {
    && UniqueIds(u.records)
    && (forall s :: s in u.records ==> s.ts > 0)
    && (forall r :: r in u.receipts ==> r.reader != r.of.author)
  }

  /** What is left of h when only the records of w count. */
  ghost function Only(h: Hist, w: set<Stamp>): Hist {
    Hist(h.records * w, set r | r in h.receipts && r.of in w)
  }

  /** The view a user scrolls: the last HISTORY_LIMIT records and who read each. */
  ghost function View(h: Hist): Hist {
    Only(h, Recent(h.records))
  }

  // ----- the invariant -----

  /** Every record of p in the final window, with its receipts, is in h. */
  ghost predicate Covers(u: Hist, p: Hist, h: Hist) {
    Within(Only(p, Recent(u.records)), h)
  }

  /** What the ask promises the answerer: named records are held by the asker, and
      no record of the final window is cut off. */
  ghost predicate AskOk(u: Hist, ask: Ask, asker: Hist) {
    forall s :: s in u.records ==>
      && (s.id in ask.have ==> s in asker.records)
      && (s in Recent(u.records) && s.id !in ask.have ==> s.ts >= ask.since)
  }

  /** Together with what the asker holds, the answer brings all of p's final window. */
  ghost predicate Brings(u: Hist, p: Hist, a: Hist, asker: Hist) {
    && Only(p, Recent(u.records)).records <= a.records + asker.records
    && Only(p, Recent(u.records)).receipts <= a.receipts
  }

  ghost predicate HistInv(h0: map<Client, Hist>, net: Net) {
    && net.hist.Keys == net.reach.Keys == h0.Keys
    && (forall i :: i in net.hist ==> Within(net.hist[i], UnionHist(h0)))
    && (forall i, p :: i in net.reach && p in net.reach[i] ==>
          p in h0 && Covers(UnionHist(h0), h0[p], net.hist[i]))
  }

  ghost predicate AsksInv(h0: map<Client, Hist>, net: Net) {
    forall k :: 0 <= k < |net.asks| ==>
      net.asks[k].from in net.hist && AskOk(UnionHist(h0), net.asks[k].ask, net.hist[net.asks[k].from])
  }

  /** An answer brings what it carries, nothing it names is unknown to the asker, and what
      has landed of it is there. */
  ghost predicate AnswerOk(h0: map<Client, Hist>, msg: AnswerMsg, asker: Hist) {
    && Within(msg.answer, UnionHist(h0))
    && Within(msg.got, asker)
    && (forall r :: r in msg.answer.receipts ==> r.of in msg.answer.records || r.of in asker.records)
    && forall p :: p in msg.carries ==> p in h0 && Brings(UnionHist(h0), h0[p], msg.answer, asker)
  }

  ghost predicate Credited(reach: map<Client, set<Client>>, msg: AnswerMsg) {
    msg.to in reach && (Within(msg.answer, msg.got) ==> msg.carries <= reach[msg.to])
  }

  ghost predicate AnswersInv(h0: map<Client, Hist>, net: Net) {
    forall m :: 0 <= m < |net.answers| ==>
      && net.answers[m].to in net.hist && AnswerOk(h0, net.answers[m], net.hist[net.answers[m].to])
      && Credited(net.reach, net.answers[m])
  }

  ghost predicate Inv(h0: map<Client, Hist>, net: Net) {
    HistInv(h0, net) && AsksInv(h0, net) && AnswersInv(h0, net)
  }

  /** The cut-off never costs a record of the final window: if HISTORY_LIMIT records
      of the asker's window are newer, the record is not in the final window at all. */
  lemma AskIsHonest(u: Hist, h: Hist, ask: Ask)
    requires WellFormed(u) && Within(h, u) && IsAskOf(ask, h)
    ensures AskOk(u, ask, h)
  {
    var all, w := u.records, Recent(h.records);
    forall s | s in all
      ensures s.id in ask.have ==> s in h.records
      ensures s in Recent(all) && s.id !in ask.have ==> s.ts >= ask.since
    {
      if s.id in ask.have {
        var x :| x in w && x.id == s.id;
        assert x in all;
      } else if s in Recent(all) && |w| >= HISTORY_LIMIT && s.ts < ask.since {
        forall x | x in w ensures x in Above(all, s) {}
        SubsetSize(w, Above(all, s));
      }
    }
  }

  lemma AnswerBrings(u: Hist, p: Hist, ask: Ask, asker: Hist, h: Hist)
    requires WellFormed(u) && Within(h, u) && Within(p, u) && AskOk(u, ask, asker) && Covers(u, p, h)
    requires forall r :: r in p.receipts ==> r.of in p.records
    ensures Brings(u, p, AnswerTo(ask, h), asker)
  {
    var final := Recent(u.records);
    forall s | s in p.records && s in final
      ensures s in Recent(h.records) && (s.id in ask.have || Wants(ask, s))
    {
      assert s in Only(p, final).records;
      RecentAntitone(h.records, u.records, s);
    }
    forall r | r in Only(p, final).receipts ensures r in AnswerTo(ask, h).receipts {
      assert r.of in p.records;
    }
  }

  lemma MergeGrows(u: Hist, h: Hist, a: Hist)
    requires Within(h, u) && Within(a, u)
    ensures Within(h, Merge(h, a)) && Within(Merge(h, a), u)
  {}

  lemma MergeCovers(u: Hist, p: Hist, h: Hist, a: Hist)
    requires WellFormed(u) && Within(p, u) && Brings(u, p, a, h)
    requires forall r :: r in p.receipts ==> r.of in p.records
    ensures Covers(u, p, Merge(h, a))
  {
    forall r | r in Only(p, Recent(u.records)).receipts ensures Taken(h, a, r) {
      assert r.of in Only(p, Recent(u.records)).records;
    }
  }

  /** A receipt is for a record its holder has. */
  ghost predicate Closed(h0: map<Client, Hist>) {
    forall p, r :: p in h0 && r in h0[p].receipts ==> r.of in h0[p].records
  }

  ghost predicate Legal(h0: map<Client, Hist>) {
    WellFormed(UnionHist(h0)) && Closed(h0)
  }

  lemma PartOfUnion(h0: map<Client, Hist>, p: Client)
    requires p in h0
    ensures Within(h0[p], UnionHist(h0)) && Covers(UnionHist(h0), h0[p], h0[p])
  {}

  /** Growing one client's history keeps every promise made about it. */
  lemma GrowKeepsInv(h0: map<Client, Hist>, net: Net, i: Client, h: Hist)
    requires Inv(h0, net) && i in net.hist && Within(net.hist[i], h) && Within(h, UnionHist(h0))
    ensures Inv(h0, net.(hist := net.hist[i := h]))
  {
    var next := net.(hist := net.hist[i := h]);
    assert forall j :: j in net.hist ==> Within(net.hist[j], next.hist[j]);
    assert HistInv(h0, next);
    assert AsksInv(h0, next);
    forall m | 0 <= m < |next.answers| ensures AnswerOk(h0, next.answers[m], next.hist[next.answers[m].to]) {
      assert AnswerOk(h0, net.answers[m], net.hist[net.answers[m].to]);
    }
  }

  lemma ReachKeepsInv(h0: map<Client, Hist>, net: Net, i: Client, more: set<Client>)
    requires Inv(h0, net) && i in net.reach
    requires forall p :: p in more ==> p in h0 && Covers(UnionHist(h0), h0[p], net.hist[i])
    ensures Inv(h0, net.(reach := net.reach[i := net.reach[i] + more]))
  {}

  /** What has landed in full brings what it carries. */
  lemma CreditKeepsInv(h0: map<Client, Hist>, net: Net, msg: AnswerMsg)
    requires Inv(h0, net) && msg.to in net.hist && AnswerOk(h0, msg, net.hist[msg.to])
    ensures Inv(h0, net.(reach := Credit(net.reach, msg))) && Credited(Credit(net.reach, msg), msg)
  {
    if Within(msg.answer, msg.got) {
      forall p | p in msg.carries ensures p in h0 && Covers(UnionHist(h0), h0[p], net.hist[msg.to]) {
        assert Brings(UnionHist(h0), h0[p], msg.answer, net.hist[msg.to]);
      }
      ReachKeepsInv(h0, net, msg.to, msg.carries);
    }
  }

  lemma AnswerSetKeepsInv(h0: map<Client, Hist>, net: Net, m: nat, msg: AnswerMsg)
    requires Inv(h0, net) && m <= |net.answers| && msg.to in net.hist
    requires AnswerOk(h0, msg, net.hist[msg.to]) && Credited(net.reach, msg)
    ensures m == |net.answers| ==> Inv(h0, net.(answers := net.answers + [msg]))
    ensures m < |net.answers| ==> Inv(h0, net.(answers := net.answers[m := msg]))
  {}

  lemma DeliverKeepsInv(h0: map<Client, Hist>, net: Net, m: nat, part: Hist)
    requires Legal(h0) && Inv(h0, net) && Enabled(net, Deliver(m, part))
    ensures Inv(h0, Next(net, Deliver(m, part)))
  {
    var to := net.answers[m].to;
    var h := Merge(net.hist[to], part);
    assert AnswerOk(h0, net.answers[m], net.hist[to]);
    MergeGrows(UnionHist(h0), net.hist[to], part);
    GrowKeepsInv(h0, net, to, h);
    var grown := net.(hist := net.hist[to := h]);
    var msg := Arrived(net.answers[m], net.hist[to], part);
    assert AnswerOk(h0, msg, h);
    CreditKeepsInv(h0, grown, msg);
    AnswerSetKeepsInv(h0, grown.(reach := Credit(net.reach, msg)), m, msg);
  }

  lemma SendAnswerKeepsInv(h0: map<Client, Hist>, net: Net, j: Client, k: nat)
    requires Legal(h0) && Inv(h0, net) && Enabled(net, SendAnswer(j, k))
    ensures Inv(h0, Next(net, SendAnswer(j, k)))
  {
    var u := UnionHist(h0);
    var ask, asker := net.asks[k].ask, net.hist[net.asks[k].from];
    var reply := Next(net, SendAnswer(j, k)).answers[|net.answers|];
    assert Within(AnswerTo(ask, net.hist[j]), net.hist[j]);
    forall p | p in net.reach[j] ensures p in h0 && Brings(u, h0[p], reply.answer, asker) {
      PartOfUnion(h0, p);
      AnswerBrings(u, h0[p], ask, asker, net.hist[j]);
    }
    AnswerNamesKnown(u, ask, asker, net.hist[j]);
    assert AnswerOk(h0, reply, asker);
    CreditKeepsInv(h0, net, reply);
    AnswerSetKeepsInv(h0, net.(reach := Credit(net.reach, reply)), |net.answers|, reply);
  }

  /** The receipts of an answer are for records it holds, or that the asker named. */
  lemma AnswerNamesKnown(u: Hist, ask: Ask, asker: Hist, h: Hist)
    requires Within(h, u) && AskOk(u, ask, asker)
    ensures forall r :: r in AnswerTo(ask, h).receipts ==>
      r.of in AnswerTo(ask, h).records || r.of in asker.records
  {}

  lemma StepKeepsInv(h0: map<Client, Hist>, net: Net, step: Step)
    requires Legal(h0) && Inv(h0, net)
    ensures Inv(h0, Next(net, step))
  {
    if Enabled(net, step) {
      match step
      case SendAsk(i, ask) =>
        AskIsHonest(UnionHist(h0), net.hist[i], ask);
      case SendAnswer(j, k) =>
        SendAnswerKeepsInv(h0, net, j, k);
      case Deliver(m, part) =>
        DeliverKeepsInv(h0, net, m, part);
      case Learn(i, j, part) =>
        MergeGrows(UnionHist(h0), net.hist[i], part);
        GrowKeepsInv(h0, net, i, Merge(net.hist[i], part));
    }
  }

  lemma {:induction false} RunKeepsInv(h0: map<Client, Hist>, net: Net, steps: seq<Step>)
    requires Legal(h0) && Inv(h0, net)
    ensures Inv(h0, Run(net, steps))
    decreases |steps|
  {
    if steps != [] {
      StepKeepsInv(h0, net, steps[0]);
      RunKeepsInv(h0, Next(net, steps[0]), steps[1..]);
    }
  }

  lemma StartInv(h0: map<Client, Hist>)
    ensures Inv(h0, Start(h0))
  {
    forall i | i in h0 ensures Within(h0[i], UnionHist(h0)) && Covers(UnionHist(h0), h0[i], h0[i]) {
      PartOfUnion(h0, i);
    }
  }

  /** A history within the union that covers every initial one shows what the union shows. */
  lemma CoveringIsUnion(h0: map<Client, Hist>, h: Hist)
    requires Legal(h0) && Within(h, UnionHist(h0))
    requires forall p :: p in h0 ==> Covers(UnionHist(h0), h0[p], h)
    ensures View(h) == View(UnionHist(h0))
  {
    var u := UnionHist(h0);
    var w := Recent(u.records);
    forall s | s in w ensures s in h.records {
      var p :| p in h0 && s in h0[p].records;
      assert Covers(u, h0[p], h) && s in Only(h0[p], w).records;
    }
    forall r | r in u.receipts && r.of in w ensures r in h.receipts {
      var p :| p in h0 && r in h0[p].receipts;
      assert Covers(u, h0[p], h) && r in Only(h0[p], w).receipts;
    }
    RecentSandwich(u.records, h.records);
    assert Only(h, w).receipts == Only(u, w).receipts;
  }

  // ----- answers in parts -----

  /** A part as it is sent: a record's receipts travel with it, and only the receipts of
      records the asker named travel alone. */
  ghost predicate Whole(part: Hist, answer: Hist) {
    && Within(part, answer)
    && forall r :: r in part.receipts ==> r.of in part.records || r.of !in answer.records
  }

  /** Such a part lands in full, whatever arrived before it. */
  lemma WholePartLands(h0: map<Client, Hist>, net: Net, m: nat, part: Hist)
    requires Legal(h0) && Inv(h0, net) && m < |net.answers| && Whole(part, net.answers[m].answer)
    ensures net.answers[m].to in net.hist && Landed(net.hist[net.answers[m].to], part) == part
  {
    var h := net.hist[net.answers[m].to];
    assert AnswerOk(h0, net.answers[m], h);
    forall r | r in part.receipts ensures Taken(h, part, r) {
      assert r in UnionHist(h0).receipts;
    }
  }

  ghost predicate BringsPart(step: Step, m: nat, answer: Hist) {
    step.Deliver? && step.m == m && Whole(step.part, answer)
  }

  /** What the steps deliver of answer m in such parts. */
  ghost function Delivered(m: nat, answer: Hist, steps: seq<Step>): Hist
    decreases |steps|
  {
    if steps == [] then Hist({}, {})
    else Join(if BringsPart(steps[0], m, answer) then steps[0].part else Hist({}, {}),
              Delivered(m, answer, steps[1..]))
  }

  lemma StepAccumulates(h0: map<Client, Hist>, net: Net, step: Step, m: nat)
    requires Legal(h0) && Inv(h0, net) && m < |net.answers|
    ensures var (msg, next) := (net.answers[m], Next(net, step));
      && m < |next.answers| && next.answers[m] == msg.(got := next.answers[m].got)
      && Within(msg.got, next.answers[m].got)
      && (BringsPart(step, m, msg.answer) ==> Within(step.part, next.answers[m].got))
  {
    if BringsPart(step, m, net.answers[m].answer) {
      WholePartLands(h0, net, m, step.part);
    }
  }

  lemma {:induction false} RunAccumulates(h0: map<Client, Hist>, net: Net, steps: seq<Step>, m: nat)
    requires Legal(h0) && Inv(h0, net) && m < |net.answers|
    ensures var (msg, last) := (net.answers[m], Run(net, steps));
      && m < |last.answers| && last.answers[m] == msg.(got := last.answers[m].got)
      && Within(Join(msg.got, Delivered(m, msg.answer, steps)), last.answers[m].got)
    decreases |steps|
  {
    if steps != [] {
      StepAccumulates(h0, net, steps[0], m);
      StepKeepsInv(h0, net, steps[0]);
      RunAccumulates(h0, Next(net, steps[0]), steps[1..], m);
    }
  }

  lemma {:induction false} RunsInARow(net: Net, steps: seq<Step>, more: seq<Step>)
    ensures Run(net, steps + more) == Run(Run(net, steps), more)
    decreases |steps|
  {
    if steps == [] {
      assert steps + more == more;
    } else {
      assert (steps + more)[1..] == steps[1..] + more;
      RunsInARow(Next(net, steps[0]), steps[1..], more);
    }
  }

  /** An answer whose parts all arrive, in any order, repeated, and with anything else in
      between, counts as one delivered whole: what its sender had reaches the asker. */
  lemma PartsAreEnough(h0: map<Client, Hist>, steps: seq<Step>, more: seq<Step>, m: nat)
    requires Legal(h0) && m < |Run(Start(h0), steps).answers|
    requires var answer := Run(Start(h0), steps).answers[m].answer;
      Within(answer, Delivered(m, answer, more))
    ensures var (msg, last) := (Run(Start(h0), steps).answers[m], Run(Start(h0), steps + more));
      msg.to in last.reach && msg.carries <= last.reach[msg.to]
  {
    StartInv(h0);
    RunKeepsInv(h0, Start(h0), steps);
    RunAccumulates(h0, Run(Start(h0), steps), more, m);
    RunKeepsInv(h0, Run(Start(h0), steps), more);
    RunsInARow(Start(h0), steps, more);
    assert Credited(Run(Start(h0), steps + more).reach, Run(Start(h0), steps + more).answers[m]);
  }

  /** Main theorem.  Whatever the schedule, a client to whom every history could
      flow shows exactly the window of the union, with exactly the union of receipts. */
  lemma Converges(h0: map<Client, Hist>, steps: seq<Step>, i: Client)
    requires Legal(h0) && i in h0
    requires i in Run(Start(h0), steps).reach
    requires Run(Start(h0), steps).reach[i] == h0.Keys
    ensures i in Run(Start(h0), steps).hist
    ensures View(Run(Start(h0), steps).hist[i]) == View(UnionHist(h0))
  {
    StartInv(h0);
    RunKeepsInv(h0, Start(h0), steps);
    CoveringIsUnion(h0, Run(Start(h0), steps).hist[i]);
  }

  /** One round between two browsers, with b answering before or after it has merged
      what it asked for itself: both end up showing the window of the union. */
  lemma TwoWaySync(h0: map<Client, Hist>, askA: Ask, askB: Ask, bNow: Hist)
    requires Legal(h0) && h0.Keys == {0, 1}
    requires IsAskOf(askA, h0[0]) && IsAskOf(askB, h0[1])
    requires bNow == h0[1] || bNow == Merge(h0[1], AnswerTo(askB, h0[0]))
    ensures View(Merge(h0[0], AnswerTo(askA, bNow))) == View(UnionHist(h0))
    ensures View(Merge(h0[1], AnswerTo(askB, h0[0]))) == View(UnionHist(h0))
  {
    PartOfUnion(h0, 0);
    PartOfUnion(h0, 1);
    PullCovers(h0, 1, h0[1], askB, 0, h0[0]);
    CoveringIsUnion(h0, Merge(h0[1], AnswerTo(askB, h0[0])));
    PullCovers(h0, 0, h0[0], askA, 1, bNow);
    CoveringIsUnion(h0, Merge(h0[0], AnswerTo(askA, bNow)));
  }

  lemma PullCovers(h0: map<Client, Hist>, me: Client, mine: Hist, ask: Ask, you: Client, yours: Hist)
    requires Legal(h0) && me in h0 && you in h0 && IsAskOf(ask, mine)
    requires Within(mine, UnionHist(h0)) && Covers(UnionHist(h0), h0[me], mine)
    requires Within(yours, UnionHist(h0)) && Covers(UnionHist(h0), h0[you], yours)
    ensures var h := Merge(mine, AnswerTo(ask, yours));
      Within(h, UnionHist(h0)) && Covers(UnionHist(h0), h0[me], h) && Covers(UnionHist(h0), h0[you], h)
  {
    var u := UnionHist(h0);
    PartOfUnion(h0, you);
    AskIsHonest(u, mine, ask);
    AnswerBrings(u, h0[you], ask, mine, yours);
    assert Within(AnswerTo(ask, yours), yours);
    MergeGrows(u, mine, AnswerTo(ask, yours));
    MergeCovers(u, h0[you], mine, AnswerTo(ask, yours));
  }

  /** Converged or not, a client keeps what it had of the final window and never shows
      a record or a receipt that nobody had. */
  lemma NothingLostOrInvented(h0: map<Client, Hist>, steps: seq<Step>, i: Client)
    requires Legal(h0) && i in h0
    ensures i in Run(Start(h0), steps).hist
    ensures Within(Run(Start(h0), steps).hist[i], UnionHist(h0))
    ensures Within(h0[i], Run(Start(h0), steps).hist[i])
  {
    StartInv(h0);
    RunKeepsInv(h0, Start(h0), steps);
    HistGrows(Start(h0), steps, i);
  }

  lemma {:induction false} HistGrows(net: Net, steps: seq<Step>, i: Client)
    requires i in net.hist
    ensures i in Run(net, steps).hist && Within(net.hist[i], Run(net, steps).hist[i])
    decreases |steps|
  {
    if steps != [] { HistGrows(Next(net, steps[0]), steps[1..], i); }
  }
}
