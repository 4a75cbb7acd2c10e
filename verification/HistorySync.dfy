/** Receiving every packet of an answer is the abstract merge of the abstract answer,
    so the convergence theorems hold of the databases themselves. */
module HistorySync {
  import opened Wrappers
  import opened Window
  import opened Records
  import opened Convergence
  import opened History

  /** A record that survives sanitising unchanged, with at most 200 readers. */
  ghost predicate Relayable(r: Record) {
    r.id != "" && IsClean(r) && |r.readBy| <= MAX_READERS && (r.viaJoin ==> r.body.Text?)
  }

  ghost predicate AllRelayable(rs: seq<Record>) {
    forall i :: 0 <= i < |rs| ==> Relayable(rs[i])
  }

  ghost predicate Trusted(db: Db) {
    WellKeyed(db) && forall id :: id in db ==> Relayable(db[id])
  }

  ghost function ListReceipts(rs: seq<Record>): set<Receipt> {
    set i, who | 0 <= i < |rs| && who in rs[i].readBy :: Receipt(StampOf(rs[i]), who)
  }

  ghost function OneReceipts(r: Record): set<Receipt> {
    set who | who in r.readBy :: Receipt(StampOf(r), who)
  }

  // ----- one record -----

  lemma InsertAbs(db: Db, r: Record)
    requires r.id !in db
    ensures Abs(db[r.id := r]) == Hist(Stamps(db) + {StampOf(r)}, ReceiptsOf(db) + OneReceipts(r))
  {
    var next := db[r.id := r];
    assert next[r.id] == r && forall id :: id in db ==> id in next && next[id] == db[id];
    assert Stamps(next) == Stamps(db) + {StampOf(r)};
    assert ReceiptsOf(next) == ReceiptsOf(db) + OneReceipts(r);
  }

  lemma MergeIntoAbs(db: Db, id: string, more: map<string, string>)
    requires id in db
    ensures Stamps(MergeInto(db, id, more)) == Stamps(db)
    ensures ReceiptsOf(MergeInto(db, id, more)) ==
            ReceiptsOf(db) + set who | who in more && who != db[id].author :: Receipt(StampOf(db[id]), who)
  {
    var next := MergeInto(db, id, more);
    AddReadersKeys(db[id], more);
    assert forall x :: x in db ==> StampOf(next[x]) == StampOf(db[x]);
    assert forall x :: x in db && x != id ==> next[x] == db[x];
    forall c | c in ReceiptsOf(db) ensures c in ReceiptsOf(next) {
      var x, who :| x in db && who in db[x].readBy && c == Receipt(StampOf(db[x]), who);
      assert who in next[x].readBy;
    }
    forall who | who in more && who != db[id].author ensures Receipt(StampOf(db[id]), who) in ReceiptsOf(next) {
      assert who in next[id].readBy;
    }
  }

  lemma SameIdSameStamp(db: Db, r: Record)
    requires WellKeyed(db) && r.id in db && UniqueIds(Stamps(db) + {StampOf(r)})
    ensures StampOf(db[r.id]) == StampOf(r)
  {
    assert StampOf(db[r.id]) in Stamps(db) + {StampOf(r)} && StampOf(r) in Stamps(db) + {StampOf(r)};
  }

  lemma UnknownStamp(db: Db, r: Record)
    requires WellKeyed(db) && r.id !in db
    ensures StampOf(r) !in Stamps(db)
  {}

  /** An honest record is stored as it was sent when new, and lends its readers otherwise. */
  lemma AcceptHonest(db: Db, raw: Raw, r: Record, now: int)
    requires Relayable(r) && IsItemOf(raw, r)
    ensures Accept(db, raw, now) ==
            if r.id in db then MergeInto(db, r.id, r.readBy) else db[r.id := r.(blob := None)]
  {
    RelayIsIdentity(r, raw.readBy, now);
  }

  lemma InsertIsMerge(db: Db, r: Record)
    requires WellKeyed(db) && r.id !in db
    ensures WellKeyed(db[r.id := r])
    ensures Abs(db[r.id := r]) == Merge(Abs(db), Hist({StampOf(r)}, OneReceipts(r)))
  {
    UnknownStamp(db, r);
    InsertAbs(db, r);
  }

  lemma MergeIntoIsMerge(db: Db, r: Record, records: set<Stamp>)
    requires WellKeyed(db) && r.id in db && StampOf(db[r.id]) == StampOf(r) && records <= {StampOf(r)}
    ensures WellKeyed(MergeInto(db, r.id, r.readBy))
    ensures Abs(MergeInto(db, r.id, r.readBy)) == Merge(Abs(db), Hist(records, OneReceipts(r)))
  {
    MergeIntoAbs(db, r.id, r.readBy);
    assert StampOf(r) in Stamps(db);
    assert (set c | c in OneReceipts(r) && Taken(Abs(db), Hist(records, OneReceipts(r)), c)) ==
      set who | who in r.readBy && who != r.author :: Receipt(StampOf(r), who);
  }

  /** Accepting one honest record is the abstract merge of that record. */
  lemma AcceptAbs(db: Db, raw: Raw, r: Record, now: int)
    requires WellKeyed(db) && Relayable(r) && IsItemOf(raw, r)
    requires UniqueIds(Stamps(db) + {StampOf(r)})
    ensures WellKeyed(Accept(db, raw, now))
    ensures Abs(Accept(db, raw, now)) == Merge(Abs(db), Hist({StampOf(r)}, OneReceipts(r)))
  {
    AcceptHonest(db, raw, r, now);
    if r.id in db {
      SameIdSameStamp(db, r);
      MergeIntoIsMerge(db, r, {StampOf(r)});
    } else {
      InsertIsMerge(db, r.(blob := None));
    }
  }

  lemma MergeReceiptAbs(db: Db, es: Entries, r: Record)
    requires WellKeyed(db) && Relayable(r) && Enumerates(es, r.readBy)
    requires UniqueIds(Stamps(db) + {StampOf(r)})
    ensures WellKeyed(MergeInto(db, r.id, CleanReads(es)))
    ensures Abs(MergeInto(db, r.id, CleanReads(es))) == Merge(Abs(db), Hist({}, OneReceipts(r)))
  {
    RelayIsIdentity(r, es, 1);
    if r.id in db {
      SameIdSameStamp(db, r);
      MergeIntoIsMerge(db, r, {});
    } else {
      UnknownStamp(db, r);
      DropUnknown(Abs(db), r);
    }
  }

  lemma DropUnknown(h: Hist, r: Record)
    requires StampOf(r) !in h.records
    ensures Merge(h, Hist({}, OneReceipts(r))) == h
  {}

  // ----- a list of records -----

  lemma StampSetAppend(rs: seq<Record>, r: Record)
    ensures StampSet(rs + [r]) == StampSet(rs) + {StampOf(r)}
    ensures ListReceipts(rs + [r]) == ListReceipts(rs) + OneReceipts(r)
  {
    var all := rs + [r];
    assert all[|rs|] == r && forall i :: 0 <= i < |rs| ==> all[i] == rs[i];
    forall c | c in ListReceipts(all) ensures c in ListReceipts(rs) + OneReceipts(r) {
      var i, who :| 0 <= i < |all| && who in all[i].readBy && c == Receipt(StampOf(all[i]), who);
      if i < |rs| { assert who in rs[i].readBy; }
    }
  }

  lemma MergeNextRecord(h: Hist, a: Hist, b: Hist)
    requires a.records !! b.records
    requires forall c :: c in a.receipts ==> c.of in a.records
    requires forall c :: c in b.receipts ==> c.of in b.records
    ensures Merge(Merge(h, a), b) == Merge(h, Hist(a.records + b.records, a.receipts + b.receipts))
  {}

  lemma MergeNextReceipts(h: Hist, a: Hist, cs: set<Receipt>)
    requires forall c :: c in cs ==> c.of !in a.records
    ensures Merge(Merge(h, a), Hist({}, cs)) == Merge(h, Hist(a.records, a.receipts + cs))
  {}

  lemma LastIsNew(rs: seq<Record>)
    requires Timeline(rs) && rs != []
    ensures StampOf(rs[|rs| - 1]) !in StampSet(rs[..|rs| - 1])
  {
    var n := |rs| - 1;
    if StampOf(rs[n]) in StampSet(rs[..n]) {
      var i :| 0 <= i < n && StampOf(rs[..n][i]) == StampOf(rs[n]);
      LaterIrreflexive(StampOf(rs[n]));
    }
  }

  ghost function HistOf(rs: seq<Record>): Hist {
    Hist(StampSet(rs), ListReceipts(rs))
  }

  lemma HistOfNext(h: Hist, rs: seq<Record>, r: Record)
    requires StampOf(r) !in StampSet(rs)
    ensures Merge(Merge(h, HistOf(rs)), Hist({StampOf(r)}, OneReceipts(r))) == Merge(h, HistOf(rs + [r]))
  {
    StampSetAppend(rs, r);
    MergeNextRecord(h, HistOf(rs), Hist({StampOf(r)}, OneReceipts(r)));
  }

  lemma ReceiptsNext(h: Hist, rs: seq<Record>, r: Record)
    ensures Merge(Merge(h, Hist({}, ListReceipts(rs))), Hist({}, OneReceipts(r)))
         == Merge(h, Hist({}, ListReceipts(rs + [r])))
  {
    StampSetAppend(rs, r);
    MergeNextReceipts(h, Hist({}, ListReceipts(rs)), OneReceipts(r));
  }

  lemma AcceptNext(h: Hist, before: Db, raw: Raw, rs: seq<Record>, r: Record, now: int)
    requires WellKeyed(before) && Abs(before) == Merge(h, HistOf(rs))
    requires Relayable(r) && IsItemOf(raw, r) && StampOf(r) !in StampSet(rs)
    requires UniqueIds(Stamps(before) + {StampOf(r)})
    ensures WellKeyed(Accept(before, raw, now))
    ensures Abs(Accept(before, raw, now)) == Merge(h, HistOf(rs + [r]))
  {
    AcceptAbs(before, raw, r, now);
    HistOfNext(h, rs, r);
  }

  lemma MergeNext(h: Hist, before: Db, es: Entries, rs: seq<Record>, r: Record)
    requires WellKeyed(before) && Abs(before) == Merge(h, Hist({}, ListReceipts(rs)))
    requires Relayable(r) && Enumerates(es, r.readBy)
    requires UniqueIds(Stamps(before) + {StampOf(r)})
    ensures WellKeyed(MergeInto(before, r.id, CleanReads(es)))
    ensures Abs(MergeInto(before, r.id, CleanReads(es))) == Merge(h, Hist({}, ListReceipts(rs + [r])))
  {
    MergeReceiptAbs(before, es, r);
    ReceiptsNext(h, rs, r);
  }

  lemma StampsOfMerge(db: Db, before: Db, a: Hist, r: Record, all: set<Stamp>)
    requires Abs(before) == Merge(Abs(db), a) && a.records <= all && StampOf(r) in all
    requires UniqueIds(Stamps(db) + all)
    ensures UniqueIds(Stamps(before) + {StampOf(r)})
  {
    assert Stamps(before) == Stamps(db) + a.records;
    UniqueSubset(Stamps(before) + {StampOf(r)}, Stamps(db) + all);
  }

  lemma PrefixItems(raws: seq<Raw>, rs: seq<Record>, n: nat)
    requires AreItems(raws, rs) && AllRelayable(rs) && Timeline(rs) && n < |rs|
    ensures AreItems(raws[..n], rs[..n]) && AllRelayable(rs[..n]) && Timeline(rs[..n])
    ensures IsItemOf(raws[n], rs[n]) && Relayable(rs[n])
  {}

  lemma {:induction false} AcceptAllAbs(db: Db, raws: seq<Raw>, rs: seq<Record>, now: int)
    requires WellKeyed(db) && AreItems(raws, rs) && AllRelayable(rs) && Timeline(rs)
    requires UniqueIds(Stamps(db) + StampSet(rs))
    ensures WellKeyed(AcceptAll(db, raws, now))
    ensures Abs(AcceptAll(db, raws, now)) == Merge(Abs(db), HistOf(rs))
  {
    if rs == [] {
      assert Merge(Abs(db), HistOf(rs)) == Abs(db);
    } else {
      var n := |rs| - 1;
      var init, before := rs[..n], AcceptAll(db, raws[..n], now);
      SplitLast(rs);
      StampSetAppend(init, rs[n]);
      UniqueSubset(Stamps(db) + StampSet(init), Stamps(db) + StampSet(rs));
      PrefixItems(raws, rs, n);
      AcceptAllAbs(db, raws[..n], init, now);
      LastIsNew(rs);
      StampsOfMerge(db, before, HistOf(init), rs[n], StampSet(rs));
      AcceptNext(Abs(db), before, raws[n], init, rs[n], now);
    }
  }

  lemma PrefixReceipts(list: seq<(string, Entries)>, rs: seq<Record>, n: nat)
    requires AreReceipts(list, rs) && n < |rs|
    ensures AreReceipts(list[..n], rs[..n])
    ensures list[n].0 == rs[n].id && Enumerates(list[n].1, rs[n].readBy)
  {}

  lemma {:induction false} MergeAllAbs(db: Db, list: seq<(string, Entries)>, rs: seq<Record>)
    requires WellKeyed(db) && AreReceipts(list, rs) && AllRelayable(rs)
    requires UniqueIds(Stamps(db) + StampSet(rs))
    ensures WellKeyed(MergeAll(db, list))
    ensures Abs(MergeAll(db, list)) == Merge(Abs(db), Hist({}, ListReceipts(rs)))
  {
    if rs == [] {
      assert Merge(Abs(db), Hist({}, ListReceipts(rs))) == Abs(db);
    } else {
      var n := |rs| - 1;
      var init, before := rs[..n], MergeAll(db, list[..n]);
      SplitLast(rs);
      StampSetAppend(init, rs[n]);
      UniqueSubset(Stamps(db) + StampSet(init), Stamps(db) + StampSet(rs));
      PrefixReceipts(list, rs, n);
      MergeAllAbs(db, list[..n], init);
      StampsOfMerge(db, before, Hist({}, ListReceipts(init)), rs[n], StampSet(rs));
      MergeNext(Abs(db), before, list[n].1, init, rs[n]);
    }
  }

  // ----- the records an answer selects -----

  lemma {:induction false} MissingRows(rs: seq<Record>, have: set<string>, since: int)
    ensures forall r :: r in Missing(rs, have, since) <==> r in rs && Wanted(r, have, since)
  {
    if rs != [] {
      SplitLast(rs);
      MissingRows(rs[..|rs| - 1], have, since);
    }
  }

  lemma {:induction false} HeldRows(rs: seq<Record>, have: set<string>)
    ensures forall r :: r in Held(rs, have) <==> r in rs && r.id in have && r.readBy != map[]
  {
    if rs != [] {
      SplitLast(rs);
      HeldRows(rs[..|rs| - 1], have);
    }
  }

  lemma {:induction false} MissingInOrder(rs: seq<Record>, have: set<string>, since: int)
    requires Timeline(rs)
    ensures Timeline(Missing(rs, have, since))
  {
    if rs != [] {
      var n := |rs| - 1;
      var init := rs[..n];
      MissingInOrder(init, have, since);
      MissingRows(init, have, since);
      forall r | r in Missing(init, have, since) ensures Later(StampOf(r), StampOf(rs[n])) {
        var i :| 0 <= i < n && init[i] == r;
        assert rs[i] == r;
      }
    }
  }

  lemma RowsOfDb(db: Db, all: seq<Record>, part: seq<Record>)
    requires Trusted(db) && Lists(all, db) && forall r :: r in part ==> r in all
    ensures AllRelayable(part) && StampSet(part) <= Stamps(db)
  {
    forall i | 0 <= i < |part| ensures Relayable(part[i]) && StampOf(part[i]) in Stamps(db) {
      assert part[i] in all;
      var j :| 0 <= j < |all| && all[j] == part[i];
    }
  }

  lemma SelectedFromDb(db: Db, all: seq<Record>, have: set<string>, since: int)
    requires Trusted(db) && Timeline(all) && Lists(all, db)
    ensures var missing, held := Missing(LastN(all), have, since), Held(LastN(all), have);
      && Timeline(missing)
      && AllRelayable(missing) && StampSet(missing) <= Stamps(db)
      && AllRelayable(held) && StampSet(held) <= Stamps(db)
  {
    var recent := LastN(all);
    MissingRows(recent, have, since);
    HeldRows(recent, have);
    MissingInOrder(recent, have, since);
    assert forall r :: r in recent ==> r in all;
    RowsOfDb(db, all, Missing(recent, have, since));
    RowsOfDb(db, all, Held(recent, have));
  }

  lemma AnswerAbs(src: Db, all: seq<Record>, have: set<string>, since: int)
    requires WellKeyed(src) && Timeline(all) && Lists(all, src)
    ensures var missing, held := Missing(LastN(all), have, since), Held(LastN(all), have);
      AnswerTo(Ask(have, since), Abs(src)) == Hist(StampSet(missing), ListReceipts(missing) + ListReceipts(held))
  {
    var ask := Ask(have, since);
    var missing, held := Missing(LastN(all), have, since), Held(LastN(all), have);
    ListedStamps(all, src);
    TailIsRecent(all);
    AnsweredStamps(LastN(all), ask);
    forall c | c in AnswerTo(ask, Abs(src)).receipts ensures c in ListReceipts(missing) + ListReceipts(held) {
      AnsweredReceipt(src, all, ask, c);
    }
    forall c | c in ListReceipts(missing) + ListReceipts(held) ensures c in AnswerTo(ask, Abs(src)).receipts {
      ListedReceipt(src, all, ask, c);
    }
  }

  lemma AnsweredStamps(recent: seq<Record>, ask: Ask)
    ensures StampSet(Missing(recent, ask.have, ask.since)) == set s | s in StampSet(recent) && Wants(ask, s)
  {
    var missing := Missing(recent, ask.have, ask.since);
    MissingRows(recent, ask.have, ask.since);
    forall s | s in StampSet(recent) && Wants(ask, s) ensures s in StampSet(missing) {
      var i :| 0 <= i < |recent| && StampOf(recent[i]) == s;
      assert recent[i] in missing;
    }
    forall s | s in StampSet(missing) ensures s in StampSet(recent) && Wants(ask, s) {
      var i :| 0 <= i < |missing| && StampOf(missing[i]) == s;
      assert missing[i] in recent;
    }
  }

  lemma AnsweredReceipt(src: Db, all: seq<Record>, ask: Ask, c: Receipt)
    requires WellKeyed(src) && Timeline(all) && Lists(all, src)
    requires StampSet(LastN(all)) == Recent(Stamps(src))
    requires c in AnswerTo(ask, Abs(src)).receipts
    ensures c in ListReceipts(Missing(LastN(all), ask.have, ask.since)) + ListReceipts(Held(LastN(all), ask.have))
  {
    var recent := LastN(all);
    MissingRows(recent, ask.have, ask.since);
    HeldRows(recent, ask.have);
    var id, who :| id in src && who in src[id].readBy && c == Receipt(StampOf(src[id]), who);
    var i :| 0 <= i < |recent| && StampOf(recent[i]) == c.of;
    assert recent[i] in all && recent[i] == src[id];
    if Wants(ask, c.of) {
      assert recent[i] in Missing(recent, ask.have, ask.since);
    } else {
      assert recent[i] in Held(recent, ask.have);
    }
  }

  lemma ListedReceipt(src: Db, all: seq<Record>, ask: Ask, c: Receipt)
    requires WellKeyed(src) && Timeline(all) && Lists(all, src)
    requires StampSet(LastN(all)) == Recent(Stamps(src))
    requires c in ListReceipts(Missing(LastN(all), ask.have, ask.since)) + ListReceipts(Held(LastN(all), ask.have))
    ensures c in AnswerTo(ask, Abs(src)).receipts
  {
    var recent := LastN(all);
    MissingRows(recent, ask.have, ask.since);
    HeldRows(recent, ask.have);
    var missing, held := Missing(recent, ask.have, ask.since), Held(recent, ask.have);
    var r: Record;
    if c in ListReceipts(missing) {
      var i, who :| 0 <= i < |missing| && who in missing[i].readBy && c == Receipt(StampOf(missing[i]), who);
      r := missing[i];
    } else {
      var i, who :| 0 <= i < |held| && who in held[i].readBy && c == Receipt(StampOf(held[i]), who);
      r := held[i];
    }
    assert r in recent && r in all && src[r.id] == r;
    assert StampOf(r) in StampSet(recent);
  }

  // ----- the exchange refines the abstract sync -----

  /** Batching, storage order, sanitising and first-writer-wins names neither lose nor
      add a record or a receipt: the databases move exactly as the histories do. */
  lemma ExchangeRefinesSync(src: Db, dst: Db, packets: seq<Packet>, have: set<string>, since: int, now: int)
    requires Trusted(src) && WellKeyed(dst) && UniqueIds(Stamps(dst) + Stamps(src))
    requires Answers(packets, src, have, since)
    ensures var got := MergeAll(AcceptAll(dst, AllMsgs(packets), now), AllReads(packets));
      WellKeyed(got) && Abs(got) == Merge(Abs(dst), AnswerTo(Ask(have, since), Abs(src)))
  {
    var all :| Timeline(all) && Lists(all, src) && AnswersWith(packets, all, have, since);
    var missing, held := Missing(LastN(all), have, since), Held(LastN(all), have);
    SelectedFromDb(src, all, have, since);
    ReceiveAbs(src, dst, AllMsgs(packets), missing, AllReads(packets), held, now);
    AnswerSplits(src, all, have, since, Abs(dst));
  }

  lemma AnswerSplits(src: Db, all: seq<Record>, have: set<string>, since: int, h: Hist)
    requires WellKeyed(src) && Timeline(all) && Lists(all, src)
    ensures Merge(Merge(h, HistOf(Missing(LastN(all), have, since))), Hist({}, ListReceipts(Held(LastN(all), have))))
         == Merge(h, AnswerTo(Ask(have, since), Abs(src)))
  {
    AnswerAbs(src, all, have, since);
    HeldNotMissing(LastN(all), have, since);
    MergeNextReceipts(h, HistOf(Missing(LastN(all), have, since)), ListReceipts(Held(LastN(all), have)));
  }

  lemma ReceiveAbs(src: Db, dst: Db, raws: seq<Raw>, missing: seq<Record>,
                   list: seq<(string, Entries)>, held: seq<Record>, now: int)
    requires WellKeyed(dst) && UniqueIds(Stamps(dst) + Stamps(src))
    requires AreItems(raws, missing) && AllRelayable(missing) && Timeline(missing) && StampSet(missing) <= Stamps(src)
    requires AreReceipts(list, held) && AllRelayable(held) && StampSet(held) <= Stamps(src)
    ensures var got := MergeAll(AcceptAll(dst, raws, now), list);
      WellKeyed(got) && Abs(got) == Merge(Merge(Abs(dst), HistOf(missing)), Hist({}, ListReceipts(held)))
  {
    UniqueSubset(Stamps(dst) + StampSet(missing), Stamps(dst) + Stamps(src));
    AcceptAllAbs(dst, raws, missing, now);
    var mid := AcceptAll(dst, raws, now);
    UniqueSubset(Stamps(mid) + StampSet(held), Stamps(dst) + Stamps(src));
    MergeAllAbs(mid, list, held);
  }

  lemma HeldNotMissing(rs: seq<Record>, have: set<string>, since: int)
    requires Timeline(rs)
    ensures forall c :: c in ListReceipts(Held(rs, have)) ==> c.of !in StampSet(Missing(rs, have, since))
  {
    MissingRows(rs, have, since);
    HeldRows(rs, have);
    var held, missing := Held(rs, have), Missing(rs, have, since);
    forall c | c in ListReceipts(held) ensures c.of !in StampSet(missing) {
      var i, who :| 0 <= i < |held| && who in held[i].readBy && c == Receipt(StampOf(held[i]), who);
      assert held[i] in held;
      forall j | 0 <= j < |missing| ensures StampOf(missing[j]) != c.of { assert missing[j] in missing; }
    }
  }

  // ----- one packet after the other -----

  /** What one packet of an answer does; pieces of files are received on their own. */
  function Received(db: Db, p: Packet, now: int): Db {
    match p
    case HistoryMsgs(msgs) => AcceptAll(db, msgs, now)
    case ReadsMap(list) => MergeAll(db, if |list| <= HISTORY_LIMIT then list else list[..HISTORY_LIMIT])
    case _ => db
  }

  function ReceivedAll(db: Db, ps: seq<Packet>, now: int): Db {
    if ps == [] then db else Received(ReceivedAll(db, ps[..|ps| - 1], now), ps[|ps| - 1], now)
  }

  function Receive(db: Db, packets: seq<Packet>, now: int): Db {
    MergeAll(AcceptAll(db, AllMsgs(packets), now), AllReads(packets))
  }

  lemma {:induction false} AcceptTwice(db: Db, a: seq<Raw>, b: seq<Raw>, now: int)
    ensures AcceptAll(AcceptAll(db, a, now), b, now) == AcceptAll(db, a + b, now)
    decreases |b|
  {
    if b == [] {
      assert a + b == a;
    } else {
      assert (a + b)[..|a + b| - 1] == a + b[..|b| - 1];
      AcceptTwice(db, a, b[..|b| - 1], now);
    }
  }

  lemma {:induction false} MergeTwice(db: Db, a: seq<(string, Entries)>, b: seq<(string, Entries)>)
    ensures MergeAll(MergeAll(db, a), b) == MergeAll(db, a + b)
    decreases |b|
  {
    if b == [] {
      assert a + b == a;
    } else {
      assert (a + b)[..|a + b| - 1] == a + b[..|b| - 1];
      MergeTwice(db, a, b[..|b| - 1]);
    }
  }

  lemma {:induction false} NoReads(ps: seq<Packet>, p: Packet)
    requires RecordsFirst(ps + [p]) && p.HistoryMsgs?
    ensures AllReads(ps) == []
  {
    if ps != [] {
      var init, last := ps[..|ps| - 1], ps[|ps| - 1];
      assert (ps + [p])[|init|] == last && (ps + [p])[|ps|] == p;
      assert forall i :: 0 <= i < |init| ==> (init + [p])[i] == (ps + [p])[i];
      NoReads(init, p);
    }
  }

  lemma OneMorePacket(db: Db, ps: seq<Packet>, p: Packet, now: int)
    requires RecordsFirst(ps + [p]) && GoodPacket(p)
    ensures Received(Receive(db, ps, now), p, now) == Receive(db, ps + [p], now)
  {
    AppendPacket(ps, p);
    var msgs, list := AllMsgs(ps), AllReads(ps);
    match p
    case HistoryMsgs(more) =>
      NoReads(ps, p);
      AcceptTwice(db, msgs, more, now);
      assert AllReads(ps + [p]) == [];
    case ReadsMap(more) =>
      MergeTwice(AcceptAll(db, msgs, now), list, more);
      assert AllMsgs(ps + [p]) == msgs;
    case _ =>
      assert AllMsgs(ps + [p]) == msgs && AllReads(ps + [p]) == list;
  }

  /** Receiving the packets one by one, as sent, is receiving their contents at once. */
  lemma {:induction false} PacketsAreOne(db: Db, ps: seq<Packet>, now: int)
    requires RecordsFirst(ps) && forall p :: p in ps ==> GoodPacket(p)
    ensures ReceivedAll(db, ps, now) == Receive(db, ps, now)
  {
    if ps != [] {
      var init, last := ps[..|ps| - 1], ps[|ps| - 1];
      assert init + [last] == ps;
      PacketsAreOne(db, init, now);
      OneMorePacket(db, init, last, now);
    }
  }

  ghost predicate PlainDb(db: Db) {
    && (forall id :: id in db ==> db[id].ts > 0)
    && (forall id :: id in db ==> db[id].author !in db[id].readBy)
  }

  /** Two browsers that ask each other and merge the packets end up showing the same
      window, the one of the union, whether b answers before or after its own merge. */
  lemma BrowsersAgree(a: Db, b: Db, bNow: Db, askA: Ask, askB: Ask, toA: seq<Packet>, toB: seq<Packet>, now: int)
    requires Trusted(a) && Trusted(b) && PlainDb(a) && PlainDb(b) && UniqueIds(Stamps(a) + Stamps(b))
    requires IsAskOf(askA, Abs(a)) && IsAskOf(askB, Abs(b))
    requires Answers(toB, a, askB.have, askB.since)
    requires bNow == b || (bNow == Receive(b, toB, now) && Trusted(bNow))
    requires Answers(toA, bNow, askA.have, askA.since)
    ensures var union := Hist(Stamps(a) + Stamps(b), ReceiptsOf(a) + ReceiptsOf(b));
      View(Abs(Receive(a, toA, now))) == View(Abs(Receive(b, toB, now))) == View(union)
  {
    BothMerge(a, b, bNow, askA, askB, toA, toB, now);
    TwoHistsAgree(a, b, Abs(bNow), askA, askB);
  }

  lemma BothMerge(a: Db, b: Db, bNow: Db, askA: Ask, askB: Ask, toA: seq<Packet>, toB: seq<Packet>, now: int)
    requires Trusted(a) && Trusted(b) && UniqueIds(Stamps(a) + Stamps(b))
    requires Answers(toB, a, askB.have, askB.since)
    requires bNow == b || (bNow == Receive(b, toB, now) && Trusted(bNow))
    requires Answers(toA, bNow, askA.have, askA.since)
    ensures Abs(Receive(b, toB, now)) == Merge(Abs(b), AnswerTo(askB, Abs(a)))
    ensures Abs(Receive(a, toA, now)) == Merge(Abs(a), AnswerTo(askA, Abs(bNow)))
  {
    ReceiveIsMerge(a, b, askB, toB, now, Stamps(a) + Stamps(b));
    StampsAfter(b, a, bNow, askB);
    ReceiveIsMerge(bNow, a, askA, toA, now, Stamps(a) + Stamps(b));
  }

  lemma TwoHistsAgree(a: Db, b: Db, bNow: Hist, askA: Ask, askB: Ask)
    requires PlainDb(a) && PlainDb(b) && UniqueIds(Stamps(a) + Stamps(b))
    requires IsAskOf(askA, Abs(a)) && IsAskOf(askB, Abs(b))
    requires bNow == Abs(b) || bNow == Merge(Abs(b), AnswerTo(askB, Abs(a)))
    ensures var union := Hist(Stamps(a) + Stamps(b), ReceiptsOf(a) + ReceiptsOf(b));
      View(Merge(Abs(a), AnswerTo(askA, bNow))) == View(Merge(Abs(b), AnswerTo(askB, Abs(a)))) == View(union)
  {
    var h0: map<Client, Hist> := map[0 := Abs(a), 1 := Abs(b)];
    UnionOfTwo(a, b, h0);
    TwoWaySync(h0, askA, askB, bNow);
  }

  lemma StampsAfter(b: Db, a: Db, bNow: Db, ask: Ask)
    requires bNow == b || Abs(bNow) == Merge(Abs(b), AnswerTo(ask, Abs(a)))
    ensures Stamps(bNow) <= Stamps(a) + Stamps(b)
  {}

  lemma ReceiveIsMerge(src: Db, dst: Db, ask: Ask, packets: seq<Packet>, now: int, all: set<Stamp>)
    requires Trusted(src) && WellKeyed(dst) && UniqueIds(all) && Stamps(dst) <= all && Stamps(src) <= all
    requires Answers(packets, src, ask.have, ask.since)
    ensures Abs(Receive(dst, packets, now)) == Merge(Abs(dst), AnswerTo(ask, Abs(src)))
  {
    UniqueSubset(Stamps(dst) + Stamps(src), all);
    ExchangeRefinesSync(src, dst, packets, ask.have, ask.since, now);
  }

  lemma UnionOfTwo(a: Db, b: Db, h0: map<Client, Hist>)
    requires PlainDb(a) && PlainDb(b) && UniqueIds(Stamps(a) + Stamps(b))
    requires h0.Keys == {0, 1} && h0[0] == Abs(a) && h0[1] == Abs(b)
    ensures UnionHist(h0) == Hist(Stamps(a) + Stamps(b), ReceiptsOf(a) + ReceiptsOf(b))
    ensures Legal(h0)
  {
    var u := UnionHist(h0);
    assert u.records == Stamps(a) + Stamps(b);
    assert u.receipts == ReceiptsOf(a) + ReceiptsOf(b);
    PlainReceipts(a);
    PlainReceipts(b);
  }

  lemma PlainReceipts(db: Db)
    requires PlainDb(db)
    ensures forall s :: s in Stamps(db) ==> s.ts > 0
    ensures forall c :: c in ReceiptsOf(db) ==> c.of in Stamps(db) && c.reader != c.of.author
  {}
}
