/** Any number of browsers with their databases: each packet of an answer, each message and
    each piece of a file is received on its own, in any order, with anything in between. */
module Network {
  import opened Wrappers
  import opened Window
  import opened Records
  import opened Convergence
  import opened History
  import opened HistorySync
  import opened Files

  // ----- what a browser keeps -----

  /** A record as sanitising leaves it. */
  ghost predicate Proper(r: Record) {
    r.id != "" && IsClean(r) && (r.viaJoin ==> r.body.Text?)
  }

  ghost predicate AllProper(db: Db) {
    forall id :: id in db ==> Proper(db[id])
  }

  /** What a download remembers of its record is still true of the record stored. */
  ghost predicate MetaHeld(db: Db, id: string, meta: Record) {
    && meta.id == id && id in db && StampOf(db[id]) == StampOf(meta)
    && meta.readBy.Keys <= db[id].readBy.Keys && Proper(meta)
  }

  ghost predicate MetasHeld(d: Dl) {
    forall id :: id in d.incoming && d.incoming[id].meta.Some? ==> MetaHeld(d.db, id, d.incoming[id].meta.value)
  }

  ghost predicate Tidy(d: Dl) {
    WellKeyed(d.db) && AllProper(d.db) && MetasHeld(d)
  }

  /** Records stay what they are and only gain readers. */
  ghost predicate Grows(db: Db, db': Db) {
    forall id :: id in db ==> id in db' && StampOf(db'[id]) == StampOf(db[id]) && db[id].readBy.Keys <= db'[id].readBy.Keys
  }

  lemma GrownTidy(d: Dl, db: Db)
    requires Tidy(d) && Grows(d.db, db) && WellKeyed(db) && AllProper(db)
    ensures Tidy(d.(db := db))
  {}

  lemma ReadersProper(r: Record, more: map<string, string>)
    requires Proper(r) && IsCleanReads(more)
    ensures Proper(AddReaders(r, more))
  {}

  lemma MergeIntoTidy(d: Dl, id: string, more: map<string, string>)
    requires Tidy(d) && IsCleanReads(more)
    ensures Tidy(d.(db := MergeInto(d.db, id, more)))
  {
    if id in d.db {
      AddReadersKeys(d.db[id], more);
      ReadersProper(d.db[id], more);
    }
    GrownTidy(d, MergeInto(d.db, id, more));
  }

  lemma AcceptTidy(d: Dl, raw: Raw, r: Record, now: int)
    requires Tidy(d) && Relayable(r) && IsItemOf(raw, r)
    ensures Tidy(d.(db := Accept(d.db, raw, now)))
  {
    AcceptHonest(d.db, raw, r, now);
    if r.id in d.db {
      MergeIntoTidy(d, r.id, r.readBy);
    } else {
      GrownTidy(d, d.db[r.id := r.(blob := None)]);
    }
  }

  lemma SplitItems(raws: seq<Raw>, rs: seq<Record>)
    requires AreItems(raws, rs) && AllRelayable(rs) && rs != []
    ensures var n := |rs| - 1;
      && AreItems(raws[..n], rs[..n]) && AllRelayable(rs[..n])
      && IsItemOf(raws[n], rs[n]) && Relayable(rs[n])
  {}

  lemma {:induction false} AcceptAllTidy(d: Dl, raws: seq<Raw>, rs: seq<Record>, now: int)
    requires Tidy(d) && AreItems(raws, rs) && AllRelayable(rs)
    ensures Tidy(d.(db := AcceptAll(d.db, raws, now)))
  {
    if rs != [] {
      var n := |rs| - 1;
      SplitItems(raws, rs);
      AcceptAllTidy(d, raws[..n], rs[..n], now);
      AcceptTidy(d.(db := AcceptAll(d.db, raws[..n], now)), raws[n], rs[n], now);
    }
  }

  lemma {:induction false} MergeAllTidy(d: Dl, list: seq<(string, Entries)>)
    requires Tidy(d)
    ensures Tidy(d.(db := MergeAll(d.db, list)))
  {
    if list != [] {
      var n := |list| - 1;
      var es := list[n].1;
      MergeAllTidy(d, list[..n]);
      ReadsObjectClean(if |es| <= MAX_READERS then es else es[..MAX_READERS]);
      MergeIntoTidy(d.(db := MergeAll(d.db, list[..n])), list[n].0, CleanReads(es));
    }
  }

  // ----- readers fit into a message -----

  ghost function ReadersOf(u: Hist, s: Stamp): set<string> {
    set c | c in u.receipts && c.of == s :: c.reader
  }

  /** No record has more readers, among all browsers, than a message may list. */
  ghost predicate FewReaders(u: Hist) {
    forall s :: s in u.records ==> |ReadersOf(u, s)| <= MAX_READERS
  }

  lemma TidyIsTrusted(d: Dl, u: Hist)
    requires Tidy(d) && Within(Abs(d.db), u) && FewReaders(u)
    ensures Trusted(d.db)
  {
    forall id | id in d.db ensures Relayable(d.db[id]) {
      var r := d.db[id];
      forall who | who in r.readBy.Keys ensures who in ReadersOf(u, StampOf(r)) {
        assert Receipt(StampOf(r), who) in ReceiptsOf(d.db);
      }
      assert StampOf(r) in Stamps(d.db);
      SubsetSize(r.readBy.Keys, ReadersOf(u, StampOf(r)));
      assert |r.readBy| == |r.readBy.Keys|;
    }
  }

  // ----- pieces of a file -----

  /** Finishing a download stores bytes and touches neither stamps nor readers. */
  lemma FinishKeeps(d: Dl, id: string)
    requires Tidy(d)
    ensures Tidy(Finish(d, id)) && Abs(Finish(d, id).db) == Abs(d.db)
  {
    if id in d.incoming && Done(d.incoming[id]) {
      var meta := d.incoming[id].meta.value;
      var rec := Finish(d, id).db[id];
      assert MetaHeld(d.db, id, meta);
      assert rec.readBy.Keys == d.db[id].readBy.Keys && StampOf(rec) == StampOf(d.db[id]);
      SameHist(d.db, id, rec);
      assert Proper(rec);
    }
  }

  lemma SameHist(db: Db, id: string, rec: Record)
    requires WellKeyed(db) && id in db && StampOf(rec) == StampOf(db[id]) && rec.readBy.Keys == db[id].readBy.Keys
    ensures Abs(db[id := rec]) == Abs(db)
  {
    var next := db[id := rec];
    assert forall x :: x in db ==> StampOf(next[x]) == StampOf(db[x]) && next[x].readBy.Keys == db[x].readBy.Keys;
    assert Stamps(next) == Stamps(db);
    assert ReceiptsOf(next) == ReceiptsOf(db);
  }

  lemma ChunkKeeps(d: Dl, id: string, i: nat, body: Bytes)
    requires Tidy(d)
    ensures Tidy(OnChunk(d, id, i, body)) && Abs(OnChunk(d, id, i, body).db) == Abs(d.db)
  {
    var d1 := WithSlot(d, id);
    assert Tidy(d1);
    if !(id !in d.incoming && HasBlob(d.db, id)) {
      var inc := d1.incoming[id];
      if !(i in inc.parts || (inc.meta.Some? && i >= inc.n)) {
        var d2 := Update(d1, id, PutPart(inc, i, body));
        assert Tidy(d2);
        FinishKeeps(d2, id);
      }
    }
  }

  /** What a meta packet adds: its record, with its readers, if it was unknown. */
  ghost function Introduced(db: Db, r: Record): Hist {
    if r.id in db then Hist({}, {}) else Hist({StampOf(r)}, OneReceipts(r))
  }

  ghost function Introducing(db: Db, r: Record): Db {
    if r.id in db then db else db[r.id := r]
  }

  lemma IntroducingAbs(db: Db, r: Record)
    requires WellKeyed(db)
    ensures Abs(Introducing(db, r)) == Merge(Abs(db), Introduced(db, r))
  {
    if r.id in db {
      assert Merge(Abs(db), Hist({}, {})) == Abs(db);
    } else {
      InsertIsMerge(db, r);
    }
  }

  lemma IntroducingTidy(d: Dl, r: Record)
    requires Tidy(d) && Proper(r)
    ensures Tidy(d.(db := Introducing(d.db, r)))
  {
    GrownTidy(d, Introducing(d.db, r));
  }

  lemma RemembersTidy(d: Dl, id: string, inc: Inc)
    requires Tidy(d) && id in d.db && inc.meta == Some(d.db[id])
    ensures Tidy(Update(d, id, inc))
  {
    assert MetaHeld(d.db, id, d.db[id]);
  }

  lemma WithMetaIs(d: Dl, r: Record, n: nat) returns (inc: Inc)
    ensures r.id in Introducing(d.db, r) && inc.meta == Some(Introducing(d.db, r)[r.id])
    ensures WithMeta(d, r, n) == Update(d.(db := Introducing(d.db, r)), r.id, inc)
  {
    inc := WithMeta(d, r, n).incoming[r.id];
    assert WithMeta(d, r, n).incoming == d.incoming[r.id := inc];
  }

  lemma WithMetaKeeps(d: Dl, r: Record, n: nat)
    requires Tidy(d) && Proper(r)
    ensures Tidy(WithMeta(d, r, n)) && WithMeta(d, r, n).db == Introducing(d.db, r)
  {
    var inc := WithMetaIs(d, r, n);
    IntroducingTidy(d, r);
    RemembersTidy(d.(db := Introducing(d.db, r)), r.id, inc);
  }

  lemma MetaKeeps(d: Dl, raw: Raw, r: Record, n: nat, now: int)
    requires Tidy(d) && Relayable(r) && IsItemOf(raw, r)
    ensures Tidy(OnMeta(d, raw, n, now))
    ensures Abs(OnMeta(d, raw, n, now).db) == Merge(Abs(d.db), Introduced(d.db, r))
  {
    RelayIsIdentity(r, raw.readBy, now);
    var rec := r.(blob := None);
    assert CleanRecord(raw, now) == rec;
    MetaAdds(d, rec, n);
    assert OneReceipts(rec) == OneReceipts(r);
  }

  lemma MetaAdds(d: Dl, rec: Record, n: nat)
    requires Tidy(d) && Proper(rec)
    ensures var d' := if HasBlob(d.db, rec.id) then d else Finish(WithMeta(d, rec, n), rec.id);
      Tidy(d') && Abs(d'.db) == Merge(Abs(d.db), Introduced(d.db, rec))
  {
    IntroducingAbs(d.db, rec);
    if !HasBlob(d.db, rec.id) {
      WithMetaKeeps(d, rec, n);
      FinishKeeps(WithMeta(d, rec, n), rec.id);
    }
  }

  // ----- the browsers -----

  /** An answer under way: its packets, the records they were made from, and which of them
      have been received. */
  datatype Sent = Sent(to: Client, packets: seq<Packet>, missing: seq<Record>, held: seq<Record>,
                       carries: set<Client>, done: set<nat>)

  datatype World = World(dls: map<Client, Dl>, asks: seq<AskMsg>, answers: seq<Sent>, reach: map<Client, set<Client>>)

  datatype Event =
    | Asks(i: Client, ask: Ask)
    | Replies(j: Client, k: nat, packets: seq<Packet>, all: seq<Record>)
    | Gets(m: nat, n: nat, now: int)
    | Hears(i: Client, j: Client, r: Record, raw: Raw, now: int)
    | SeesRead(i: Client, j: Client, r: Record, es: Entries)
    | GetsMeta(i: Client, j: Client, r: Record, raw: Raw, count: nat, now: int)
    | GetsChunk(i: Client, id: string, k: nat, body: Bytes)

  /** r is, or once was, in db, with at most the readers it has there. */
  ghost predicate HeldBy(r: Record, db: Db) {
    Relayable(r) && StampOf(r) in Stamps(db) && OneReceipts(r) <= ReceiptsOf(db)
  }

  ghost predicate Possible(w: World, e: Event) {
    match e
    case Asks(i, ask) => i in w.dls && IsAskOf(ask, Abs(w.dls[i].db))
    case Replies(j, k, packets, all) =>
      && j in w.dls && j in w.reach && k < |w.asks| && w.asks[k].from in w.dls
      && Timeline(all) && Lists(all, w.dls[j].db)
      && AnswersWith(packets, all, w.asks[k].ask.have, w.asks[k].ask.since)
      && (forall p :: p in packets ==> GoodPacket(p))
    case Gets(m, n, _) =>
      m < |w.answers| && n < |w.answers[m].packets| && w.answers[m].to in w.dls && w.answers[m].to in w.reach
    case Hears(i, j, r, raw, _) => i in w.dls && j in w.dls && HeldBy(r, w.dls[j].db) && IsItemOf(raw, r)
    case SeesRead(i, j, r, es) => i in w.dls && j in w.dls && HeldBy(r, w.dls[j].db) && Enumerates(es, r.readBy)
    case GetsMeta(i, j, r, raw, _, _) => i in w.dls && j in w.dls && HeldBy(r, w.dls[j].db) && IsItemOf(raw, r)
    case GetsChunk(i, _, _, _) => i in w.dls
  }

  ghost predicate AllDone(a: Sent) {
    forall n: nat :: n < |a.packets| ==> n in a.done
  }

  ghost function WithDb(w: World, i: Client, db: Db): World
    requires i in w.dls
  {
    w.(dls := w.dls[i := w.dls[i].(db := db)])
  }

  ghost function Becomes(w: World, e: Event): World {
    if !Possible(w, e) then w else
    match e
    case Asks(i, ask) => w.(asks := w.asks + [AskMsg(i, ask)])
    case Replies(j, k, packets, all) =>
      var ask, recent := w.asks[k].ask, LastN(all);
      w.(answers := w.answers + [Sent(w.asks[k].from, packets, Missing(recent, ask.have, ask.since),
                                      Held(recent, ask.have), w.reach[j], {})])
    case Gets(m, n, now) =>
      var a := w.answers[m].(done := w.answers[m].done + {n});
      var w1 := WithDb(w, a.to, Received(w.dls[a.to].db, a.packets[n], now));
      w1.(answers := w.answers[m := a],
          reach := if AllDone(a) then w.reach[a.to := w.reach[a.to] + a.carries] else w.reach)
    case Hears(i, _, _, raw, now) => WithDb(w, i, Accept(w.dls[i].db, raw, now))
    case SeesRead(i, _, r, es) => WithDb(w, i, MergeInto(w.dls[i].db, r.id, CleanReads(es)))
    case GetsMeta(i, _, _, raw, n, now) => w.(dls := w.dls[i := OnMeta(w.dls[i], raw, n, now)])
    case GetsChunk(i, id, k, body) => w.(dls := w.dls[i := OnChunk(w.dls[i], id, k, body)])
  }

  ghost function Live(w: World, es: seq<Event>): World
    decreases |es|
  {
    if es == [] then w else Live(Becomes(w, es[0]), es[1..])
  }

  ghost function Hists(dls: map<Client, Dl>): map<Client, Hist> {
    map i | i in dls :: Abs(dls[i].db)
  }

  ghost function Begin(dls: map<Client, Dl>): World {
    World(dls, [], [], map i | i in dls :: {i})
  }

  // ----- what one packet holds -----

  ghost function Part(a: Sent, n: nat): Hist
    requires n < |a.packets| && AreItems(AllMsgs(a.packets), a.missing) && AreReceipts(AllReads(a.packets), a.held)
  {
    PrefixLengths(a.packets, n);
    match a.packets[n]
    case HistoryMsgs(_) => HistOf(a.missing[|AllMsgs(a.packets[..n])|..|AllMsgs(a.packets[..n + 1])|])
    case ReadsMap(_) => Hist({}, ListReceipts(a.held[|AllReads(a.packets[..n])|..|AllReads(a.packets[..n + 1])|]))
    case _ => Hist({}, {})
  }

  lemma PrefixLengths(ps: seq<Packet>, n: nat)
    requires n < |ps|
    ensures |AllMsgs(ps[..n])| <= |AllMsgs(ps[..n + 1])| <= |AllMsgs(ps)|
    ensures |AllReads(ps[..n])| <= |AllReads(ps[..n + 1])| <= |AllReads(ps)|
    ensures ps[n].HistoryMsgs? ==> AllMsgs(ps)[|AllMsgs(ps[..n])|..|AllMsgs(ps[..n + 1])|] == ps[n].msgs
    ensures ps[n].ReadsMap? ==> AllReads(ps)[|AllReads(ps[..n])|..|AllReads(ps[..n + 1])|] == ps[n].entries
  {
    assert ps == ps[..n + 1] + ps[n + 1..] && ps[..n + 1] == ps[..n] + [ps[n]];
    ConcatPackets(ps[..n + 1], ps[n + 1..]);
    AppendPacket(ps[..n], ps[n]);
  }

  /** The packets an honest browser makes of what it holds. */
  ghost predicate SentOk(a: Sent, u: Hist) {
    && AreItems(AllMsgs(a.packets), a.missing) && AreReceipts(AllReads(a.packets), a.held)
    && AllRelayable(a.missing) && AllRelayable(a.held) && Timeline(a.missing)
    && StampSet(a.missing) <= u.records && StampSet(a.held) <= u.records
    && (forall c :: c in ListReceipts(a.held) ==> c.of !in StampSet(a.missing))
    && (forall p :: p in a.packets ==> GoodPacket(p))
  }

  ghost function AllOf(a: Sent): Hist {
    Hist(StampSet(a.missing), ListReceipts(a.missing) + ListReceipts(a.held))
  }

  lemma SliceOf(rs: seq<Record>, lo: nat, hi: nat)
    requires lo <= hi <= |rs|
    ensures StampSet(rs[lo..hi]) <= StampSet(rs) && ListReceipts(rs[lo..hi]) <= ListReceipts(rs)
    ensures AllRelayable(rs) ==> AllRelayable(rs[lo..hi])
    ensures Timeline(rs) ==> Timeline(rs[lo..hi])
  {
    assert forall k :: 0 <= k < hi - lo ==> rs[lo..hi][k] == rs[lo + k];
  }

  lemma PacketDb(d: Dl, a: Sent, n: nat, now: int, u: Hist)
    requires Tidy(d) && SentOk(a, u) && n < |a.packets| && Within(Abs(d.db), u) && UniqueIds(u.records)
    ensures var db := Received(d.db, a.packets[n], now);
      Tidy(d.(db := db)) && Abs(db) == Merge(Abs(d.db), Part(a, n))
  {
    var ps := a.packets;
    PrefixLengths(ps, n);
    match ps[n]
    case HistoryMsgs(msgs) =>
      var lo, hi := |AllMsgs(ps[..n])|, |AllMsgs(ps[..n + 1])|;
      var rs := a.missing[lo..hi];
      SliceOf(a.missing, lo, hi);
      SliceItems(AllMsgs(ps), a.missing, lo, hi);
      UniqueSubset(Stamps(d.db) + StampSet(rs), u.records);
      AcceptAllAbs(d.db, msgs, rs, now);
      AcceptAllTidy(d, msgs, rs, now);
    case ReadsMap(list) =>
      var lo, hi := |AllReads(ps[..n])|, |AllReads(ps[..n + 1])|;
      var rs := a.held[lo..hi];
      SliceOf(a.held, lo, hi);
      SliceReceipts(AllReads(ps), a.held, lo, hi);
      UniqueSubset(Stamps(d.db) + StampSet(rs), u.records);
      assert GoodPacket(ps[n]);
      MergeAllAbs(d.db, list, rs);
      MergeAllTidy(d, list);
    case _ =>
      assert Merge(Abs(d.db), Hist({}, {})) == Abs(d.db);
  }

  lemma SliceItems(raws: seq<Raw>, rs: seq<Record>, lo: nat, hi: nat)
    requires AreItems(raws, rs) && lo <= hi <= |rs|
    ensures AreItems(raws[lo..hi], rs[lo..hi])
  {}

  lemma SliceReceipts(list: seq<(string, Entries)>, rs: seq<Record>, lo: nat, hi: nat)
    requires AreReceipts(list, rs) && lo <= hi <= |rs|
    ensures AreReceipts(list[lo..hi], rs[lo..hi])
  {}

  lemma PartIsWhole(a: Sent, n: nat, u: Hist)
    requires SentOk(a, u) && n < |a.packets|
    ensures Whole(Part(a, n), AllOf(a))
  {
    PrefixLengths(a.packets, n);
    match a.packets[n]
    case HistoryMsgs(_) =>
      SliceOf(a.missing, |AllMsgs(a.packets[..n])|, |AllMsgs(a.packets[..n + 1])|);
    case ReadsMap(_) =>
      SliceOf(a.held, |AllReads(a.packets[..n])|, |AllReads(a.packets[..n + 1])|);
    case _ =>
  }

  lemma {:induction false} PacketOfRecord(ps: seq<Packet>, i: nat) returns (n: nat)
    requires i < |AllMsgs(ps)|
    ensures n < |ps| && ps[n].HistoryMsgs? && |AllMsgs(ps[..n])| <= i < |AllMsgs(ps[..n + 1])|
  {
    var last := |ps| - 1;
    assert ps[..last + 1] == ps;
    if i >= |AllMsgs(ps[..last])| {
      n := last;
    } else {
      n := PacketOfRecord(ps[..last], i);
      assert ps[..last][..n] == ps[..n] && ps[..last][..n + 1] == ps[..n + 1];
    }
  }

  lemma {:induction false} PacketOfReceipt(ps: seq<Packet>, i: nat) returns (n: nat)
    requires i < |AllReads(ps)|
    ensures n < |ps| && ps[n].ReadsMap? && |AllReads(ps[..n])| <= i < |AllReads(ps[..n + 1])|
  {
    var last := |ps| - 1;
    assert ps[..last + 1] == ps;
    if i >= |AllReads(ps[..last])| {
      n := last;
    } else {
      n := PacketOfReceipt(ps[..last], i);
      assert ps[..last][..n] == ps[..n] && ps[..last][..n + 1] == ps[..n + 1];
    }
  }

  lemma InSlice(rs: seq<Record>, lo: nat, hi: nat, i: nat)
    requires lo <= i < hi <= |rs|
    ensures StampOf(rs[i]) in StampSet(rs[lo..hi]) && OneReceipts(rs[i]) <= ListReceipts(rs[lo..hi])
  {
    assert rs[lo..hi][i - lo] == rs[i];
  }

  lemma RecordIsSent(a: Sent, u: Hist, i: nat) returns (n: nat)
    requires SentOk(a, u) && i < |a.missing|
    ensures n < |a.packets|
    ensures StampOf(a.missing[i]) in Part(a, n).records && OneReceipts(a.missing[i]) <= Part(a, n).receipts
  {
    n := PacketOfRecord(a.packets, i);
    PrefixLengths(a.packets, n);
    var lo, hi := |AllMsgs(a.packets[..n])|, |AllMsgs(a.packets[..n + 1])|;
    InSlice(a.missing, lo, hi, i);
  }

  lemma ReceiptIsSent(a: Sent, u: Hist, i: nat) returns (n: nat)
    requires SentOk(a, u) && i < |a.held|
    ensures n < |a.packets| && OneReceipts(a.held[i]) <= Part(a, n).receipts
  {
    n := PacketOfReceipt(a.packets, i);
    PrefixLengths(a.packets, n);
    var lo, hi := |AllReads(a.packets[..n])|, |AllReads(a.packets[..n + 1])|;
    InSlice(a.held, lo, hi, i);
  }

  /** All packets together hold the whole answer. */
  lemma PacketsCover(a: Sent, u: Hist, got: Hist)
    requires SentOk(a, u) && forall n: nat :: n < |a.packets| ==> Within(Part(a, n), got)
    ensures Within(AllOf(a), got)
  {
    forall s | s in StampSet(a.missing) ensures s in got.records {
      var i :| 0 <= i < |a.missing| && StampOf(a.missing[i]) == s;
      var n := RecordIsSent(a, u, i);
      assert Within(Part(a, n), got);
    }
    forall c | c in ListReceipts(a.missing) ensures c in got.receipts {
      var i, who :| 0 <= i < |a.missing| && who in a.missing[i].readBy && c == Receipt(StampOf(a.missing[i]), who);
      var n := RecordIsSent(a, u, i);
      assert Within(Part(a, n), got);
    }
    forall c | c in ListReceipts(a.held) ensures c in got.receipts {
      var i, who :| 0 <= i < |a.held| && who in a.held[i].readBy && c == Receipt(StampOf(a.held[i]), who);
      var n := ReceiptIsSent(a, u, i);
      assert Within(Part(a, n), got);
    }
  }

  // ----- the databases follow the abstract network -----

  ghost predicate PartGot(a: Sent, n: nat, u: Hist, got: Hist) {
    n in a.done && n < |a.packets| && SentOk(a, u) ==> Within(Part(a, n), got)
  }

  ghost predicate AnswerFits(u: Hist, a: Sent, msg: AnswerMsg) {
    && SentOk(a, u) && a.to == msg.to && a.carries <= msg.carries && msg.answer == AllOf(a)
    && forall n: nat :: PartGot(a, n, u, msg.got)
  }

  ghost predicate AnswerFitsAt(u: Hist, w: World, net: Net, m: nat) {
    m < |w.answers| && m < |net.answers| ==> AnswerFits(u, w.answers[m], net.answers[m])
  }

  ghost predicate DlFits(w: World, net: Net, i: Client) {
    i in w.dls && i in net.hist ==> Tidy(w.dls[i]) && net.hist[i] == Abs(w.dls[i].db)
  }

  ghost predicate ReachFits(w: World, net: Net, i: Client) {
    i in w.reach && i in net.reach ==> w.reach[i] <= net.reach[i]
  }

  ghost predicate DlsFit(w: World, net: Net) { forall i :: DlFits(w, net, i) }

  ghost predicate ReachesFit(w: World, net: Net) { forall i :: ReachFits(w, net, i) }

  ghost predicate AnswersFit(u: Hist, w: World, net: Net) { forall m :: AnswerFitsAt(u, w, net, m) }

  ghost predicate Fits(h0: map<Client, Hist>, w: World, net: Net) {
    Inv(h0, net) && w.dls.Keys == w.reach.Keys == h0.Keys && Matches(UnionHist(h0), w, net)
  }

  ghost predicate Matches(u: Hist, w: World, net: Net) {
    && w.dls.Keys == net.hist.Keys && w.reach.Keys == net.reach.Keys
    && w.asks == net.asks && |w.answers| == |net.answers|
    && DlsFit(w, net) && ReachesFit(w, net) && AnswersFit(u, w, net)
  }

  /** Ids are unique, and no record has too many readers for a message. */
  ghost predicate Sound(h0: map<Client, Hist>) {
    Legal(h0) && FewReaders(UnionHist(h0))
  }

  lemma DbWithin(h0: map<Client, Hist>, w: World, net: Net, i: Client)
    requires Sound(h0) && Fits(h0, w, net) && i in w.dls
    ensures i in net.hist && net.hist[i] == Abs(w.dls[i].db) && Tidy(w.dls[i])
    ensures Within(Abs(w.dls[i].db), UnionHist(h0)) && Trusted(w.dls[i].db)
  {
    assert DlFits(w, net, i);
    TidyIsTrusted(w.dls[i], UnionHist(h0));
  }

  lemma OneDl(w: World, net: Net, w': World, net': Net, i: Client)
    requires DlsFit(w, net) && i in w'.dls && i in net'.hist
    requires w'.dls == w.dls[i := w'.dls[i]] && net'.hist == net.hist[i := net'.hist[i]]
    requires Tidy(w'.dls[i]) && net'.hist[i] == Abs(w'.dls[i].db)
    ensures DlsFit(w', net')
  {
    forall k ensures DlFits(w', net', k) { assert DlFits(w, net, k); }
  }

  lemma OneReach(w: World, net: Net, w': World, net': Net, i: Client)
    requires ReachesFit(w, net) && i in w'.reach && i in net'.reach
    requires w'.reach == w.reach[i := w'.reach[i]] && net'.reach == net.reach[i := net'.reach[i]]
    requires w'.reach[i] <= net'.reach[i]
    ensures ReachesFit(w', net')
  {
    forall k ensures ReachFits(w', net', k) { assert ReachFits(w, net, k); }
  }

  lemma OneAnswer(u: Hist, w: World, net: Net, w': World, net': Net, m: nat)
    requires AnswersFit(u, w, net) && |w.answers| == |net.answers|
    requires |w.answers| <= |w'.answers| && |w'.answers| == |net'.answers|
    requires AnswerFitsAt(u, w', net', m) && |w'.answers| <= (if m == |w.answers| then m + 1 else |w.answers|)
    requires forall k :: 0 <= k < |w.answers| && k != m ==> w'.answers[k] == w.answers[k] && net'.answers[k] == net.answers[k]
    ensures AnswersFit(u, w', net')
  {
    forall k ensures AnswerFitsAt(u, w', net', k) { assert AnswerFitsAt(u, w, net, k); }
  }

  lemma SameAnswers(u: Hist, w: World, net: Net, w': World, net': Net)
    requires AnswersFit(u, w, net) && w'.answers == w.answers && net'.answers == net.answers
    ensures AnswersFit(u, w', net')
  {
    forall k ensures AnswerFitsAt(u, w', net', k) { assert AnswerFitsAt(u, w, net, k); }
  }

  lemma OneDbMatches(u: Hist, w: World, net: Net, i: Client, d: Dl)
    requires Matches(u, w, net) && i in w.dls && Tidy(d)
    ensures Matches(u, w.(dls := w.dls[i := d]), net.(hist := net.hist[i := Abs(d.db)]))
  {
    var (w', net') := (w.(dls := w.dls[i := d]), net.(hist := net.hist[i := Abs(d.db)]));
    OneDl(w, net, w', net', i);
    forall k ensures ReachFits(w', net', k) { assert ReachFits(w, net, k); }
    SameAnswers(u, w, net, w', net');
  }

  /** A change to one database that the abstract network makes too. */
  lemma OneDbFits(h0: map<Client, Hist>, w: World, net: Net, i: Client, d: Dl, step: Step)
    requires Sound(h0) && Fits(h0, w, net) && i in w.dls && Tidy(d)
    requires step.Learn? && step.i == i && Enabled(net, step)
    requires Abs(d.db) == Merge(net.hist[i], step.part)
    ensures Fits(h0, w.(dls := w.dls[i := d]), Next(net, step))
  {
    StepKeepsInv(h0, net, step);
    OneDbMatches(UnionHist(h0), w, net, i, d);
  }

  lemma HeldLearn(h0: map<Client, Hist>, w: World, net: Net, i: Client, j: Client, r: Record)
    requires Sound(h0) && Fits(h0, w, net) && i in w.dls && j in w.dls && HeldBy(r, w.dls[j].db)
    ensures Enabled(net, Learn(i, j, Hist({StampOf(r)}, OneReceipts(r))))
    ensures Enabled(net, Learn(i, j, Hist({}, OneReceipts(r))))
    ensures Enabled(net, Learn(i, j, Hist({}, {})))
    ensures UniqueIds(Stamps(w.dls[i].db) + {StampOf(r)})
  {
    DbWithin(h0, w, net, i);
    DbWithin(h0, w, net, j);
    UniqueSubset(Stamps(w.dls[i].db) + {StampOf(r)}, UnionHist(h0).records);
  }

  lemma NothingLearned(h0: map<Client, Hist>, w: World, net: Net, i: Client, d: Dl) returns (step: Step)
    requires Sound(h0) && Fits(h0, w, net) && i in w.dls && Tidy(d) && Abs(d.db) == Abs(w.dls[i].db)
    ensures Fits(h0, w.(dls := w.dls[i := d]), Next(net, step))
  {
    step := Learn(i, i, Hist({}, {}));
    DbWithin(h0, w, net, i);
    assert Merge(net.hist[i], Hist({}, {})) == net.hist[i];
    OneDbFits(h0, w, net, i, d, step);
  }

  lemma MessageFits(h0: map<Client, Hist>, w: World, net: Net, e: Event) returns (step: Step)
    requires Sound(h0) && Fits(h0, w, net) && Possible(w, e) && (e.Hears? || e.SeesRead?)
    ensures Fits(h0, Becomes(w, e), Next(net, step))
  {
    var i := e.i;
    HeldLearn(h0, w, net, i, e.j, e.r);
    DbWithin(h0, w, net, i);
    var d := w.dls[i];
    if e.Hears? {
      step := Learn(i, e.j, Hist({StampOf(e.r)}, OneReceipts(e.r)));
      AcceptAbs(d.db, e.raw, e.r, e.now);
      AcceptTidy(d, e.raw, e.r, e.now);
      OneDbFits(h0, w, net, i, d.(db := Accept(d.db, e.raw, e.now)), step);
    } else {
      step := Learn(i, e.j, Hist({}, OneReceipts(e.r)));
      MergeReceiptAbs(d.db, e.es, e.r);
      RelayIsIdentity(e.r, e.es, 1);
      MergeIntoTidy(d, e.r.id, CleanReads(e.es));
      OneDbFits(h0, w, net, i, d.(db := MergeInto(d.db, e.r.id, CleanReads(e.es))), step);
    }
  }

  lemma PieceFits(h0: map<Client, Hist>, w: World, net: Net, e: Event) returns (step: Step)
    requires Sound(h0) && Fits(h0, w, net) && Possible(w, e) && (e.GetsMeta? || e.GetsChunk?)
    ensures Fits(h0, Becomes(w, e), Next(net, step))
  {
    var i := e.i;
    DbWithin(h0, w, net, i);
    var d := w.dls[i];
    if e.GetsMeta? {
      HeldLearn(h0, w, net, i, e.j, e.r);
      step := Learn(i, e.j, Introduced(d.db, e.r));
      MetaKeeps(d, e.raw, e.r, e.count, e.now);
      OneDbFits(h0, w, net, i, OnMeta(d, e.raw, e.count, e.now), step);
    } else {
      ChunkKeeps(d, e.id, e.k, e.body);
      step := NothingLearned(h0, w, net, i, OnChunk(d, e.id, e.k, e.body));
    }
  }

  lemma AskFits(h0: map<Client, Hist>, w: World, net: Net, e: Event) returns (step: Step)
    requires Sound(h0) && Fits(h0, w, net) && Possible(w, e) && e.Asks?
    ensures Fits(h0, Becomes(w, e), Next(net, step))
  {
    step := SendAsk(e.i, e.ask);
    DbWithin(h0, w, net, e.i);
    StepKeepsInv(h0, net, step);
    var (w', net') := (Becomes(w, e), Next(net, step));
    assert ReachFits(w, net, e.i);
    OneDl(w, net, w', net', e.i);
    OneReach(w, net, w', net', e.i);
    SameAnswers(UnionHist(h0), w, net, w', net');
  }

  lemma ReplyMade(h0: map<Client, Hist>, src: Db, all: seq<Record>, packets: seq<Packet>, ask: Ask, a: Sent)
    requires Trusted(src) && Within(Abs(src), UnionHist(h0)) && Timeline(all) && Lists(all, src)
    requires AnswersWith(packets, all, ask.have, ask.since) && (forall p :: p in packets ==> GoodPacket(p))
    requires a == Sent(a.to, packets, Missing(LastN(all), ask.have, ask.since), Held(LastN(all), ask.have), a.carries, {})
    ensures SentOk(a, UnionHist(h0)) && AllOf(a) == AnswerTo(ask, Abs(src))
  {
    SelectedFromDb(src, all, ask.have, ask.since);
    AnswerAbs(src, all, ask.have, ask.since);
    assert Timeline(LastN(all));
    HeldNotMissing(LastN(all), ask.have, ask.since);
  }

  /** The reply that event e sends. */
  ghost function ReplyOf(w: World, e: Event): Sent
    requires Possible(w, e) && e.Replies?
  {
    var ask, recent := w.asks[e.k].ask, LastN(e.all);
    Sent(w.asks[e.k].from, e.packets, Missing(recent, ask.have, ask.since), Held(recent, ask.have), w.reach[e.j], {})
  }

  lemma ReplyAnswers(h0: map<Client, Hist>, w: World, net: Net, e: Event) returns (msg: AnswerMsg)
    requires Sound(h0) && Fits(h0, w, net) && Possible(w, e) && e.Replies?
    ensures Enabled(net, SendAnswer(e.j, e.k)) && AnswerFits(UnionHist(h0), ReplyOf(w, e), msg)
    ensures var net' := Next(net, SendAnswer(e.j, e.k));
      net' == net.(answers := net.answers + [msg], reach := Credit(net.reach, msg))
  {
    DbWithin(h0, w, net, e.j);
    msg := AnswerMsg(net.asks[e.k].from, AnswerTo(net.asks[e.k].ask, net.hist[e.j]), net.reach[e.j], Hist({}, {}));
    ReplyMade(h0, w.dls[e.j].db, e.all, e.packets, w.asks[e.k].ask, ReplyOf(w, e));
    assert ReachFits(w, net, e.j);
  }

  lemma ReplyMatches(u: Hist, w: World, net: Net, e: Event, msg: AnswerMsg)
    requires Matches(u, w, net) && Possible(w, e) && e.Replies?
    requires msg.to in net.reach && AnswerFits(u, ReplyOf(w, e), msg)
    ensures Matches(u, Becomes(w, e), net.(answers := net.answers + [msg], reach := Credit(net.reach, msg)))
  {
    var (w', net') := (Becomes(w, e), net.(answers := net.answers + [msg], reach := Credit(net.reach, msg)));
    assert DlFits(w, net, e.j) && ReachFits(w, net, msg.to);
    OneDl(w, net, w', net', e.j);
    OneReach(w, net, w', net', msg.to);
    OneAnswer(u, w, net, w', net', |w.answers|);
  }

  lemma ReplyFits(h0: map<Client, Hist>, w: World, net: Net, e: Event) returns (step: Step)
    requires Sound(h0) && Fits(h0, w, net) && Possible(w, e) && e.Replies?
    ensures Fits(h0, Becomes(w, e), Next(net, step))
  {
    step := SendAnswer(e.j, e.k);
    var msg := ReplyAnswers(h0, w, net, e);
    StepKeepsInv(h0, net, step);
    ReplyMatches(UnionHist(h0), w, net, e, msg);
  }

  lemma PacketLands(h0: map<Client, Hist>, w: World, net: Net, m: nat, n: nat, now: int)
    requires Sound(h0) && Fits(h0, w, net) && Possible(w, Gets(m, n, now))
    ensures SentOk(w.answers[m], UnionHist(h0))
    ensures var (a, part) := (w.answers[m], Part(w.answers[m], n));
      && a.to == net.answers[m].to && Enabled(net, Deliver(m, part))
      && Landed(net.hist[a.to], part) == part
      && var d := w.dls[a.to].(db := Received(w.dls[a.to].db, a.packets[n], now));
         Tidy(d) && Abs(d.db) == Merge(net.hist[a.to], part)
  {
    var u := UnionHist(h0);
    var a := w.answers[m];
    assert AnswerFitsAt(u, w, net, m);
    DbWithin(h0, w, net, a.to);
    PartIsWhole(a, n, u);
    WholePartLands(h0, net, m, Part(a, n));
    PacketDb(w.dls[a.to], a, n, now, u);
  }

  lemma GotMore(h0: map<Client, Hist>, a: Sent, msg: AnswerMsg, n: nat, got: Hist)
    requires AnswerFits(UnionHist(h0), a, msg) && n < |a.packets| && got == Join(msg.got, Part(a, n))
    ensures AnswerFits(UnionHist(h0), a.(done := a.done + {n}), msg.(got := got))
    ensures AllDone(a.(done := a.done + {n})) ==> Within(msg.answer, got)
  {
    var u := UnionHist(h0);
    var a' := a.(done := a.done + {n});
    forall k: nat ensures PartGot(a', k, u, got) {
      assert PartGot(a, k, u, msg.got);
      if k < |a.packets| { assert Part(a', k) == Part(a, k); }
    }
    if AllDone(a') {
      forall k: nat | k < |a'.packets| ensures Within(Part(a', k), got) { assert PartGot(a', k, u, got); }
      PacketsCover(a', u, got);
    }
  }

  lemma DeliverReach(reach: map<Client, set<Client>>, reach': map<Client, set<Client>>, a: Sent, msg: AnswerMsg)
    requires a.to == msg.to && a.to in reach && a.to in reach' && reach[a.to] <= reach'[a.to] && a.carries <= msg.carries
    requires AllDone(a) ==> Within(msg.answer, msg.got)
    ensures (if AllDone(a) then reach[a.to] + a.carries else reach[a.to]) <= Credit(reach', msg)[a.to]
  {}

  lemma PacketFits(h0: map<Client, Hist>, w: World, net: Net, e: Event) returns (step: Step)
    requires Sound(h0) && Fits(h0, w, net) && Possible(w, e) && e.Gets?
    ensures Fits(h0, Becomes(w, e), Next(net, step))
  {
    var u := UnionHist(h0);
    var a := w.answers[e.m];
    PacketLands(h0, w, net, e.m, e.n, e.now);
    step := Deliver(e.m, Part(a, e.n));
    StepKeepsInv(h0, net, step);
    assert AnswerFitsAt(u, w, net, e.m) && ReachFits(w, net, a.to);
    var msg := Arrived(net.answers[e.m], net.hist[a.to], Part(a, e.n));
    GotMore(h0, a, net.answers[e.m], e.n, msg.got);
    DeliverReach(w.reach, net.reach, a.(done := a.done + {e.n}), msg);
    DeliveredMatches(u, w, net, e, msg, Merge(net.hist[a.to], Part(a, e.n)));
  }

  lemma DeliveredMatches(u: Hist, w: World, net: Net, e: Event, msg: AnswerMsg, h: Hist)
    requires Matches(u, w, net) && Possible(w, e) && e.Gets? && msg.to == w.answers[e.m].to
    requires AnswerFits(u, Becomes(w, e).answers[e.m], msg)
    requires Becomes(w, e).reach[msg.to] <= Credit(net.reach, msg)[msg.to]
    requires Tidy(Becomes(w, e).dls[msg.to]) && h == Abs(Becomes(w, e).dls[msg.to].db)
    ensures Matches(u, Becomes(w, e),
                    net.(hist := net.hist[msg.to := h], answers := net.answers[e.m := msg], reach := Credit(net.reach, msg)))
  {
    var net' := net.(hist := net.hist[msg.to := h], answers := net.answers[e.m := msg], reach := Credit(net.reach, msg));
    OneDl(w, net, Becomes(w, e), net', msg.to);
    OneReach(w, net, Becomes(w, e), net', msg.to);
    OneAnswer(u, w, net, Becomes(w, e), net', e.m);
  }

  /** Whatever happens to the databases, the abstract network does the same in one step. */
  lemma EventFits(h0: map<Client, Hist>, w: World, net: Net, e: Event) returns (step: Step)
    requires Sound(h0) && Fits(h0, w, net) && Possible(w, e)
    ensures Fits(h0, Becomes(w, e), Next(net, step))
  {
    match e
    case Asks(_, _) => step := AskFits(h0, w, net, e);
    case Replies(_, _, _, _) => step := ReplyFits(h0, w, net, e);
    case Gets(_, _, _) => step := PacketFits(h0, w, net, e);
    case Hears(_, _, _, _, _) => step := MessageFits(h0, w, net, e);
    case SeesRead(_, _, _, _) => step := MessageFits(h0, w, net, e);
    case GetsMeta(_, _, _, _, _, _) => step := PieceFits(h0, w, net, e);
    case GetsChunk(_, _, _, _) => step := PieceFits(h0, w, net, e);
  }

  lemma {:induction false} RunFits(h0: map<Client, Hist>, w: World, net: Net, es: seq<Event>) returns (steps: seq<Step>)
    requires Sound(h0) && Fits(h0, w, net)
    ensures Fits(h0, Live(w, es), Run(net, steps))
    decreases |es|
  {
    steps := [];
    if es != [] {
      if Possible(w, es[0]) {
        var step := EventFits(h0, w, net, es[0]);
        steps := RunFits(h0, Becomes(w, es[0]), Next(net, step), es[1..]);
        assert ([step] + steps)[1..] == steps;
        steps := [step] + steps;
      } else {
        steps := RunFits(h0, w, net, es[1..]);
      }
    }
  }

  ghost predicate AllTidy(dls: map<Client, Dl>) {
    forall i :: i in dls ==> Tidy(dls[i])
  }

  lemma BeginFits(dls: map<Client, Dl>)
    requires AllTidy(dls) && Sound(Hists(dls))
    ensures Fits(Hists(dls), Begin(dls), Start(Hists(dls)))
  {
    StartInv(Hists(dls));
  }

  /** Main theorem.  Any number of browsers ask, answer and relay; each packet of an answer
      is received on its own, in any order, repeatedly or never, among messages and pieces of
      files from anyone.  A browser that all initial databases reached through answers
      received in full shows exactly the window of their union, with all its receipts. */
  lemma DatabasesConverge(dls: map<Client, Dl>, es: seq<Event>, i: Client)
    requires AllTidy(dls) && Sound(Hists(dls)) && i in dls
    requires i in Live(Begin(dls), es).reach && Live(Begin(dls), es).reach[i] == dls.Keys
    ensures i in Live(Begin(dls), es).dls
    ensures View(Abs(Live(Begin(dls), es).dls[i].db)) == View(UnionHist(Hists(dls)))
  {
    var h0, w := Hists(dls), Live(Begin(dls), es);
    BeginFits(dls);
    var steps := RunFits(h0, Begin(dls), Start(h0), es);
    var net := Run(Start(h0), steps);
    assert DlFits(w, net, i) && ReachFits(w, net, i);
    Converges(h0, steps, i);
  }

  /** And every database keeps what it had, and holds nothing that nobody had. */
  lemma DatabasesKeep(dls: map<Client, Dl>, es: seq<Event>, i: Client)
    requires AllTidy(dls) && Sound(Hists(dls)) && i in dls
    ensures i in Live(Begin(dls), es).dls
    ensures var db := Live(Begin(dls), es).dls[i].db;
      Trusted(db) && Within(Abs(dls[i].db), Abs(db)) && Within(Abs(db), UnionHist(Hists(dls)))
  {
    var h0, w := Hists(dls), Live(Begin(dls), es);
    BeginFits(dls);
    var steps := RunFits(h0, Begin(dls), Start(h0), es);
    DbWithin(h0, w, Run(Start(h0), steps), i);
    NothingLostOrInvented(h0, steps, i);
  }
}
