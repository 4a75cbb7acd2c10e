/** The message database of one room in one browser, and its half of the history
    exchange. */
module History {
  import opened Wrappers
  import opened Window
  import opened Records
  import opened Convergence

  const HISTORY_FILE_MAX := 20 * 1024 * 1024
  const HISTORY_BATCH_BYTES := 40 * 1024

  type Db = map<string, Record>

  function StampOf(r: Record): Stamp {
    Stamp(r.ts, r.id, r.author)
  }

  ghost predicate WellKeyed(db: Db) {
    forall id :: id in db ==> db[id].id == id
  }

  ghost function Stamps(db: Db): set<Stamp> {
    set id | id in db :: StampOf(db[id])
  }

  ghost function ReceiptsOf(db: Db): set<Receipt> {
    set id, who | id in db && who in db[id].readBy :: Receipt(StampOf(db[id]), who)
  }

  /** The history a database stands for: its records, and who read which. */
  ghost function Abs(db: Db): Hist {
    Hist(Stamps(db), ReceiptsOf(db))
  }

  // ----- packets -----

  datatype Packet =
    | HistoryMsgs(msgs: seq<Raw>)
    | ReadsMap(entries: seq<(string, Entries)>)
    | Transfer(rec: Record)
    | HistoryEnd

  function AllMsgs(ps: seq<Packet>): seq<Raw> {
    if ps == [] then [] else
      var last := ps[|ps| - 1];
      AllMsgs(ps[..|ps| - 1]) + (if last.HistoryMsgs? then last.msgs else [])
  }

  function AllReads(ps: seq<Packet>): seq<(string, Entries)> {
    if ps == [] then [] else
      var last := ps[|ps| - 1];
      AllReads(ps[..|ps| - 1]) + (if last.ReadsMap? then last.entries else [])
  }

  function AllTransfers(ps: seq<Packet>): seq<Record> {
    if ps == [] then [] else
      var last := ps[|ps| - 1];
      AllTransfers(ps[..|ps| - 1]) + (if last.Transfer? then [last.rec] else [])
  }

  /** No packet is empty, and none lists more receipts than a receiver looks at. */
  ghost predicate GoodPacket(p: Packet) {
    && (p.HistoryMsgs? ==> p.msgs != [])
    && (p.ReadsMap? ==> 0 < |p.entries| <= HISTORY_LIMIT)
  }

  ghost predicate IsItemOf(raw: Raw, r: Record) {
    && raw == Raw(r.id, r.author, r.name, r.ts, raw.readBy, r.viaJoin && r.body.Text?, r.body)
    && Enumerates(raw.readBy, r.readBy)
  }

  // ----- which records an answer holds -----

  predicate Wanted(r: Record, have: set<string>, since: int) {
    r.ts >= since && r.id !in have
  }

  function Missing(rs: seq<Record>, have: set<string>, since: int): seq<Record> {
    if rs == [] then [] else
      var n := |rs| - 1;
      Missing(rs[..n], have, since) + (if Wanted(rs[n], have, since) then [rs[n]] else [])
  }

  function Held(rs: seq<Record>, have: set<string>): seq<Record> {
    if rs == [] then [] else
      var n := |rs| - 1;
      Held(rs[..n], have) + (if rs[n].id in have && rs[n].readBy != map[] then [rs[n]] else [])
  }

  predicate Shareable(r: Record) {
    r.body.File? && r.blob.Some? && r.body.size <= HISTORY_FILE_MAX
  }

  function Shared(rs: seq<Record>): seq<Record> {
    if rs == [] then [] else
      var n := |rs| - 1;
      Shared(rs[..n]) + (if Shareable(rs[n]) then [rs[n]] else [])
  }

  // ----- the timeline -----

  ghost predicate Timeline(rs: seq<Record>) {
    forall i, j :: 0 <= i < j < |rs| ==> Later(StampOf(rs[i]), StampOf(rs[j]))
  }

  ghost predicate Lists(rs: seq<Record>, db: Db) {
    && (forall i :: 0 <= i < |rs| ==> rs[i].id in db && db[rs[i].id] == rs[i])
    && (forall id :: id in db ==> db[id] in rs)
  }

  function LastN<T>(s: seq<T>): (r: seq<T>)
    ensures |r| <= HISTORY_LIMIT
  {
    if |s| <= HISTORY_LIMIT then s else s[|s| - HISTORY_LIMIT..]
  }

  ghost function StampSet(rs: seq<Record>): set<Stamp> {
    set i | 0 <= i < |rs| :: StampOf(rs[i])
  }

  lemma {:induction false} TimelineSize(rs: seq<Record>)
    requires Timeline(rs)
    ensures |StampSet(rs)| == |rs|
  {
    if rs != [] {
      var n := |rs| - 1;
      TimelineSize(rs[..n]);
      assert forall i :: 0 <= i < n ==> rs[..n][i] == rs[i];
      if StampOf(rs[n]) in StampSet(rs[..n]) {
        var i :| 0 <= i < n && StampOf(rs[i]) == StampOf(rs[n]);
        LaterIrreflexive(StampOf(rs[n]));
      }
      assert StampSet(rs) == StampSet(rs[..n]) + {StampOf(rs[n])};
    }
  }

  lemma InWindow(rs: seq<Record>, i: nat)
    requires Timeline(rs) && i < |rs|
    ensures StampOf(rs[i]) in Recent(StampSet(rs)) <==> i >= |rs| - HISTORY_LIMIT
  {
    AboveIsSuffix(rs, i);
    TimelineSize(rs[i + 1..]);
    assert StampOf(rs[i]) in StampSet(rs);
  }

  /** The last HISTORY_LIMIT rows of the sorted table are the window of its records. */
  lemma TailIsRecent(rs: seq<Record>)
    requires Timeline(rs)
    ensures StampSet(LastN(rs)) == Recent(StampSet(rs))
  {
    var tail := LastN(rs);
    var d := |rs| - |tail|;
    forall s | s in Recent(StampSet(rs)) ensures s in StampSet(tail) {
      var i :| 0 <= i < |rs| && StampOf(rs[i]) == s;
      InWindow(rs, i);
      assert tail[i - d] == rs[i];
    }
    forall s | s in StampSet(tail) ensures s in Recent(StampSet(rs)) {
      var j :| 0 <= j < |tail| && StampOf(tail[j]) == s;
      assert rs[d + j] == tail[j];
      InWindow(rs, d + j);
    }
  }

  lemma AboveIsSuffix(rs: seq<Record>, i: nat)
    requires Timeline(rs) && i < |rs|
    ensures Above(StampSet(rs), StampOf(rs[i])) == StampSet(rs[i + 1..])
  {
    var x := StampOf(rs[i]);
    forall j | 0 <= j < |rs| ensures Later(x, StampOf(rs[j])) <==> j > i {
      if j < i && Later(x, StampOf(rs[j])) {
        LaterTransitive(x, StampOf(rs[j]), x);
      }
      LaterIrreflexive(x);
    }
    var suffix := rs[i + 1..];
    assert forall k :: 0 <= k < |suffix| ==> suffix[k] == rs[i + 1 + k];
    forall s | s in Above(StampSet(rs), x) ensures s in StampSet(suffix) {
      var j :| 0 <= j < |rs| && StampOf(rs[j]) == s;
      assert suffix[j - i - 1] == rs[j];
    }
  }

  // ----- accepting what arrives -----

  function MergeInto(db: Db, id: string, more: map<string, string>): Db {
    if id in db then db[id := AddReaders(db[id], more)] else db
  }

  function Accept(db: Db, raw: Raw, now: int): Db {
    if raw.id == "" then db else
      var rec := CleanRecord(raw, now);
      if rec.id in db then MergeInto(db, rec.id, rec.readBy) else db[rec.id := rec]
  }

  function AcceptAll(db: Db, raws: seq<Raw>, now: int): Db {
    if raws == [] then db else
      Accept(AcceptAll(db, raws[..|raws| - 1], now), raws[|raws| - 1], now)
  }

  function MergeAll(db: Db, list: seq<(string, Entries)>): Db {
    if list == [] then db else
      var (id, es) := list[|list| - 1];
      MergeInto(MergeAll(db, list[..|list| - 1]), id, CleanReads(es))
  }

  // ----- the database object -----

  class MessageStore {
    var messages: Db

    ghost predicate Valid()
      reads this
    {
      WellKeyed(messages)
    }

    constructor ()
      ensures Valid() && messages == map[]
    {
      messages := map[];
    }

    method Put(rec: Record)
      requires WellKeyed(messages)
      modifies this
      ensures WellKeyed(messages) && messages == old(messages)[rec.id := rec]
    {
      messages := messages[rec.id := rec];
    }

    /** Rows of the index, in key order. */
    method KeyOrdered() returns (rows: seq<Record>)
      requires Valid()
      ensures Lists(rows, messages)
      ensures forall i, j :: 0 <= i < j < |rows| ==> IdLess(rows[i].id, rows[j].id)
    {
      rows := [];
      var rest := messages.Keys;
      while rest != {}
        invariant rest <= messages.Keys
        invariant forall i :: 0 <= i < |rows| ==>
            rows[i].id in messages && messages[rows[i].id] == rows[i] && rows[i].id !in rest
        invariant forall id :: id in messages && id !in rest ==> messages[id] in rows
        invariant forall i, j :: 0 <= i < j < |rows| ==> IdLess(rows[i].id, rows[j].id)
        invariant forall i, k :: 0 <= i < |rows| && k in rest ==> IdLess(rows[i].id, k)
        decreases rest
      {
        ghost var m := LeastId(rest);
        var k :| k in rest && forall x :: x in rest ==> x == k || IdLess(k, x);
        rows := rows + [messages[k]];
        rest := rest - {k};
      }
    }

    /** Every record, oldest first. */
    method DbAll() returns (rows: seq<Record>)
      requires Valid()
      ensures Timeline(rows) && Lists(rows, messages)
    {
      var byKey := KeyOrdered();
      rows := SortByTs(byKey);
      SameElements(byKey, rows, messages);
    }

    method MergeReads(id: string, es: Entries) returns (changed: bool)
      requires Valid()
      modifies this
      ensures Valid() && messages == MergeInto(old(messages), id, CleanReads(es))
      ensures !changed ==> messages == old(messages)
    {
      changed := false;
      if id !in messages { return; }
      var rec := messages[id];
      var clean := CleanReadsLoop(es);
      var merged;
      merged, changed := AddMissing(rec, clean);
      if !changed {
        assert rec.(readBy := merged) == rec;
        assert messages == messages[id := rec];
        return;
      }
      messages := messages[id := rec.(readBy := merged)];
    }

    method AcceptRecord(raw: Raw, now: int)
      requires Valid()
      modifies this
      ensures Valid() && messages == Accept(old(messages), raw, now)
    {
      if raw.id == "" { return; }
      var rec := CleanRecord(raw, now);
      if rec.id in messages {
        var es := ObjectEntries(rec.readBy);
        CleanReadsTwice(raw.readBy, es);
        var _ := MergeReads(rec.id, es);
      } else {
        messages := messages[rec.id := rec];
      }
    }

    method ReceiveHistory(msgs: seq<Raw>, now: int)
      requires Valid()
      modifies this
      ensures Valid() && messages == AcceptAll(old(messages), msgs, now)
    {
      for i := 0 to |msgs|
        invariant Valid() && messages == AcceptAll(old(messages), msgs[..i], now)
      {
        assert msgs[..i + 1][..i] == msgs[..i];
        AcceptRecord(msgs[i], now);
      }
      assert msgs[..|msgs|] == msgs;
    }

    method ReceiveReads(list: seq<(string, Entries)>)
      requires Valid()
      modifies this
      ensures Valid()
      ensures messages == MergeAll(old(messages), if |list| <= HISTORY_LIMIT then list else list[..HISTORY_LIMIT])
    {
      var kept := if |list| <= HISTORY_LIMIT then list else list[..HISTORY_LIMIT];
      for i := 0 to |kept|
        invariant Valid() && messages == MergeAll(old(messages), kept[..i])
      {
        assert kept[..i + 1][..i] == kept[..i];
        var _ := MergeReads(kept[i].0, kept[i].1);
      }
      assert kept[..|kept|] == kept;
    }

    /** The request that opens a sync: the ids of the window and its cut-off. */
    method MakeRequest() returns (ids: seq<string>, since: int)
      requires Valid()
      ensures IsAskOf(Ask(HaveSet(ids), since), Abs(messages))
    {
      var all := DbAll();
      var recent := LastN(all);
      ids := seq(|recent|, i requires 0 <= i < |recent| => recent[i].id);
      since := if |recent| >= HISTORY_LIMIT then recent[0].ts else 0;
      RequestIsAsk(messages, all, ids, since);
    }

    /** The answer to such a request.  Concatenated, its packets hold exactly the
        records the asker lacks and the receipts of those it has, each once. */
    method SendHistory(ids: seq<string>, since: int) returns (packets: seq<Packet>)
      requires Valid()
      ensures Answers(packets, messages, HaveSet(ids), since)
      ensures forall p :: p in packets ==> GoodPacket(p)
      ensures packets != [] && packets[|packets| - 1] == HistoryEnd
      ensures RecordsFirst(packets)
    {
      var have := HaveSet(ids);
      var all := DbAll();
      var recent := LastN(all);
      var missing := FilterMissing(recent, have, since);
      var first := SendRecords(missing);
      var second := SendReceipts(recent, have);
      assert forall p :: p in second ==> GoodPacket(p);
      var third := SendFiles(missing);
      packets := first + second + third + [HistoryEnd];
      AssembleAnswer(first, second, third, all, messages, have, since);
      RecordsThenReads(first, second, third);
    }
  }

  /** The name shown for k once the readers in clean are merged. */
  function NameOf(rec: Record, clean: map<string, string>, k: string): string
    requires k in rec.readBy || (k in clean && k != rec.author)
  {
    if k in clean && k != rec.author && (k !in rec.readBy || rec.readBy[k] == "") then clean[k] else rec.readBy[k]
  }

  method AddMissing(rec: Record, clean: map<string, string>) returns (merged: map<string, string>, changed: bool)
    ensures merged == AddReaders(rec, clean).readBy
    ensures !changed ==> merged == rec.readBy
  {
    merged, changed := rec.readBy, false;
    var rest := clean.Keys;
    while rest != {}
      invariant rest <= clean.Keys
      invariant merged.Keys == rec.readBy.Keys + (clean.Keys - rest - {rec.author})
      invariant forall k :: k in merged && k !in rest ==> merged[k] == NameOf(rec, clean, k)
      invariant forall k :: k in rest && k in merged ==> merged[k] == rec.readBy[k]
      invariant !changed ==> merged == rec.readBy
      decreases rest
    {
      var who :| who in rest;
      rest := rest - {who};
      if who == rec.author || (who in merged && merged[who] != "") { continue; }
      merged := merged[who := clean[who]];
      changed := true;
    }
  }

  ghost predicate AnswersWith(packets: seq<Packet>, all: seq<Record>, have: set<string>, since: int) {
    var missing := Missing(LastN(all), have, since);
    && AreItems(AllMsgs(packets), missing)
    && AreReceipts(AllReads(packets), Held(LastN(all), have))
    && AllTransfers(packets) == Shared(missing)
  }

  ghost predicate Answers(packets: seq<Packet>, db: Db, have: set<string>, since: int) {
    exists all :: Timeline(all) && Lists(all, db) && AnswersWith(packets, all, have, since)
  }

  /** Receipts of known records travel after the records. */
  ghost predicate RecordsFirst(ps: seq<Packet>) {
    forall i, j :: 0 <= i < j < |ps| && ps[i].ReadsMap? ==> !ps[j].HistoryMsgs?
  }

  lemma {:induction false} NoSuchPackets(ps: seq<Packet>)
    requires forall p :: p in ps ==> GoodPacket(p)
    ensures AllMsgs(ps) == [] ==> forall p :: p in ps ==> !p.HistoryMsgs?
    ensures AllReads(ps) == [] ==> forall p :: p in ps ==> !p.ReadsMap?
  {
    if ps != [] {
      NoSuchPackets(ps[..|ps| - 1]);
      SplitLast(ps);
      assert GoodPacket(ps[|ps| - 1]);
    }
  }

  lemma RecordsThenReads(first: seq<Packet>, second: seq<Packet>, third: seq<Packet>)
    requires AllReads(first) == [] && AllMsgs(second) == [] && AllMsgs(third) == []
    requires forall p :: p in first || p in second || p in third ==> GoodPacket(p)
    ensures RecordsFirst(first + second + third + [HistoryEnd])
  {
    NoSuchPackets(first);
    NoSuchPackets(second);
    NoSuchPackets(third);
    var ps := first + second + third + [HistoryEnd];
    assert forall i :: 0 <= i < |first| ==> ps[i] in first;
    assert forall i :: |first| <= i < |ps| ==> ps[i] in second || ps[i] in third || ps[i] == HistoryEnd;
  }

  lemma AssembleAnswer(first: seq<Packet>, second: seq<Packet>, third: seq<Packet>,
                       all: seq<Record>, db: Db, have: set<string>, since: int)
    requires Timeline(all) && Lists(all, db)
    requires AreItems(AllMsgs(first), Missing(LastN(all), have, since))
    requires AreReceipts(AllReads(second), Held(LastN(all), have))
    requires AllTransfers(third) == Shared(Missing(LastN(all), have, since))
    requires AllReads(first) == [] && AllTransfers(first) == []
    requires AllMsgs(second) == [] && AllTransfers(second) == []
    requires AllMsgs(third) == [] && AllReads(third) == []
    requires forall p :: p in first || p in second || p in third ==> GoodPacket(p)
    ensures Answers(first + second + third + [HistoryEnd], db, have, since)
    ensures forall p :: p in first + second + third + [HistoryEnd] ==> GoodPacket(p)
  {
    var packets := first + second + third + [HistoryEnd];
    AllOfThree(first, second, third);
    assert AllMsgs(packets) == AllMsgs(first) + [] + [];
    assert AllMsgs(packets) == AllMsgs(first);
    assert AllReads(packets) == AllReads(second);
    assert AllTransfers(packets) == AllTransfers(third);
    assert AnswersWith(packets, all, have, since);
  }

  lemma AllOfThree(first: seq<Packet>, second: seq<Packet>, third: seq<Packet>)
    ensures var ps := first + second + third + [HistoryEnd];
      && AllMsgs(ps) == AllMsgs(first) + AllMsgs(second) + AllMsgs(third)
      && AllReads(ps) == AllReads(first) + AllReads(second) + AllReads(third)
      && AllTransfers(ps) == AllTransfers(first) + AllTransfers(second) + AllTransfers(third)
  {
    ConcatPackets(first, second);
    ConcatPackets(first + second, third);
    AppendPacket(first + second + third, HistoryEnd);
  }

  lemma SameElements(a: seq<Record>, b: seq<Record>, db: Db)
    requires Lists(a, db) && forall r :: r in b <==> r in a
    ensures Lists(b, db)
  {
    forall i | 0 <= i < |b| ensures b[i].id in db && db[b[i].id] == b[i] {
      assert b[i] in b;
      var j :| 0 <= j < |a| && a[j] == b[i];
    }
  }

  function HaveSet(ids: seq<string>): set<string> {
    var kept := if |ids| <= HISTORY_LIMIT + 1 then ids else ids[..HISTORY_LIMIT + 1];
    set i | 0 <= i < |kept| :: kept[i]
  }

  /** Of the ids an asker lists, those after the 1001st do not count. */
  lemma ListedIds(ids: seq<string>, id: string)
    ensures id in HaveSet(ids) <==> exists i :: 0 <= i < |ids| && i <= 1000 && ids[i] == id
  {
    if i :| 0 <= i < |ids| && i <= 1000 && ids[i] == id {
      var kept := if |ids| <= HISTORY_LIMIT + 1 then ids else ids[..HISTORY_LIMIT + 1];
      assert kept[i] == id;
    }
  }

  ghost predicate AreItems(raws: seq<Raw>, rs: seq<Record>) {
    |raws| == |rs| && forall i :: 0 <= i < |rs| ==> IsItemOf(raws[i], rs[i])
  }

  ghost predicate AreReceipts(list: seq<(string, Entries)>, rs: seq<Record>) {
    |list| == |rs| && forall i :: 0 <= i < |rs| ==> list[i].0 == rs[i].id && Enumerates(list[i].1, rs[i].readBy)
  }

  // ----- the loops of sendHistory -----

  method FilterMissing(recent: seq<Record>, have: set<string>, since: int) returns (missing: seq<Record>)
    ensures missing == Missing(recent, have, since)
  {
    missing := [];
    for i := 0 to |recent|
      invariant missing == Missing(recent[..i], have, since)
    {
      assert recent[..i + 1][..i] == recent[..i];
      if Wanted(recent[i], have, since) { missing := missing + [recent[i]]; }
    }
    assert recent[..|recent|] == recent;
  }

  lemma AppendPacket(ps: seq<Packet>, p: Packet)
    ensures AllMsgs(ps + [p]) == AllMsgs(ps) + if p.HistoryMsgs? then p.msgs else []
    ensures AllReads(ps + [p]) == AllReads(ps) + if p.ReadsMap? then p.entries else []
    ensures AllTransfers(ps + [p]) == AllTransfers(ps) + if p.Transfer? then [p.rec] else []
  {
    assert (ps + [p])[..|ps|] == ps;
  }

  lemma Assoc<T>(x: seq<T>, y: seq<T>, z: seq<T>)
    ensures x + (y + z) == (x + y) + z
  {}

  lemma {:induction false} ConcatPackets(a: seq<Packet>, b: seq<Packet>)
    ensures AllMsgs(a + b) == AllMsgs(a) + AllMsgs(b)
    ensures AllReads(a + b) == AllReads(a) + AllReads(b)
    ensures AllTransfers(a + b) == AllTransfers(a) + AllTransfers(b)
  {
    if b == [] {
      assert a + b == a;
    } else {
      var n := |b| - 1;
      ConcatPackets(a, b[..n]);
      assert a + b == (a + b[..n]) + [b[n]] && b == b[..n] + [b[n]];
      AppendPacket(a + b[..n], b[n]);
      AppendPacket(b[..n], b[n]);
      Assoc(AllMsgs(a), AllMsgs(b[..n]), if b[n].HistoryMsgs? then b[n].msgs else []);
      Assoc(AllReads(a), AllReads(b[..n]), if b[n].ReadsMap? then b[n].entries else []);
      Assoc(AllTransfers(a), AllTransfers(b[..n]), if b[n].Transfer? then [b[n].rec] else []);
    }
  }

  lemma OneMoreItem(raws: seq<Raw>, rs: seq<Record>, raw: Raw, r: Record)
    requires AreItems(raws, rs) && IsItemOf(raw, r)
    ensures AreItems(raws + [raw], rs + [r])
  {}

  lemma OneMoreReceipt(list: seq<(string, Entries)>, rs: seq<Record>, es: Entries, r: Record)
    requires AreReceipts(list, rs) && Enumerates(es, r.readBy)
    ensures AreReceipts(list + [(r.id, es)], rs + [r])
  {}

  /** The estimated size of a batch: three bytes a character, and 300 for each record. */
  function BatchSize(raws: seq<Raw>): nat {
    if raws == [] then 0 else
      var last := raws[|raws| - 1];
      BatchSize(raws[..|raws| - 1]) + (if last.body.Text? then |last.body.text| else 0) * 3 + 300
  }

  lemma BatchSizeLast(raws: seq<Raw>, raw: Raw)
    ensures BatchSize(raws + [raw]) == BatchSize(raws) + (if raw.body.Text? then |raw.body.text| else 0) * 3 + 300
  {
    assert (raws + [raw])[..|raws|] == raws;
  }

  /** A batch is within 40 KiB until its last record comes. */
  ghost predicate Fits(p: Packet) {
    p.HistoryMsgs? && p.msgs != [] && BatchSize(p.msgs[..|p.msgs| - 1]) <= 40 * 1024
  }

  /** And it is sent at once when that takes it over. */
  ghost predicate IsFull(p: Packet) {
    Fits(p) && BatchSize(p.msgs) > 40 * 1024
  }

  method ItemOf(r: Record) returns (item: Raw)
    ensures IsItemOf(item, r)
  {
    var es := ObjectEntries(r.readBy);
    item := Raw(r.id, r.author, r.name, r.ts, es, r.viaJoin && r.body.Text?, r.body);
  }

  lemma NextItem(sent: seq<Raw>, missing: seq<Record>, i: nat, item: Raw)
    requires i < |missing| && AreItems(sent, missing[..i]) && IsItemOf(item, missing[i])
    ensures AreItems(sent + [item], missing[..i + 1])
  {
    OneMoreItem(sent, missing[..i], item, missing[i]);
    assert missing[..i] + [missing[i]] == missing[..i + 1];
  }

  /** Full batches so far, and one under way; sent is all of them. */
  ghost predicate Batching(ps: seq<Packet>, batch: seq<Raw>, size: nat, sent: seq<Raw>) {
    && AllMsgs(ps) + batch == sent && AllReads(ps) == [] && AllTransfers(ps) == []
    && (forall p :: p in ps ==> GoodPacket(p) && IsFull(p))
    && size == BatchSize(batch) <= 40 * 1024
  }

  method AddItem(ps: seq<Packet>, batch: seq<Raw>, size: nat, item: Raw, ghost sent: seq<Raw>)
    returns (ps': seq<Packet>, batch': seq<Raw>, size': nat)
    requires Batching(ps, batch, size, sent)
    ensures Batching(ps', batch', size', sent + [item])
  {
    BatchSizeLast(batch, item);
    Regroup(AllMsgs(ps), batch, item);
    assert (batch + [item])[..|batch|] == batch;
    ps', batch' := ps, batch + [item];
    size' := size + (if item.body.Text? then |item.body.text| else 0) * 3 + 300;
    if size' > HISTORY_BATCH_BYTES {
      ps' := Flush(ps, HistoryMsgs(batch'));
      assert AllMsgs(ps') + [] == AllMsgs(ps');
      batch', size' := [], 0;
    }
  }

  method SendRecords(missing: seq<Record>) returns (packets: seq<Packet>)
    ensures AreItems(AllMsgs(packets), missing)
    ensures AllReads(packets) == [] && AllTransfers(packets) == []
    ensures forall p :: p in packets ==> GoodPacket(p) && Fits(p)
    ensures forall k :: 0 <= k < |packets| - 1 ==> IsFull(packets[k])
  {
    packets := [];
    var batch: seq<Raw>, size := [], 0;
    ghost var sent: seq<Raw> := [];
    for i := 0 to |missing|
      invariant Batching(packets, batch, size, sent) && AreItems(sent, missing[..i])
    {
      var item := ItemOf(missing[i]);
      NextItem(sent, missing, i, item);
      packets, batch, size := AddItem(packets, batch, size, item, sent);
      sent := sent + [item];
    }
    assert missing[..|missing|] == missing;
    packets := FlushItems(packets, batch, size, sent);
  }

  method FlushItems(ps: seq<Packet>, batch: seq<Raw>, size: nat, ghost sent: seq<Raw>) returns (more: seq<Packet>)
    requires Batching(ps, batch, size, sent)
    ensures AllMsgs(more) == sent && AllReads(more) == [] && AllTransfers(more) == []
    ensures forall p :: p in more ==> GoodPacket(p) && Fits(p)
    ensures forall k :: 0 <= k < |more| - 1 ==> IsFull(more[k])
  {
    more := ps;
    if batch != [] {
      BatchSizeFront(batch);
      more := Flush(ps, HistoryMsgs(batch));
    }
  }

  lemma BatchSizeFront(raws: seq<Raw>)
    requires raws != []
    ensures BatchSize(raws[..|raws| - 1]) <= BatchSize(raws)
  {}

  method Flush(packets: seq<Packet>, p: Packet) returns (more: seq<Packet>)
    requires GoodPacket(p) && forall q :: q in packets ==> GoodPacket(q)
    ensures AllMsgs(more) == AllMsgs(packets) + if p.HistoryMsgs? then p.msgs else []
    ensures AllReads(more) == AllReads(packets) + if p.ReadsMap? then p.entries else []
    ensures AllTransfers(more) == AllTransfers(packets) + if p.Transfer? then [p.rec] else []
    ensures forall q :: q in more ==> GoodPacket(q)
    ensures more == packets + [p]
  {
    AppendPacket(packets, p);
    more := packets + [p];
  }

  lemma HeldNext(recent: seq<Record>, have: set<string>, i: nat)
    requires i < |recent|
    ensures Held(recent[..i + 1], have) ==
      if recent[i].id in have && recent[i].readBy != map[] then Held(recent[..i], have) + [recent[i]]
      else Held(recent[..i], have)
  {
    assert recent[..i + 1][..i] == recent[..i];
  }

  lemma Regroup<T>(s: seq<T>, batch: seq<T>, x: T)
    ensures s + batch + [x] == s + (batch + [x])
  {}

  /** 137 entries, at 300 bytes each, are the first to exceed 40 KiB. */
  ghost predicate AllFullReads(ps: seq<Packet>) {
    forall p :: p in ps ==> p.ReadsMap? && |p.entries| == 137
  }

  method FlushFull(packets: seq<Packet>, batch: seq<(string, Entries)>) returns (more: seq<Packet>)
    requires AllFullReads(packets) && |batch| == 137
    ensures AllFullReads(more)
    ensures AllReads(more) + [] == AllReads(packets) + batch
    ensures AllMsgs(more) == AllMsgs(packets) && AllTransfers(more) == AllTransfers(packets)
  {
    AppendPacket(packets, ReadsMap(batch));
    more := packets + [ReadsMap(batch)];
    assert AllReads(more) + [] == AllReads(more);
  }

  ghost predicate FullReadsButLast(ps: seq<Packet>) {
    && (forall p :: p in ps ==> GoodPacket(p) && p.ReadsMap? && |p.entries| <= 137)
    && (forall k :: 0 <= k < |ps| - 1 ==> |ps[k].entries| == 137)
  }

  method FlushLast(packets: seq<Packet>, batch: seq<(string, Entries)>) returns (more: seq<Packet>)
    requires AllFullReads(packets) && |batch| <= 137
    ensures FullReadsButLast(more)
    ensures AllReads(more) == AllReads(packets) + batch
    ensures AllMsgs(more) == AllMsgs(packets) && AllTransfers(more) == AllTransfers(packets)
  {
    more := packets;
    if batch != [] {
      AppendPacket(packets, ReadsMap(batch));
      more := packets + [ReadsMap(batch)];
    } else {
      assert AllReads(packets) + batch == AllReads(packets);
    }
  }

  ghost predicate BatchingReads(ps: seq<Packet>, batch: seq<(string, Entries)>, size: nat, sent: seq<(string, Entries)>) {
    && AllReads(ps) + batch == sent && AllMsgs(ps) == [] && AllTransfers(ps) == [] && AllFullReads(ps)
    && size == 300 * |batch| <= 40 * 1024
  }

  method AddReceipts(ps: seq<Packet>, batch: seq<(string, Entries)>, size: nat, entry: (string, Entries),
                     ghost sent: seq<(string, Entries)>)
    returns (ps': seq<Packet>, batch': seq<(string, Entries)>, size': nat)
    requires BatchingReads(ps, batch, size, sent)
    ensures BatchingReads(ps', batch', size', sent + [entry])
  {
    Regroup(AllReads(ps), batch, entry);
    ps', batch', size' := ps, batch + [entry], size + 300;
    if size' > HISTORY_BATCH_BYTES {
      ps' := FlushFull(ps, batch');
      batch', size' := [], 0;
    }
  }

  method SendReceipts(recent: seq<Record>, have: set<string>) returns (packets: seq<Packet>)
    requires |recent| <= HISTORY_LIMIT
    ensures AreReceipts(AllReads(packets), Held(recent, have))
    ensures AllMsgs(packets) == [] && AllTransfers(packets) == []
    ensures FullReadsButLast(packets)
  {
    packets := [];
    var batch: seq<(string, Entries)>, size := [], 0;
    ghost var sent: seq<(string, Entries)> := [];
    for i := 0 to |recent|
      invariant BatchingReads(packets, batch, size, sent) && AreReceipts(sent, Held(recent[..i], have))
    {
      HeldNext(recent, have, i);
      var r := recent[i];
      if r.id !in have || r.readBy == map[] { continue; }
      var es := ObjectEntries(r.readBy);
      OneMoreReceipt(sent, Held(recent[..i], have), es, r);
      packets, batch, size := AddReceipts(packets, batch, size, (r.id, es), sent);
      sent := sent + [(r.id, es)];
    }
    assert recent[..|recent|] == recent;
    packets := FlushLast(packets, batch);
  }

  method SendFiles(missing: seq<Record>) returns (packets: seq<Packet>)
    ensures AllTransfers(packets) == Shared(missing)
    ensures AllMsgs(packets) == [] && AllReads(packets) == []
    ensures forall p :: p in packets ==> GoodPacket(p)
  {
    packets := [];
    for i := 0 to |missing|
      invariant AllTransfers(packets) == Shared(missing[..i])
      invariant AllMsgs(packets) == [] && AllReads(packets) == []
      invariant forall p :: p in packets ==> GoodPacket(p)
    {
      assert missing[..i + 1][..i] == missing[..i];
      if Shareable(missing[i]) { packets := Flush(packets, Transfer(missing[i])); }
    }
    assert missing[..|missing|] == missing;
  }

  // ----- small library stand-ins -----

  /** Object.entries: each entry once, in no particular order. */
  method ObjectEntries(m: map<string, string>) returns (es: Entries)
    ensures Enumerates(es, m)
  {
    es := [];
    var rest := m.Keys;
    while rest != {}
      invariant rest <= m.Keys && |es| == |m.Keys| - |rest|
      invariant forall i :: 0 <= i < |es| ==> es[i].0 in m && m[es[i].0] == es[i].1 && es[i].0 !in rest
      invariant forall i, j :: 0 <= i < j < |es| ==> es[i].0 != es[j].0
      decreases rest
    {
      var k :| k in rest;
      es := es + [(k, m[k])];
      rest := rest - {k};
    }
  }

  lemma CleanReadsTwice(raw: Entries, es: Entries)
    requires Enumerates(es, CleanReads(raw))
    ensures CleanReads(es) == CleanReads(raw)
  {
    ReadsObjectClean(if |raw| <= MAX_READERS then raw else raw[..MAX_READERS]);
    EnumeratedBack(es, CleanReads(raw));
  }

  lemma {:induction false} LeastId(s: set<string>) returns (m: string)
    requires s != {}
    ensures m in s && forall x :: x in s ==> x == m || IdLess(m, x)
    decreases |s|
  {
    m :| m in s;
    if s != {m} {
      var k := LeastId(s - {m});
      IdLessTotal(m, k);
      if IdLess(k, m) {
        m := k;
      } else {
        forall x | x in s ensures x == m || IdLess(m, x) {
          if x != m && x != k { IdLessTransitive(m, k, x); }
        }
      }
    }
  }

  /** The stable sort by ts.  Over rows in key order it yields the timeline. */
  method SortByTs(rows: seq<Record>) returns (out: seq<Record>)
    requires forall i, j :: 0 <= i < j < |rows| ==> IdLess(rows[i].id, rows[j].id)
    ensures Timeline(out)
    ensures forall r :: r in out <==> r in rows
  {
    out := [];
    for n := 0 to |rows|
      invariant Timeline(out)
      invariant forall r :: r in out <==> r in rows[..n]
    {
      var r := rows[n];
      var at := |out|;
      while at > 0 && out[at - 1].ts > r.ts
        invariant 0 <= at <= |out|
        invariant forall j :: at <= j < |out| ==> Later(StampOf(r), StampOf(out[j]))
      {
        at := at - 1;
      }
      forall j | 0 <= j < at ensures Later(StampOf(out[j]), StampOf(r)) {
        assert out[j] in rows[..n];
        if j < at - 1 { assert Later(StampOf(out[j]), StampOf(out[at - 1])); }
      }
      assert rows[..n + 1] == rows[..n] + [r];
      out := out[..at] + [r] + out[at..];
    }
    assert rows[..|rows|] == rows;
  }

  // ----- the request and the answer, seen as Ask and Answer -----

  lemma ListedStamps(rs: seq<Record>, db: Db)
    requires WellKeyed(db) && Lists(rs, db)
    ensures StampSet(rs) == Stamps(db)
  {
    forall s | s in Stamps(db) ensures s in StampSet(rs) {
      var id :| id in db && StampOf(db[id]) == s;
      var i :| 0 <= i < |rs| && rs[i] == db[id];
    }
  }

  lemma RequestIsAsk(db: Db, all: seq<Record>, ids: seq<string>, since: int)
    requires WellKeyed(db) && Timeline(all) && Lists(all, db)
    requires |ids| == |LastN(all)| && forall i :: 0 <= i < |ids| ==> ids[i] == LastN(all)[i].id
    requires since == if |LastN(all)| >= HISTORY_LIMIT then LastN(all)[0].ts else 0
    ensures IsAskOf(Ask(set i | 0 <= i < |ids| :: ids[i], since), Abs(db))
  {
    var recent := LastN(all);
    ListedStamps(all, db);
    TailIsRecent(all);
    TimelineSize(recent);
    IdsOfWindow(recent, ids);
    if |recent| >= HISTORY_LIMIT { OldestOfWindow(recent); }
  }

  lemma IdsOfWindow(recent: seq<Record>, ids: seq<string>)
    requires |ids| == |recent| && forall i :: 0 <= i < |ids| ==> ids[i] == recent[i].id
    ensures (set i | 0 <= i < |ids| :: ids[i]) == Ids(StampSet(recent))
  {
    var w := StampSet(recent);
    var have := set i | 0 <= i < |ids| :: ids[i];
    forall id | id in have ensures id in Ids(w) {
      var i :| 0 <= i < |ids| && ids[i] == id;
      assert StampOf(recent[i]) in w;
    }
    forall id | id in Ids(w) ensures id in have {
      var s :| s in w && s.id == id;
      var i :| 0 <= i < |recent| && StampOf(recent[i]) == s;
      assert ids[i] == id;
    }
  }

  lemma OldestOfWindow(recent: seq<Record>)
    requires Timeline(recent) && recent != []
    ensures IsOldestTs(StampSet(recent), recent[0].ts)
  {
    assert StampOf(recent[0]) in StampSet(recent);
    forall s | s in StampSet(recent) ensures recent[0].ts <= s.ts {
      var i :| 0 <= i < |recent| && StampOf(recent[i]) == s;
    }
  }
}
