/** The files of an answer: which records an answer transfers, and that whoever receives it
    ends up with the bytes of exactly those. */
module FileSync {
  import opened Wrappers
  import opened Window
  import opened Records
  import opened History
  import opened HistorySync
  import opened Files
  import opened Reassembly

  // ----- how often an answer holds a record -----

  /** How many transfers of this record there are among the packets. */
  ghost function TransfersOf(ps: seq<Packet>, id: string): nat {
    if ps == [] then 0
    else TransfersOf(ps[..|ps| - 1], id)
         + (if ps[|ps| - 1].Transfer? && ps[|ps| - 1].rec.id == id then 1 else 0)
  }

  ghost function Copies(rs: seq<Record>, id: string): nat {
    if rs == [] then 0
    else Copies(rs[..|rs| - 1], id) + (if rs[|rs| - 1].id == id then 1 else 0)
  }

  ghost function RawCopies(rs: seq<Raw>, id: string): nat {
    if rs == [] then 0
    else RawCopies(rs[..|rs| - 1], id) + (if rs[|rs| - 1].id == id then 1 else 0)
  }

  ghost function EntriesOf(list: seq<(string, Entries)>, id: string): nat {
    if list == [] then 0
    else EntriesOf(list[..|list| - 1], id) + (if list[|list| - 1].0 == id then 1 else 0)
  }

  lemma CopiesLast(rs: seq<Record>, r: Record, id: string)
    ensures Copies(rs + [r], id) == Copies(rs, id) + (if r.id == id then 1 else 0)
  {
    assert (rs + [r])[..|rs|] == rs;
  }

  lemma {:induction false} TransfersCounted(ps: seq<Packet>, id: string)
    ensures TransfersOf(ps, id) == Copies(AllTransfers(ps), id)
    ensures forall p :: p in ps && p.Transfer? <==> p.Transfer? && p in ps && p.rec in AllTransfers(ps)
  {
    if ps != [] {
      var init, last := ps[..|ps| - 1], ps[|ps| - 1];
      TransfersCounted(init, id);
      SplitLast(ps);
      if last.Transfer? {
        CopiesLast(AllTransfers(init), last.rec, id);
      } else {
        assert AllTransfers(ps) == AllTransfers(init);
      }
    }
  }

  lemma {:induction false} ItemsCounted(raws: seq<Raw>, rs: seq<Record>, id: string)
    requires AreItems(raws, rs)
    ensures RawCopies(raws, id) == Copies(rs, id)
  {
    if rs != [] { ItemsCounted(raws[..|raws| - 1], rs[..|rs| - 1], id); }
  }

  lemma {:induction false} EntriesCounted(list: seq<(string, Entries)>, rs: seq<Record>, id: string)
    requires AreReceipts(list, rs)
    ensures EntriesOf(list, id) == Copies(rs, id)
  {
    if rs != [] { EntriesCounted(list[..|list| - 1], rs[..|rs| - 1], id); }
  }

  /** The file is worth sending along with its record. */
  predicate Small(r: Record) {
    r.body.File? && r.blob.Some? && r.body.size <= 20 * 1024 * 1024
  }

  /** The one record of this id, if any, decides. */
  ghost predicate OnlyCopy(rs: seq<Record>, r: Record) {
    forall i :: 0 <= i < |rs| && rs[i].id == r.id ==> rs[i] == r
  }

  lemma CopiesPut(rs: seq<Record>, r: Record, put: bool, id: string)
    ensures Copies(rs + (if put then [r] else []), id) == Copies(rs, id) + (if put && r.id == id then 1 else 0)
  {
    if put { CopiesLast(rs, r, id); } else { assert rs + [] == rs; }
  }

  lemma OnlyCopyTail(rs: seq<Record>, r: Record)
    requires OnlyCopy(rs, r) && rs != []
    ensures OnlyCopy(rs[..|rs| - 1], r) && (rs[|rs| - 1].id == r.id ==> rs[|rs| - 1] == r)
  {
    assert forall i :: 0 <= i < |rs| - 1 ==> rs[..|rs| - 1][i] == rs[i];
  }

  lemma {:induction false} MissingCopies(rs: seq<Record>, r: Record, have: set<string>, since: int)
    requires OnlyCopy(rs, r)
    ensures Copies(Missing(rs, have, since), r.id) == if r.ts >= since && r.id !in have then Copies(rs, r.id) else 0
  {
    if rs != [] {
      var n := |rs| - 1;
      OnlyCopyTail(rs, r);
      MissingCopies(rs[..n], r, have, since);
      CopiesPut(Missing(rs[..n], have, since), rs[n], Wanted(rs[n], have, since), r.id);
    }
  }

  lemma {:induction false} HeldCopies(rs: seq<Record>, r: Record, have: set<string>)
    requires OnlyCopy(rs, r)
    ensures Copies(Held(rs, have), r.id) == if r.id in have && r.readBy != map[] then Copies(rs, r.id) else 0
  {
    if rs != [] {
      var n := |rs| - 1;
      OnlyCopyTail(rs, r);
      HeldCopies(rs[..n], r, have);
      CopiesPut(Held(rs[..n], have), rs[n], rs[n].id in have && rs[n].readBy != map[], r.id);
    }
  }

  lemma {:induction false} SharedCopies(rs: seq<Record>, r: Record)
    requires OnlyCopy(rs, r)
    ensures Copies(Shared(rs), r.id) == if Small(r) then Copies(rs, r.id) else 0
  {
    if rs != [] {
      var n := |rs| - 1;
      OnlyCopyTail(rs, r);
      SharedCopies(rs[..n], r);
      CopiesPut(Shared(rs[..n]), rs[n], Shareable(rs[n]), r.id);
    }
  }

  lemma MissingOnly(rs: seq<Record>, r: Record, have: set<string>, since: int)
    requires OnlyCopy(rs, r)
    ensures OnlyCopy(Missing(rs, have, since), r)
  {
    MissingRows(rs, have, since);
    var missing := Missing(rs, have, since);
    forall i | 0 <= i < |missing| && missing[i].id == r.id ensures missing[i] == r {
      assert missing[i] in rs;
    }
  }

  lemma {:induction false} CopiesAbsent(rs: seq<Record>, id: string)
    requires forall i :: 0 <= i < |rs| ==> rs[i].id != id
    ensures Copies(rs, id) == 0
  {
    if rs != [] { CopiesAbsent(rs[..|rs| - 1], id); }
  }

  lemma {:induction false} CopiesOnce(rs: seq<Record>, k: nat)
    requires k < |rs| && forall i :: 0 <= i < |rs| && i != k ==> rs[i].id != rs[k].id
    ensures Copies(rs, rs[k].id) == 1
  {
    var n := |rs| - 1;
    if k < n { CopiesOnce(rs[..n], k); } else { CopiesAbsent(rs[..n], rs[k].id); }
  }

  /** A row is in the window as often as its record is: once or not at all. */
  lemma WindowCopies(db: Db, all: seq<Record>, r: Record)
    requires WellKeyed(db) && Timeline(all) && Lists(all, db) && r.id in db && db[r.id] == r
    ensures OnlyCopy(LastN(all), r)
    ensures Copies(LastN(all), r.id) == if StampOf(r) in Recent(Stamps(db)) then 1 else 0
  {
    var recent := LastN(all);
    ListedStamps(all, db);
    TailIsRecent(all);
    assert forall x :: x in recent ==> x in all;
    if k :| 0 <= k < |recent| && recent[k].id == r.id {
      forall i | 0 <= i < |recent| && i != k ensures recent[i].id != recent[k].id { RowsDiffer(db, recent, all, i, k); }
      CopiesOnce(recent, k);
      assert recent[k] in all;
      assert StampOf(recent[k]) in StampSet(recent);
    } else {
      CopiesAbsent(recent, r.id);
    }
  }

  lemma RowsDiffer(db: Db, recent: seq<Record>, all: seq<Record>, i: nat, k: nat)
    requires Timeline(all) && Lists(all, db) && recent == LastN(all) && i < |recent| && k < |recent| && i != k
    ensures recent[i].id != recent[k].id
  {
    assert recent[i] in all && recent[k] in all;
    LaterIrreflexive(StampOf(recent[i]));
    if i < k { assert Later(StampOf(recent[i]), StampOf(recent[k])); } else { assert Later(StampOf(recent[k]), StampOf(recent[i])); }
  }

  /** Of all records, those the answer transfers. */
  ghost predicate Transferred(db: Db, have: set<string>, since: int, id: string) {
    && id in db && StampOf(db[id]) in Recent(Stamps(db)) && id !in have && db[id].ts >= since
    && db[id].body.File? && db[id].blob.Some? && db[id].body.size <= 20 * 1024 * 1024
  }

  /** Main result on one answer: a record of the window that the asker neither listed nor cut
      off is sent once; it has one transfer exactly if it is a file with stored bytes of at
      most 20 MiB; the readers of a record the asker listed are sent once, if it has any; and
      nothing is sent of any other record. */
  lemma AnswerHolds(db: Db, ps: seq<Packet>, have: set<string>, since: int, id: string)
    requires WellKeyed(db) && Answers(ps, db, have, since)
    ensures var window := id in db && StampOf(db[id]) in Recent(Stamps(db));
      && RawCopies(AllMsgs(ps), id) == (if window && id !in have && db[id].ts >= since then 1 else 0)
      && EntriesOf(AllReads(ps), id) == (if window && id in have && db[id].readBy != map[] then 1 else 0)
      && TransfersOf(ps, id) == (if Transferred(db, have, since, id) then 1 else 0)
  {
    var all :| Timeline(all) && Lists(all, db) && AnswersWith(ps, all, have, since);
    var recent := LastN(all);
    var missing, held := Missing(recent, have, since), Held(recent, have);
    ItemsCounted(AllMsgs(ps), missing, id);
    EntriesCounted(AllReads(ps), held, id);
    TransfersCounted(ps, id);
    if id in db {
      WindowCopies(db, all, db[id]);
      MissingCopies(recent, db[id], have, since);
      HeldCopies(recent, db[id], have);
      MissingOnly(recent, db[id], have, since);
      SharedCopies(missing, db[id]);
    } else {
      NoneSelected(db, all, have, since, id);
    }
  }

  lemma NoneSelected(db: Db, all: seq<Record>, have: set<string>, since: int, id: string)
    requires Lists(all, db) && id !in db
    ensures var recent := LastN(all);
      Copies(Missing(recent, have, since), id) == Copies(Held(recent, have), id)
      == Copies(Shared(Missing(recent, have, since)), id) == 0
  {
    var recent := LastN(all);
    MissingRows(recent, have, since);
    HeldRows(recent, have);
    SharedRows(Missing(recent, have, since));
    assert forall x :: x in recent ==> x in all;
    forall x | x in all ensures x.id != id {
      var i :| 0 <= i < |all| && all[i] == x;
    }
    CopiesAbsent(Missing(recent, have, since), id);
    CopiesAbsent(Held(recent, have), id);
    CopiesAbsent(Shared(Missing(recent, have, since)), id);
  }

  lemma {:induction false} SharedRows(rs: seq<Record>)
    ensures forall r :: r in Shared(rs) <==> r in rs && Small(r)
  {
    if rs != [] {
      SplitLast(rs);
      SharedRows(rs[..|rs| - 1]);
    }
  }

  // ----- receiving it -----

  /** The bytes an answer transfers. */
  ghost function Content(src: Db, have: set<string>, since: int): map<string, Bytes> {
    map id | id in src && Transferred(src, have, since, id) :: src[id].blob.value
  }

  lemma BlobElsewhere(files: Pieces, done: set<string>, d: Dl, es: seq<Event>, e: Event, id: string)
    requires Sendable(files) && Inv(files, done, d, es) && Honest(files, e) && id !in files
    ensures HasBlob(Deliver(d, e).db, id) <==> HasBlob(d.db, id)
  {
    match e
    case Receipts(of, more) =>
    case Arrived(raw, at) => AcceptKeepsFile(d.db, raw, at, id);
    case Meta(_, _, _) => MetaElsewhere(files, done, d, es, e);
    case Chunk(_, _, _) => ChunkElsewhere(files, done, d, es, e);
  }

  lemma OnlyThere(d: Dl, mid: Dl, next: Dl, id: string)
    requires OnlyAt(d, mid, id) && OnlyAt(mid, next, id)
    ensures OnlyAt(d, next, id)
  {}

  lemma MetaElsewhere(files: Pieces, done: set<string>, d: Dl, es: seq<Event>, e: Event)
    requires Sendable(files) && Inv(files, done, d, es) && Honest(files, e) && e.Meta?
    ensures OnlyAt(d, Deliver(d, e), e.raw.id)
  {
    var of := e.raw.id;
    assert FileInv(files, done, d, es, of);
    if !HasBlob(d.db, of) {
      var rec := CleanRecord(e.raw, e.now);
      WithMetaUpToDate(files, done, d, rec, es, e);
      WithMetaTouchesOne(d, rec, e.n);
      SettleSlot(files, done, WithMeta(d, rec, e.n), es + [e], of);
      OnlyThere(d, WithMeta(d, rec, e.n), Finish(WithMeta(d, rec, e.n), of), of);
    }
  }

  lemma WithPartTouchesOne(d: Dl, id: string, i: nat, body: Bytes)
    ensures OnlyAt(d, WithSlot(d, id), id) && OnlyAt(d, WithPart(d, id, i, body), id)
  {}

  lemma ChunkCases(d: Dl, id: string, i: nat, body: Bytes)
    ensures OnChunk(d, id, i, body) in {d, WithSlot(d, id)}
         || (i !in WithSlot(d, id).incoming[id].parts && OnChunk(d, id, i, body) == Finish(WithPart(d, id, i, body), id))
  {}

  lemma NoSlotWhenHeld(files: Pieces, done: set<string>, d: Dl, es: seq<Event>, id: string)
    requires Inv(files, done, d, es) && id in files && HasBlob(d.db, id)
    ensures forall i, body :: OnChunk(d, id, i, body) == d
  {
    assert FileInv(files, done, d, es, id);
  }

  lemma ChunkElsewhere(files: Pieces, done: set<string>, d: Dl, es: seq<Event>, e: Event)
    requires Sendable(files) && Inv(files, done, d, es) && Honest(files, e) && e.Chunk?
    ensures OnlyAt(d, Deliver(d, e), e.id)
  {
    if HasBlob(d.db, e.id) {
      NoSlotWhenHeld(files, done, d, es, e.id);
    } else {
      ChunkCases(d, e.id, e.i, e.body);
      WithPartTouchesOne(d, e.id, e.i, e.body);
      if e.i !in WithSlot(d, e.id).incoming[e.id].parts { PartElsewhere(files, done, d, es, e); }
    }
  }

  lemma PartElsewhere(files: Pieces, done: set<string>, d: Dl, es: seq<Event>, e: Event)
    requires Sendable(files) && Inv(files, done, d, es) && Honest(files, e) && e.Chunk? && !HasBlob(d.db, e.id)
    requires e.i !in WithSlot(d, e.id).incoming[e.id].parts
    ensures OnlyAt(d, Finish(WithPart(d, e.id, e.i, e.body), e.id), e.id)
  {
    var mid := WithPart(d, e.id, e.i, e.body);
    assert FileInv(files, done, d, es, e.id);
    PartUpToDate(files, done, d, es, e);
    SettleSlot(files, done, mid, es + [e], e.id);
    WithPartTouchesOne(d, e.id, e.i, e.body);
    OnlyThere(d, mid, Finish(mid, e.id), e.id);
  }

  lemma {:induction false} OthersGetNoBytes(files: Pieces, done: set<string>, d: Dl, es: seq<Event>, id: string)
    requires Sendable(files) && Inv(files, done, d, []) && id !in files
    requires forall k :: 0 <= k < |es| ==> Honest(files, es[k])
    ensures HasBlob(DeliverAll(d, es).db, id) <==> HasBlob(d.db, id)
  {
    if es != [] {
      var init := es[..|es| - 1];
      OthersGetNoBytes(files, done, d, init, id);
      RunKeepsInv(files, done, d, init);
      BlobElsewhere(files, done, DeliverAll(d, init), init, es[|es| - 1], id);
    }
  }

  /** Main theorem: whoever has received the metas and all chunks of an answer's transfers, in
      any order, repeatedly and among records and receipts, has the bytes of exactly the files
      it had and those of the window it neither listed nor cut off that are stored by the
      sender and at most 20 MiB long; and they are the sender's. */
  lemma AnswerBringsFiles(src: Db, d: Dl, have: set<string>, since: int, es: seq<Event>, id: string)
    requires WellKeyed(src) && WellKeyed(d.db) && d.incoming == map[]
    requires forall f :: f in src ==> |f| <= 64 && (src[f].blob.Some? ==> |src[f].blob.value| <= MAX_FILE)
    requires forall f :: HasBlob(d.db, f) && HasBlob(src, f) ==> d.db[f].blob == src[f].blob
    requires var content := Content(src, have, since);
      && (forall k :: 0 <= k < |es| ==> Honest(PiecesOf(content), es[k]))
      && (forall f :: f in content ==> f in Metas(es) && Chunks(es, f) == Indices(ChunkCount(|content[f]|)))
    ensures var last := DeliverAll(d, es).db;
      && (HasBlob(last, id) <==> HasBlob(d.db, id) || Transferred(src, have, since, id))
      && (Transferred(src, have, since, id) ==> HasBlob(last, id) && last[id].blob == src[id].blob)
  {
    var content := Content(src, have, since);
    var files := PiecesOf(content);
    var done := set f | f in content && HasBlob(d.db, f);
    forall f | f in files ensures CappedCount(|files[f]|) == |files[f]| > 0 && Join(files[f]) == content[f] {
      CapNeverTruncates(|content[f]|);
      ChunksJoin(content[f]);
    }
    StartInv(files, done, d);
    if id !in files {
      OthersGetNoBytes(files, done, d, es, id);
    } else if id in done {
      RunKeepsInv(files, done, d, es);
      assert FileInv(files, done, DeliverAll(d, es), es, id);
    } else {
      CompletesExactly(files, done, d, es, id);
    }
  }
}
