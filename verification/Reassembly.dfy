/** Reassembly over every delivery: any order, any repetition, several honest senders,
    several files at once, with receipts and history records arriving in between. */
module Reassembly {
  import opened Wrappers
  import opened Window
  import opened Records
  import opened History
  import opened Files

  datatype Event =
    | Meta(raw: Raw, n: nat, now: int)
    | Chunk(id: string, i: nat, body: Bytes)
    | Receipts(of: string, more: map<string, string>)
    | Arrived(rec: Raw, at: int)

  function Deliver(d: Dl, e: Event): Dl {
    match e
    case Meta(raw, n, now) => OnMeta(d, raw, n, now)
    case Chunk(id, i, body) => OnChunk(d, id, i, body)
    case Receipts(id, more) => d.(db := MergeInto(d.db, id, more))
    case Arrived(rec, at) => d.(db := Accept(d.db, rec, at))
  }

  function DeliverAll(d: Dl, es: seq<Event>): Dl {
    if es == [] then d else Deliver(DeliverAll(d, es[..|es| - 1]), es[|es| - 1])
  }

  /** The chunks of each file being sent, under ids a receiver does not shorten. */
  type Pieces = map<string, seq<Bytes>>

  ghost predicate Sendable(files: Pieces) {
    forall id :: id in files ==> |id| <= 64 && |files[id]| > 0 && CappedCount(|files[id]|) == |files[id]|
  }

  /** What an honest sender produces for one of the files; receipts are unconstrained. */
  ghost predicate Honest(files: Pieces, e: Event) {
    match e
    case Meta(raw, n, _) => raw.id in files && n == |files[raw.id]|
    case Chunk(id, i, body) => id in files && i < |files[id]| && body == files[id][i]
    case Receipts(_, _) => true
    case Arrived(_, _) => true
  }

  // ----- what has arrived -----

  ghost function Metas(es: seq<Event>): set<string> {
    set k | 0 <= k < |es| && es[k].Meta? :: es[k].raw.id
  }

  ghost function Chunks(es: seq<Event>, id: string): set<nat> {
    set k | 0 <= k < |es| && es[k].Chunk? && es[k].id == id :: es[k].i
  }

  ghost function Indices(n: nat): (s: set<nat>)
    ensures forall i :: i in s <==> 0 <= i < n
  {
    if n == 0 then {} else Indices(n - 1) + {n - 1}
  }

  ghost predicate Complete(files: Pieces, es: seq<Event>, id: string)
    requires id in files
  {
    id in Metas(es) && Chunks(es, id) == Indices(|files[id]|)
  }

  // ----- the invariant -----

  /** Every filled slot holds the right slice, got counts the filled slots, and the
      array reaches no further than the last filled slot. */
  ghost predicate GoodParts(want: seq<Bytes>, inc: Inc) {
    && (forall i :: i in inc.parts ==> i < |want| && inc.parts[i] == want[i])
    && inc.got == |inc.parts|
    && inc.length <= |want|
    && (forall i :: i in inc.parts ==> i < inc.length)
    && (inc.length > 0 ==> inc.length - 1 in inc.parts)
  }

  /** The remembered meta is the stored record, up to receipts merged since. */
  ghost predicate MetaCurrent(db: Db, id: string, meta: Record) {
    && id in db
    && meta.(readBy := db[id].readBy) == db[id]
    && meta.readBy.Keys <= db[id].readBy.Keys
  }

  ghost predicate SlotInv(files: Pieces, d: Dl, es: seq<Event>, id: string)
    requires id in files && id in d.incoming
  {
    var inc := d.incoming[id];
    && GoodParts(files[id], inc)
    && inc.parts.Keys == Chunks(es, id)
    && (inc.meta.Some? <==> id in Metas(es))
    && (inc.meta.Some? ==> inc.n == |files[id]| && MetaCurrent(d.db, id, inc.meta.value) && !Done(inc))
  }

  ghost predicate FileInv(files: Pieces, done: set<string>, d: Dl, es: seq<Event>, id: string)
    requires id in files
  {
    if HasBlob(d.db, id) then
      && d.db[id].blob == Some(Join(files[id])) && id !in d.incoming && (id in done || Complete(files, es, id))
    else
      && id !in done
      && (id in d.incoming ==> SlotInv(files, d, es, id))
      && (id !in d.incoming ==> id !in Metas(es) && Chunks(es, id) == {})
  }

  ghost predicate Inv(files: Pieces, done: set<string>, d: Dl, es: seq<Event>) {
    WellKeyed(d.db) && forall id :: id in files ==> FileInv(files, done, d, es, id)
  }

  // ----- arithmetic of complete downloads -----

  lemma {:induction false} IndicesSize(n: nat)
    ensures |Indices(n)| == n
  {
    if n > 0 {
      IndicesSize(n - 1);
    }
  }

  /** got reaches n exactly when every slot is filled. */
  lemma FullWhenCounted(want: seq<Bytes>, inc: Inc)
    requires GoodParts(want, inc)
    ensures inc.got <= |want|
    ensures inc.got == |want| <==> inc.parts.Keys == Indices(|want|)
  {
    var n := |want|;
    IndicesSize(n);
    assert |inc.parts| == |inc.parts.Keys|;
    assert inc.parts.Keys <= Indices(n);
    SubsetSize(inc.parts.Keys, Indices(n));
  }

  function Join(want: seq<Bytes>): Bytes {
    if want == [] then [] else Join(want[..|want| - 1]) + want[|want| - 1]
  }

  lemma {:induction false} BlobIsJoin(want: seq<Bytes>, parts: map<nat, Bytes>, n: nat)
    requires n <= |want| && forall i: nat :: i < n ==> i in parts && parts[i] == want[i]
    ensures BlobOf(parts, n) == Join(want[..n])
  {
    if n > 0 {
      BlobIsJoin(want, parts, n - 1);
      assert want[..n][..n - 1] == want[..n - 1];
    }
  }

  lemma FullBlob(want: seq<Bytes>, inc: Inc)
    requires GoodParts(want, inc) && inc.parts.Keys == Indices(|want|) && want != []
    ensures BlobOf(inc.parts, inc.length) == Join(want)
  {
    assert |want| - 1 in Indices(|want|);
    BlobIsJoin(want, inc.parts, |want|);
    assert want[..|want|] == want;
  }

  // ----- finishing -----

  /** Finishing adds the file's bytes and changes nothing else about the record: no
      receipt merged during the download is lost, and none appears. */
  lemma FinishAddsOnlyTheBlob(files: Pieces, d: Dl, id: string)
    requires id in files && files[id] != [] && id in d.incoming && WellKeyed(d.db)
    requires GoodParts(files[id], d.incoming[id]) && d.incoming[id].n == |files[id]|
    requires d.incoming[id].meta.Some? && MetaCurrent(d.db, id, d.incoming[id].meta.value)
    ensures Finish(d, id) ==
            if d.incoming[id].parts.Keys == Indices(|files[id]|)
            then Dl(d.db[id := d.db[id].(blob := Some(Join(files[id])))], d.incoming - {id})
            else d
  {
    var inc := d.incoming[id];
    var meta := inc.meta.value;
    FullWhenCounted(files[id], inc);
    if inc.parts.Keys == Indices(|files[id]|) {
      FullBlob(files[id], inc);
      assert meta.readBy + d.db[id].readBy == d.db[id].readBy;
    }
  }

  // ----- one delivery -----

  lemma AppendEvent(es: seq<Event>, e: Event, id: string)
    ensures Metas(es + [e]) == Metas(es) + if e.Meta? then {e.raw.id} else {}
    ensures Chunks(es + [e], id) == Chunks(es, id) + if e.Chunk? && e.id == id then {e.i} else {}
  {
    var all := es + [e];
    assert all[|es|] == e && forall k :: 0 <= k < |es| ==> all[k] == es[k];
  }

  lemma Untouched(files: Pieces, done: set<string>, d: Dl, next: Dl, es: seq<Event>, e: Event, id: string)
    requires id in files && FileInv(files, done, d, es, id)
    requires id in Metas(es + [e]) <==> id in Metas(es)
    requires Chunks(es + [e], id) == Chunks(es, id)
    requires HasBlob(next.db, id) <==> HasBlob(d.db, id)
    requires HasBlob(d.db, id) ==> next.db[id].blob == d.db[id].blob
    requires id in next.incoming <==> id in d.incoming
    requires id in d.incoming ==> next.incoming[id] == d.incoming[id]
    requires forall m :: MetaCurrent(d.db, id, m) ==> MetaCurrent(next.db, id, m)
    ensures FileInv(files, done, next, es + [e], id)
  {}

  lemma ReadersKeepMeta(db: Db, id: string, at: string, more: map<string, string>, m: Record)
    requires MetaCurrent(db, id, m)
    ensures MetaCurrent(MergeInto(db, at, more), id, m)
  {
    if at in db { AddReadersKeys(db[at], more); }
  }

  lemma AcceptKeepsFile(db: Db, raw: Raw, now: int, id: string)
    requires WellKeyed(db)
    ensures WellKeyed(Accept(db, raw, now))
    ensures id in db ==> id in Accept(db, raw, now) && Accept(db, raw, now)[id].blob == db[id].blob
    ensures HasBlob(Accept(db, raw, now), id) ==> id in db
    ensures forall m :: MetaCurrent(db, id, m) ==> MetaCurrent(Accept(db, raw, now), id, m)
  {
    if raw.id != "" {
      var rec := CleanRecord(raw, now);
      forall m | MetaCurrent(db, id, m) ensures MetaCurrent(Accept(db, raw, now), id, m) {
        if rec.id in db { ReadersKeepMeta(db, id, rec.id, rec.readBy, m); }
      }
    }
  }

  /** Receipts and history records arriving meanwhile disturb no download. */
  lemma RecordEventKeepsInv(files: Pieces, done: set<string>, d: Dl, es: seq<Event>, e: Event)
    requires Inv(files, done, d, es) && (e.Receipts? || e.Arrived?)
    ensures Inv(files, done, Deliver(d, e), es + [e])
  {
    var next := Deliver(d, e);
    if e.Arrived? { AcceptKeepsFile(d.db, e.rec, e.at, ""); }
    forall id | id in files ensures FileInv(files, done, next, es + [e], id) {
      AppendEvent(es, e, id);
      if e.Arrived? {
        AcceptKeepsFile(d.db, e.rec, e.at, id);
      } else {
        forall m | MetaCurrent(d.db, id, m) ensures MetaCurrent(next.db, id, m) {
          ReadersKeepMeta(d.db, id, e.of, e.more, m);
        }
      }
      Untouched(files, done, d, next, es, e, id);
    }
  }

  /** The rest of the state when only the download and the record of one id changed. */
  ghost predicate OnlyAt(d: Dl, next: Dl, id: string) {
    && (forall k :: k != id ==> (k in next.db <==> k in d.db) && (k in d.db ==> next.db[k] == d.db[k]))
    && (forall k :: k != id ==>
          (k in next.incoming <==> k in d.incoming) && (k in d.incoming ==> next.incoming[k] == d.incoming[k]))
  }

  lemma OthersKept(files: Pieces, done: set<string>, d: Dl, next: Dl, es: seq<Event>, e: Event, id: string)
    requires Inv(files, done, d, es) && OnlyAt(d, next, id) && WellKeyed(next.db)
    requires e.Meta? ==> e.raw.id == id
    requires e.Chunk? ==> e.id == id
    requires id in files && FileInv(files, done, next, es + [e], id)
    ensures Inv(files, done, next, es + [e])
  {
    forall k | k in files ensures FileInv(files, done, next, es + [e], k) {
      if k != id {
        AppendEvent(es, e, k);
        Untouched(files, done, d, next, es, e, k);
      }
    }
  }

  /** The download of id is up to date with the events, though perhaps due to finish. */
  ghost predicate UpToDate(files: Pieces, done: set<string>, d: Dl, es: seq<Event>, id: string)
    requires id in files
  {
    && WellKeyed(d.db) && !HasBlob(d.db, id) && id !in done
    && id in d.incoming && GoodParts(files[id], d.incoming[id])
    && d.incoming[id].parts.Keys == Chunks(es, id)
    && (d.incoming[id].meta.Some? <==> id in Metas(es))
    && (d.incoming[id].meta.Some? ==>
          d.incoming[id].n == |files[id]| && MetaCurrent(d.db, id, d.incoming[id].meta.value))
  }

  lemma SettleSlot(files: Pieces, done: set<string>, d: Dl, es: seq<Event>, id: string)
    requires Sendable(files) && id in files && UpToDate(files, done, d, es, id)
    ensures FileInv(files, done, Finish(d, id), es, id)
    ensures OnlyAt(d, Finish(d, id), id) && WellKeyed(Finish(d, id).db)
  {
    if d.incoming[id].meta.Some? {
      FinishAddsOnlyTheBlob(files, d, id);
      FullWhenCounted(files[id], d.incoming[id]);
    }
  }

  /** A finished file ignores every further packet. */
  lemma FinishedKeepsInv(files: Pieces, done: set<string>, d: Dl, es: seq<Event>, e: Event, id: string)
    requires Inv(files, done, d, es) && Honest(files, e) && id in files && HasBlob(d.db, id)
    requires (e.Meta? && e.raw.id == id) || (e.Chunk? && e.id == id)
    ensures Inv(files, done, d, es + [e])
  {
    AppendEvent(es, e, id);
    assert FileInv(files, done, d, es, id);
    if id !in done { CompleteStays(files, es, e, id); }
    OthersKept(files, done, d, d, es, e, id);
  }

  lemma SettledKeepsInv(files: Pieces, done: set<string>, d: Dl, mid: Dl, es: seq<Event>, e: Event, id: string)
    requires Sendable(files) && Inv(files, done, d, es) && OnlyAt(d, mid, id)
    requires (e.Meta? && e.raw.id == id) || (e.Chunk? && e.id == id)
    requires id in files && UpToDate(files, done, mid, es + [e], id)
    ensures Inv(files, done, Finish(mid, id), es + [e])
  {
    SettleSlot(files, done, mid, es + [e], id);
    OthersKept(files, done, d, Finish(mid, id), es, e, id);
  }

  lemma SlotIsCurrent(files: Pieces, done: set<string>, d: Dl, es: seq<Event>, id: string)
    requires id in files && FileInv(files, done, d, es, id) && !HasBlob(d.db, id)
    ensures var inc := WithSlot(d, id).incoming[id];
      && id !in done && GoodParts(files[id], inc) && inc.parts.Keys == Chunks(es, id)
      && (inc.meta.Some? <==> id in Metas(es))
      && (inc.meta.Some? ==> inc.n == |files[id]| && MetaCurrent(d.db, id, inc.meta.value))
  {}

  lemma WithMetaTouchesOne(d: Dl, rec: Record, n: nat)
    requires WellKeyed(d.db)
    ensures OnlyAt(d, WithMeta(d, rec, n), rec.id) && WellKeyed(WithMeta(d, rec, n).db)
  {}

  lemma WithMetaSlot(d: Dl, rec: Record, n: nat)
    requires !HasBlob(d.db, rec.id) && rec.blob.None?
    ensures var mid := WithMeta(d, rec, n);
      && rec.id in mid.incoming && rec.id in mid.db && mid.db[rec.id].blob.None?
      && mid.incoming[rec.id] == WithSlot(d, rec.id).incoming[rec.id].(meta := Some(mid.db[rec.id]), n := CappedCount(n))
  {}

  lemma WithMetaUpToDate(files: Pieces, done: set<string>, d: Dl, rec: Record, es: seq<Event>, e: Event)
    requires Sendable(files) && e.Meta? && Honest(files, e) && rec.id == e.raw.id && WellKeyed(d.db)
    requires FileInv(files, done, d, es, rec.id) && !HasBlob(d.db, rec.id) && rec.blob.None?
    ensures UpToDate(files, done, WithMeta(d, rec, e.n), es + [e], rec.id)
  {
    AppendEvent(es, e, rec.id);
    SlotIsCurrent(files, done, d, es, rec.id);
    WithMetaSlot(d, rec, e.n);
    WithMetaTouchesOne(d, rec, e.n);
    SlotWithMeta(files, done, WithMeta(d, rec, e.n), WithSlot(d, rec.id).incoming[rec.id], es + [e], rec.id);
  }

  lemma SlotWithMeta(files: Pieces, done: set<string>, mid: Dl, inc: Inc, es: seq<Event>, id: string)
    requires id in files && WellKeyed(mid.db) && id in mid.db && mid.db[id].blob.None? && id !in done
    requires GoodParts(files[id], inc) && inc.parts.Keys == Chunks(es, id) && id in Metas(es)
    requires id in mid.incoming && mid.incoming[id] == inc.(meta := Some(mid.db[id]), n := |files[id]|)
    ensures UpToDate(files, done, mid, es, id)
  {}

  ghost function WithPart(d: Dl, id: string, i: nat, body: Bytes): Dl {
    Update(WithSlot(d, id), id, PutPart(WithSlot(d, id).incoming[id], i, body))
  }

  lemma PartUpToDate(files: Pieces, done: set<string>, d: Dl, es: seq<Event>, e: Event)
    requires Sendable(files) && e.Chunk? && Honest(files, e) && WellKeyed(d.db)
    requires FileInv(files, done, d, es, e.id) && !HasBlob(d.db, e.id)
    requires e.i !in WithSlot(d, e.id).incoming[e.id].parts
    ensures UpToDate(files, done, WithPart(d, e.id, e.i, e.body), es + [e], e.id)
  {
    AppendEvent(es, e, e.id);
    SlotIsCurrent(files, done, d, es, e.id);
    PutPartGood(files[e.id], WithSlot(d, e.id).incoming[e.id], e.i);
  }

  lemma MetaKeepsInv(files: Pieces, done: set<string>, d: Dl, es: seq<Event>, e: Event)
    requires Sendable(files) && Inv(files, done, d, es) && e.Meta? && Honest(files, e)
    ensures Inv(files, done, Deliver(d, e), es + [e])
  {
    var rec := CleanRecord(e.raw, e.now);
    assert rec.id == e.raw.id && FileInv(files, done, d, es, rec.id);
    if HasBlob(d.db, rec.id) {
      FinishedKeepsInv(files, done, d, es, e, rec.id);
    } else {
      WithMetaUpToDate(files, done, d, rec, es, e);
      WithMetaTouchesOne(d, rec, e.n);
      SettledKeepsInv(files, done, d, WithMeta(d, rec, e.n), es, e, rec.id);
    }
  }

  lemma RepeatedChunkKeepsInv(files: Pieces, done: set<string>, d: Dl, es: seq<Event>, e: Event)
    requires Inv(files, done, d, es) && e.Chunk? && Honest(files, e) && !HasBlob(d.db, e.id)
    requires e.i in WithSlot(d, e.id).incoming[e.id].parts
    ensures Inv(files, done, d, es + [e])
  {
    assert FileInv(files, done, d, es, e.id);
    AppendEvent(es, e, e.id);
    OthersKept(files, done, d, d, es, e, e.id);
  }

  lemma ChunkKeepsInv(files: Pieces, done: set<string>, d: Dl, es: seq<Event>, e: Event)
    requires Sendable(files) && Inv(files, done, d, es) && e.Chunk? && Honest(files, e)
    ensures Inv(files, done, Deliver(d, e), es + [e])
  {
    var id := e.id;
    assert FileInv(files, done, d, es, id);
    if HasBlob(d.db, id) {
      FinishedKeepsInv(files, done, d, es, e, id);
    } else {
      var d1 := WithSlot(d, id);
      if e.i in d1.incoming[id].parts {
        RepeatedChunkKeepsInv(files, done, d, es, e);
      } else {
        PartUpToDate(files, done, d, es, e);
        SettledKeepsInv(files, done, d, WithPart(d, id, e.i, e.body), es, e, id);
      }
    }
  }

  lemma PutPartGood(want: seq<Bytes>, inc: Inc, i: nat)
    requires GoodParts(want, inc) && i < |want| && i !in inc.parts
    ensures GoodParts(want, PutPart(inc, i, want[i]))
    ensures PutPart(inc, i, want[i]).parts.Keys == inc.parts.Keys + {i}
  {
    var next := PutPart(inc, i, want[i]);
    assert next.parts.Keys == inc.parts.Keys + {i};
    assert |next.parts.Keys| == |inc.parts.Keys| + 1;
  }

  lemma CompleteStays(files: Pieces, es: seq<Event>, e: Event, id: string)
    requires id in files && Honest(files, e)
    requires Complete(files, es, id)
    ensures Complete(files, es + [e], id)
  {
    AppendEvent(es, e, id);
  }

  lemma DeliverKeepsInv(files: Pieces, done: set<string>, d: Dl, es: seq<Event>, e: Event)
    requires Sendable(files) && Inv(files, done, d, es) && Honest(files, e)
    ensures Inv(files, done, Deliver(d, e), es + [e])
  {
    match e
    case Meta(_, _, _) => MetaKeepsInv(files, done, d, es, e);
    case Chunk(_, _, _) => ChunkKeepsInv(files, done, d, es, e);
    case Receipts(_, _) => RecordEventKeepsInv(files, done, d, es, e);
    case Arrived(_, _) => RecordEventKeepsInv(files, done, d, es, e);
  }

  lemma {:induction false} RunKeepsInv(files: Pieces, done: set<string>, d: Dl, es: seq<Event>)
    requires Sendable(files) && Inv(files, done, d, [])
    requires forall k :: 0 <= k < |es| ==> Honest(files, es[k])
    ensures Inv(files, done, DeliverAll(d, es), es)
  {
    if es != [] {
      var init := es[..|es| - 1];
      SplitLast(es);
      RunKeepsInv(files, done, d, init);
      DeliverKeepsInv(files, done, DeliverAll(d, init), init, es[|es| - 1]);
    }
  }

  /** Nothing is downloading, and no file is stored except complete ones. */
  ghost predicate Idle(files: Pieces, done: set<string>, d: Dl) {
    && WellKeyed(d.db) && d.incoming == map[]
    && forall id :: id in files ==>
        (HasBlob(d.db, id) <==> id in done) && (id in done ==> d.db[id].blob == Some(Join(files[id])))
  }

  lemma StartInv(files: Pieces, done: set<string>, d: Dl)
    requires Idle(files, done, d)
    ensures Inv(files, done, d, [])
  {}

  /** After any honest deliveries a file is stored exactly when its meta and all its
      chunks are among them, and then as their concatenation. */
  lemma CompletesExactly(files: Pieces, done: set<string>, d: Dl, es: seq<Event>, id: string)
    requires Sendable(files) && Idle(files, done, d) && id in files && id !in done
    requires forall k :: 0 <= k < |es| ==> Honest(files, es[k])
    ensures HasBlob(DeliverAll(d, es).db, id) <==> Complete(files, es, id)
    ensures HasBlob(DeliverAll(d, es).db, id) ==> DeliverAll(d, es).db[id].blob == Some(Join(files[id]))
  {
    StartInv(files, done, d);
    RunKeepsInv(files, done, d, es);
    var last := DeliverAll(d, es);
    assert FileInv(files, done, last, es, id);
    if !HasBlob(last.db, id) && id in last.incoming && last.incoming[id].meta.Some? {
      FullWhenCounted(files[id], last.incoming[id]);
    }
  }

  /** Until then got is the number of filled slots, each holding the right slice: the
      distinct chunks received so far. */
  lemma ProgressIsExact(files: Pieces, done: set<string>, d: Dl, es: seq<Event>, id: string)
    requires Sendable(files) && Idle(files, done, d) && id in files
    requires forall k :: 0 <= k < |es| ==> Honest(files, es[k])
    requires id in DeliverAll(d, es).incoming
    ensures var inc := DeliverAll(d, es).incoming[id];
      && inc.parts.Keys == Chunks(es, id) && inc.got == |Chunks(es, id)|
      && forall i :: i in inc.parts ==> i < |files[id]| && inc.parts[i] == files[id][i]
  {
    StartInv(files, done, d);
    RunKeepsInv(files, done, d, es);
    var last := DeliverAll(d, es);
    assert FileInv(files, done, last, es, id);
    assert |last.incoming[id].parts| == |last.incoming[id].parts.Keys|;
  }

  // ----- receipts survive downloads -----

  /** The record is the same but for its bytes. */
  ghost predicate SameButBlob(d: Dl, next: Dl, id: string) {
    id in d.db ==> id in next.db && next.db[id].(blob := None) == d.db[id].(blob := None)
  }

  lemma SettleKeepsRecord(files: Pieces, done: set<string>, d: Dl, es: seq<Event>, id: string)
    requires Sendable(files) && id in files && UpToDate(files, done, d, es, id)
    ensures SameButBlob(d, Finish(d, id), id)
  {
    if d.incoming[id].meta.Some? { FinishAddsOnlyTheBlob(files, d, id); }
  }

  lemma PacketKeepsRecord(files: Pieces, done: set<string>, d: Dl, es: seq<Event>, e: Event, id: string)
    requires Sendable(files) && Inv(files, done, d, es) && Honest(files, e) && (e.Meta? || e.Chunk?)
    ensures SameButBlob(d, Deliver(d, e), id)
  {
    var of := if e.Meta? then e.raw.id else e.id;
    assert FileInv(files, done, d, es, of);
    if !HasBlob(d.db, of) {
      if e.Meta? {
        var rec := CleanRecord(e.raw, e.now);
        WithMetaUpToDate(files, done, d, rec, es, e);
        SettleKeepsRecord(files, done, WithMeta(d, rec, e.n), es + [e], of);
      } else if e.i !in WithSlot(d, of).incoming[of].parts {
        PartUpToDate(files, done, d, es, e);
        SettleKeepsRecord(files, done, WithPart(d, of, e.i, e.body), es + [e], of);
      }
      FinishElsewhere(files, done, d, es, e, of, id);
    }
  }

  lemma FinishElsewhere(files: Pieces, done: set<string>, d: Dl, es: seq<Event>, e: Event, of: string, id: string)
    requires Sendable(files) && Inv(files, done, d, es) && Honest(files, e) && of in files && !HasBlob(d.db, of)
    requires (e.Meta? && e.raw.id == of) || (e.Chunk? && e.id == of)
    ensures id != of && id in d.db ==> id in Deliver(d, e).db && Deliver(d, e).db[id] == d.db[id]
  {
    assert FileInv(files, done, d, es, of);
    if e.Meta? {
      var rec := CleanRecord(e.raw, e.now);
      WithMetaUpToDate(files, done, d, rec, es, e);
      WithMetaTouchesOne(d, rec, e.n);
      SettleSlot(files, done, WithMeta(d, rec, e.n), es + [e], of);
    } else if e.i !in WithSlot(d, of).incoming[of].parts {
      PartUpToDate(files, done, d, es, e);
      SettleSlot(files, done, WithPart(d, of, e.i, e.body), es + [e], of);
    }
  }

  /** No file packet, finishing a download included, loses or invents a receipt. */
  lemma {:induction false} ReceiptsSurvive(files: Pieces, done: set<string>, d: Dl, es: seq<Event>, id: string)
    requires Sendable(files) && Idle(files, done, d) && id in d.db
    requires forall k :: 0 <= k < |es| ==> Honest(files, es[k])
    ensures id in DeliverAll(d, es).db
    ensures Readers(d.db[id]) <= Readers(DeliverAll(d, es).db[id])
    ensures (forall k :: 0 <= k < |es| ==> es[k].Meta? || es[k].Chunk?)
        ==> DeliverAll(d, es).db[id].(blob := None) == d.db[id].(blob := None)
  {
    if es != [] {
      var n := |es| - 1;
      var init, e := es[..n], es[n];
      ReceiptsSurvive(files, done, d, init, id);
      StartInv(files, done, d);
      RunKeepsInv(files, done, d, init);
      EventKeepsReaders(files, done, DeliverAll(d, init), init, e, id);
    }
  }

  lemma EventKeepsReaders(files: Pieces, done: set<string>, d: Dl, es: seq<Event>, e: Event, id: string)
    requires Sendable(files) && Inv(files, done, d, es) && Honest(files, e) && id in d.db
    ensures id in Deliver(d, e).db && Readers(d.db[id]) <= Readers(Deliver(d, e).db[id])
    ensures e.Meta? || e.Chunk? ==> SameButBlob(d, Deliver(d, e), id)
  {
    match e
    case Meta(_, _, _) => PacketKeepsRecord(files, done, d, es, e, id);
    case Chunk(_, _, _) => PacketKeepsRecord(files, done, d, es, e, id);
    case Receipts(of, more) => if of in d.db { AddReadersKeys(d.db[of], more); }
    case Arrived(raw, now) =>
      var rec := CleanRecord(raw, now);
      if rec.id in d.db { AddReadersKeys(d.db[rec.id], rec.readBy); }
  }

  // ----- from bytes to bytes -----

  ghost function PiecesOf(content: map<string, Bytes>): Pieces {
    map id | id in content :: ChunksOf(content[id])
  }

  function ChunksOf(buf: Bytes): (pieces: seq<Bytes>)
    ensures |pieces| == ChunkCount(|buf|)
  {
    seq(ChunkCount(|buf|), i requires 0 <= i => ChunkAt(buf, i))
  }

  lemma {:induction false} JoinOfChunks(buf: Bytes, n: nat)
    requires n <= ChunkCount(|buf|)
    ensures Join(ChunksOf(buf)[..n]) == JoinChunks(buf, n)
  {
    if n > 0 {
      JoinOfChunks(buf, n - 1);
      assert ChunksOf(buf)[..n][..n - 1] == ChunksOf(buf)[..n - 1];
    }
  }

  /** Main theorem: files of up to MAX_FILE bytes, each sent any number of times by any
      number of senders, arrive byte for byte exactly when all their packets have. */
  lemma FilesArriveIntact(content: map<string, Bytes>, d: Dl, es: seq<Event>, id: string)
    requires forall f :: f in content ==> |f| <= 64 && |content[f]| <= MAX_FILE && !HasBlob(d.db, f)
    requires WellKeyed(d.db) && d.incoming == map[] && id in content
    requires forall k :: 0 <= k < |es| ==> Honest(PiecesOf(content), es[k])
    ensures var last := DeliverAll(d, es);
      && (HasBlob(last.db, id) <==> id in Metas(es) && Chunks(es, id) == Indices(ChunkCount(|content[id]|)))
      && (HasBlob(last.db, id) ==> last.db[id].blob == Some(content[id]))
  {
    forall f | f in content ensures CappedCount(|ChunksOf(content[f])|) == |ChunksOf(content[f])| > 0 {
      CapNeverTruncates(|content[f]|);
    }
    CompletesExactly(PiecesOf(content), {}, d, es, id);
    ChunksJoin(content[id]);
  }

  lemma ChunksJoin(buf: Bytes)
    ensures Join(ChunksOf(buf)) == buf
  {
    JoinOfChunks(buf, ChunkCount(|buf|));
    assert ChunksOf(buf)[..ChunkCount(|buf|)] == ChunksOf(buf);
    ChunksMakeTheFile(buf);
  }
}
