/** File transfer: splitting a file into chunks, and reassembling it from a meta
    packet and chunks that arrive in any order, repeatedly, from several senders. */
module Files {
  import opened Wrappers
  import opened Window
  import opened Records
  import opened History

  const CHUNK := 60 * 1024
  const MAX_FILE := 100 * 1024 * 1024

  type Bytes = seq<byte>

  // ----- the sender -----

  function CeilDiv(a: nat, b: nat): nat
    requires b > 0
  {
    (a + b - 1) / b
  }

  function ChunkCount(size: nat): nat {
    if size == 0 then 1 else CeilDiv(size, CHUNK)
  }

  function Min(a: nat, b: nat): nat { if a <= b then a else b }

  /** subarray clamps both ends to the buffer. */
  function ChunkAt(buf: Bytes, i: nat): Bytes {
    buf[Min(i * CHUNK, |buf|)..Min((i + 1) * CHUNK, |buf|)]
  }

  datatype FilePacket =
    | FileMeta(raw: Raw, n: nat)
    | FileChunk(id: string, i: nat, body: Bytes)

  /** One sender's packets for a file: the meta first, then every chunk in order. */
  method SendFile(raw: Raw, buf: Bytes) returns (sent: seq<FilePacket>)
    ensures |sent| == 1 + ChunkCount(|buf|)
    ensures sent[0] == FileMeta(raw, ChunkCount(|buf|))
    ensures forall i :: 0 <= i < ChunkCount(|buf|) ==> sent[1 + i] == FileChunk(raw.id, i, ChunkAt(buf, i))
  {
    var n := ChunkCount(|buf|);
    sent := [FileMeta(raw, n)];
    for i := 0 to n
      invariant |sent| == 1 + i && sent[0] == FileMeta(raw, n)
      invariant forall k :: 0 <= k < i ==> sent[1 + k] == FileChunk(raw.id, k, ChunkAt(buf, k))
    {
      sent := sent + [FileChunk(raw.id, i, ChunkAt(buf, i))];
    }
  }

  function JoinChunks(buf: Bytes, n: nat): Bytes {
    if n == 0 then [] else JoinChunks(buf, n - 1) + ChunkAt(buf, n - 1)
  }

  lemma {:induction false} JoinIsPrefix(buf: Bytes, n: nat)
    ensures JoinChunks(buf, n) == buf[..Min(n * CHUNK, |buf|)]
  {
    if n > 0 { JoinIsPrefix(buf, n - 1); }
  }

  /** The chunks of a file, in order, are the file. */
  lemma ChunksMakeTheFile(buf: Bytes)
    ensures JoinChunks(buf, ChunkCount(|buf|)) == buf
  {
    JoinIsPrefix(buf, ChunkCount(|buf|));
    CountCovers(|buf|);
  }

  /** All chunks but the last have 60 KiB; the last has the rest, at most as much. */
  lemma ChunkSizes(buf: Bytes, i: nat)
    requires i < ChunkCount(|buf|)
    ensures |ChunkAt(buf, i)| == if (i + 1) * 61440 <= |buf| then 61440 else |buf| - i * 61440
    ensures i + 1 < ChunkCount(|buf|) ==> |ChunkAt(buf, i)| == 61440
  {}

  lemma CountCovers(size: nat)
    ensures ChunkCount(size) * CHUNK >= size
  {}

  /** Whatever a sender says, a receiver waits for no more chunks than a file of 100 MiB has,
      and one. */
  lemma CapBounds(n: nat)
    ensures 1 <= CappedCount(n) <= ChunkCount(100 * 1024 * 1024) + 1
  {}

  /** The receiver's cap on n is out of reach of every file a sender accepts. */
  lemma CapNeverTruncates(size: nat)
    requires size <= MAX_FILE
    ensures 1 <= ChunkCount(size) <= CeilDiv(MAX_FILE, CHUNK)
    ensures CappedCount(ChunkCount(size)) == ChunkCount(size)
  {}

  // ----- the receiver -----

  function CappedCount(n: nat): nat {
    Min(if n == 0 then 1 else n, CeilDiv(MAX_FILE, CHUNK) + 1)
  }

  /** A download in progress.  parts is a sparse array of the given length. */
  datatype Inc = Inc(meta: Option<Record>, n: nat, parts: map<nat, Bytes>, length: nat, got: nat)

  const NewInc := Inc(None, 0, map[], 0, 0)

  datatype Dl = Dl(db: Db, incoming: map<string, Inc>)

  /** Joining a sparse array: a hole is written out as the word undefined. */
  function BlobOf(parts: map<nat, Bytes>, length: nat): Bytes {
    if length == 0 then [] else
      BlobOf(parts, length - 1) +
      (if length - 1 in parts then parts[length - 1] else [117, 110, 100, 101, 102, 105, 110, 101, 100])
  }

  predicate Done(inc: Inc) {
    inc.meta.Some? && inc.got >= inc.n
  }

  predicate HasBlob(db: Db, id: string) {
    id in db && db[id].blob.Some?
  }

  function Finish(d: Dl, id: string): Dl {
    if id !in d.incoming || !Done(d.incoming[id]) then d else
      var inc := d.incoming[id];
      var meta := inc.meta.value;
      var later := if id in d.db then d.db[id].readBy else map[];
      var rec := meta.(readBy := meta.readBy + later, blob := Some(BlobOf(inc.parts, inc.length)));
      Dl(d.db[rec.id := rec], d.incoming - {id})
  }

  function WithSlot(d: Dl, id: string): Dl {
    if id in d.incoming then d else d.(incoming := d.incoming[id := NewInc])
  }

  function Update(d: Dl, id: string, inc: Inc): Dl {
    d.(incoming := d.incoming[id := inc])
  }

  function PutPart(inc: Inc, i: nat, body: Bytes): Inc {
    inc.(parts := inc.parts[i := body], length := if i < inc.length then inc.length else i + 1, got := inc.got + 1)
  }

  /** The download of rec.id remembers its meta, and the record is stored if new. */
  function WithMeta(d: Dl, rec: Record, n: nat): Dl {
    var known := if rec.id in d.db then d.db[rec.id] else rec;
    var d1 := WithSlot(d, rec.id);
    var d2 := Update(d1, rec.id, d1.incoming[rec.id].(meta := Some(known), n := CappedCount(n)));
    if rec.id in d.db then d2 else d2.(db := d.db[rec.id := rec])
  }

  function OnMeta(d: Dl, raw: Raw, n: nat, now: int): Dl {
    var rec := CleanRecord(raw, now);
    if HasBlob(d.db, rec.id) then d else Finish(WithMeta(d, rec, n), rec.id)
  }

  function OnChunk(d: Dl, id: string, i: nat, body: Bytes): Dl {
    if id !in d.incoming && HasBlob(d.db, id) then d else
      var d1 := WithSlot(d, id);
      var inc := d1.incoming[id];
      if i in inc.parts || (inc.meta.Some? && i >= inc.n) then d1
      else Finish(Update(d1, id, PutPart(inc, i, body)), id)
  }

  /** A slot once filled is not filled again, a chunk beyond the count is dropped, and one for
      a file already stored opens no download. */
  lemma ChunkIgnored(d: Dl, id: string, i: nat, body: Bytes)
    requires if id in d.incoming then i in d.incoming[id].parts || (d.incoming[id].meta.Some? && i >= d.incoming[id].n)
             else HasBlob(d.db, id)
    ensures OnChunk(d, id, i, body) == d
  {}

  // ----- the receiver's object -----

  class Incoming {
    var meta: Option<Record>
    var n: nat
    var parts: map<nat, Bytes>
    var length: nat
    var got: nat

    function Val(): Inc
      reads this
    {
      Inc(meta, n, parts, length, got)
    }

    constructor ()
      ensures Val() == NewInc
    {
      meta, n, parts, length, got := None, 0, map[], 0, 0;
    }
  }

  class Downloads {
    const store: MessageStore
    var incoming: map<string, Incoming>

    constructor (store: MessageStore)
      requires store.Valid()
      ensures Valid() && this.store == store && incoming == map[]
    {
      this.store := store;
      incoming := map[];
    }

    ghost predicate Valid()
      reads this, store
    {
      && WellKeyed(store.messages)
      && forall a, b :: a in incoming && b in incoming && a != b ==> incoming[a] != incoming[b]
    }

    ghost function View(): Dl
      reads this, store, incoming.Values
    {
      Dl(store.messages, map id | id in incoming :: incoming[id].Val())
    }

    method MaybeFinish(id: string)
      requires Valid()
      modifies this, store
      ensures Valid() && View() == Finish(old(View()), id)
      ensures incoming.Values <= old(incoming.Values)
    {
      if id !in incoming { return; }
      var inc := incoming[id];
      if inc.meta.None? || inc.got < inc.n { return; }
      incoming := incoming - {id};
      assert View().incoming == old(View()).incoming - {id};
      var meta := inc.meta.value;
      var later := if id in store.messages then store.messages[id].readBy else map[];
      var blob := BlobOf(inc.parts, inc.length);
      var rec := meta.(readBy := meta.readBy + later, blob := Some(blob));
      PutRecord(rec);
    }

    /** incoming.get(id), or a new download filed under id. */
    method Slot(id: string) returns (inc: Incoming)
      requires Valid()
      modifies this
      ensures Valid()
      ensures id in incoming && incoming[id] == inc && (inc in old(incoming.Values) || fresh(inc))
      ensures incoming.Values <= old(incoming.Values) + {inc}
      ensures View() == WithSlot(old(View()), id)
    {
      if id in incoming {
        inc := incoming[id];
        assert View() == WithSlot(old(View()), id);
      } else {
        inc := new Incoming();
        incoming := incoming[id := inc];
        assert View().incoming == old(View().incoming)[id := NewInc];
      }
    }

    method SetMeta(id: string, meta: Record, n: nat)
      requires Valid() && id in incoming
      modifies incoming[id]
      ensures Valid() && View() == Update(old(View()), id, old(incoming[id].Val()).(meta := Some(meta), n := n))
    {
      var inc := incoming[id];
      inc.meta := Some(meta);
      inc.n := n;
      OneChanged(id, old(View()).incoming);
    }

    method AddPart(id: string, i: nat, body: Bytes)
      requires Valid() && id in incoming
      modifies incoming[id]
      ensures Valid() && View() == Update(old(View()), id, PutPart(old(incoming[id].Val()), i, body))
    {
      var inc := incoming[id];
      inc.parts := inc.parts[i := body];
      inc.length := if i < inc.length then inc.length else i + 1;
      inc.got := inc.got + 1;
      OneChanged(id, old(View()).incoming);
    }

    lemma OneChanged(id: string, before: map<string, Inc>)
      requires id in incoming && before.Keys == incoming.Keys
      requires forall k :: k in incoming && k != id ==> incoming[k].Val() == before[k]
      ensures View().incoming == before[id := incoming[id].Val()]
    {}

    method PutRecord(rec: Record)
      requires Valid()
      modifies store
      ensures Valid() && View() == old(View()).(db := old(View()).db[rec.id := rec])
    {
      store.Put(rec);
      assert View().incoming == old(View()).incoming;
    }

    method OnFileMeta(raw: Raw, n: nat, now: int)
      requires Valid()
      modifies this, store, incoming.Values
      ensures Valid() && View() == OnMeta(old(View()), raw, n, now)
      ensures fresh(incoming.Values - old(incoming.Values))
    {
      var rec := CleanRecord(raw, now);
      var known := rec.id in store.messages;
      if known && store.messages[rec.id].blob.Some? { return; }
      var inc := Slot(rec.id);
      SetMeta(rec.id, if known then store.messages[rec.id] else rec, CappedCount(n));
      if !known { PutRecord(rec); }
      MaybeFinish(rec.id);
    }

    method OnFileChunk(id: string, i: nat, body: Bytes)
      requires Valid()
      modifies this, store, incoming.Values
      ensures Valid() && View() == OnChunk(old(View()), id, i, body)
      ensures fresh(incoming.Values - old(incoming.Values))
    {
      if id !in incoming && id in store.messages && store.messages[id].blob.Some? { return; }
      var inc := Slot(id);
      if i in inc.parts { return; }
      if inc.meta.Some? && i >= inc.n { return; }
      AddPart(id, i, body);
      MaybeFinish(id);
    }
  }
}
