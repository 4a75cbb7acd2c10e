/** Chat records, the sanitising of what arrives from peers, and the merging of
    read receipts. */
module Records {
  import opened Wrappers
  import opened Window

  newtype byte = x: int | 0 <= x < 256

  datatype Body =
    | Text(text: string)
    | File(fileName: string, size: int, mime: string)

  /** A stored record.  readBy maps reader ids to display names. */
  datatype Record = Record(id: string, author: string, name: string, ts: int,
                           readBy: map<string, string>, viaJoin: bool, body: Body,
                           blob: Option<seq<byte>>)

  /** A JavaScript object used as a dictionary: its entries in enumeration order. */
  type Entries = seq<(string, string)>

  /** A record as it arrives: every field is whatever the sender put there. */
  datatype Raw = Raw(id: string, author: string, name: string, ts: int, readBy: Entries,
                     viaJoin: bool, body: Body)

  const MAX_READERS := 200

  function Clip(s: string, n: nat): (r: string)
    ensures |r| <= n && r <= s
    ensures |s| <= n ==> r == s
  {
    if |s| <= n then s else s[..n]
  }

  function OrElse(s: string, default: string): string {
    if s == "" then default else s
  }

  /** Assigns clipped entries in order: a later entry for the same key wins. */
  function ReadsObject(es: Entries): map<string, string> {
    if es == [] then map[]
    else
      var (k, v) := es[|es| - 1];
      ReadsObject(es[..|es| - 1])[Clip(k, 64) := Clip(v, 32)]
  }

  function CleanReads(es: Entries): map<string, string> {
    ReadsObject(if |es| <= MAX_READERS then es else es[..MAX_READERS])
  }

  function CleanBody(b: Body): Body {
    match b
    case Text(t) => Text(Clip(t, 10000))
    case File(n, size, mime) =>
      File(Clip(OrElse(n, "file"), 255), size, Clip(OrElse(mime, "application/octet-stream"), 100))
  }

  function CleanRecord(raw: Raw, now: int): Record {
    Record(Clip(raw.id, 64), Clip(raw.author, 64), Clip(OrElse(raw.name, "?"), 32),
           if raw.ts != 0 then raw.ts else now,
           CleanReads(raw.readBy), raw.viaJoin, CleanBody(raw.body), None)
  }

  /** What sanitising produces, and what it therefore leaves alone. */
  ghost predicate IsCleanReads(m: map<string, string>) {
    forall k :: k in m ==> |k| <= 64 && |m[k]| <= 32
  }

  ghost predicate IsClean(r: Record) {
    && |r.id| <= 64 && |r.author| <= 64 && 1 <= |r.name| <= 32 && r.ts != 0
    && IsCleanReads(r.readBy)
    && CleanBody(r.body) == r.body
  }

  /** es lists every entry of m once, in some order. */
  ghost predicate Enumerates(es: Entries, m: map<string, string>) {
    && |es| == |m|
    && (forall i :: 0 <= i < |es| ==> es[i].0 in m && m[es[i].0] == es[i].1)
    && (forall i, j :: 0 <= i < j < |es| ==> es[i].0 != es[j].0)
  }

  method CleanReadsLoop(es: Entries) returns (out: map<string, string>)
    ensures out == CleanReads(es)
  {
    out := map[];
    var kept := if |es| <= MAX_READERS then es else es[..MAX_READERS];
    for i := 0 to |kept|
      invariant out == ReadsObject(kept[..i])
    {
      assert kept[..i + 1][..i] == kept[..i];
      out := out[Clip(kept[i].0, 64) := Clip(kept[i].1, 32)];
    }
    assert kept[..|kept|] == kept;
  }

  lemma {:induction false} ReadsObjectClean(es: Entries)
    ensures IsCleanReads(ReadsObject(es)) && |ReadsObject(es)| <= |es|
  {
    if es != [] { ReadsObjectClean(es[..|es| - 1]); }
  }

  /** Sanitising yields a clean record, whatever came in, once the clock is not at 0. */
  lemma CleanRecordIsClean(raw: Raw, now: int)
    requires now != 0
    ensures IsClean(CleanRecord(raw, now)) && |CleanRecord(raw, now).readBy| <= MAX_READERS
  {
    ReadsObjectClean(if |raw.readBy| <= MAX_READERS then raw.readBy else raw.readBy[..MAX_READERS]);
  }

  ghost function EntryKeys(es: Entries): set<string> {
    set i | 0 <= i < |es| :: es[i].0
  }

  lemma EntryKeysLast(es: Entries)
    requires es != []
    ensures EntryKeys(es) == EntryKeys(es[..|es| - 1]) + {es[|es| - 1].0}
  {
    var n := |es| - 1;
    assert forall i :: 0 <= i < n ==> es[..n][i] == es[i];
    assert es[n].0 in EntryKeys(es);
  }

  /** What is kept of each field: as much as the limit allows, and a stand-in for what is
      missing. */
  lemma CleanRecordKeeps(raw: Raw, now: int)
    ensures var r := CleanRecord(raw, now);
      && r.id <= raw.id && |r.id| == (if |raw.id| < 64 then |raw.id| else 64)
      && r.author <= raw.author && |r.author| == (if |raw.author| < 64 then |raw.author| else 64)
      && (if raw.name == "" then r.name == "?" else r.name <= raw.name && |r.name| == (if |raw.name| < 32 then |raw.name| else 32))
      && r.ts == (if raw.ts == 0 then now else raw.ts) && r.viaJoin == raw.viaJoin && r.blob.None?
      && match raw.body
         case Text(t) => r.body.Text? && r.body.text <= t && |r.body.text| == (if |t| < 10000 then |t| else 10000)
         case File(name, size, mime) =>
           && r.body.File? && r.body.size == size
           && (if name == "" then r.body.fileName == "file"
               else r.body.fileName <= name && |r.body.fileName| == (if |name| < 255 then |name| else 255))
           && (if mime == "" then r.body.mime == "application/octet-stream"
               else r.body.mime <= mime && |r.body.mime| == (if |mime| < 100 then |mime| else 100))
  {
    assert |"application/octet-stream"| == 24 && |"file"| == 4;
  }

  /** Of entries for one reader the last counts, as far as the first 200 go. */
  lemma LaterEntryWins(es: Entries, i: nat)
    requires i < |es| && i < 200
    requires forall j :: i < j < |es| && j < 200 ==> Clip(es[j].0, 64) != Clip(es[i].0, 64)
    ensures Clip(es[i].0, 64) in CleanReads(es) && CleanReads(es)[Clip(es[i].0, 64)] == Clip(es[i].1, 32)
  {
    LastOfKey(if |es| <= MAX_READERS then es else es[..MAX_READERS], i);
  }

  lemma {:induction false} LastOfKey(es: Entries, i: nat)
    requires i < |es| && forall j :: i < j < |es| ==> Clip(es[j].0, 64) != Clip(es[i].0, 64)
    ensures Clip(es[i].0, 64) in ReadsObject(es) && ReadsObject(es)[Clip(es[i].0, 64)] == Clip(es[i].1, 32)
  {
    if i < |es| - 1 { LastOfKey(es[..|es| - 1], i); }
  }

  lemma {:induction false} ReadsObjectIdentity(es: Entries, m: map<string, string>)
    requires IsCleanReads(m)
    requires forall i :: 0 <= i < |es| ==> es[i].0 in m && m[es[i].0] == es[i].1
    requires forall i, j :: 0 <= i < j < |es| ==> es[i].0 != es[j].0
    ensures ReadsObject(es).Keys == EntryKeys(es)
    ensures forall k :: k in ReadsObject(es) ==> k in m && ReadsObject(es)[k] == m[k]
  {
    if es != [] {
      var n := |es| - 1;
      assert es[n].0 in m;
      ReadsObjectIdentity(es[..n], m);
      EntryKeysLast(es);
    }
  }

  lemma {:induction false} DistinctSize(es: Entries)
    requires forall i, j :: 0 <= i < j < |es| ==> es[i].0 != es[j].0
    ensures |EntryKeys(es)| == |es|
  {
    if es != [] {
      var n := |es| - 1;
      DistinctSize(es[..n]);
      EntryKeysLast(es);
      assert forall i :: 0 <= i < n ==> es[..n][i] == es[i];
      assert es[n].0 !in EntryKeys(es[..n]);
    }
  }

  /** Reading back what was written out gives the same readers and names. */
  lemma EnumeratedBack(es: Entries, m: map<string, string>)
    requires Enumerates(es, m) && IsCleanReads(m)
    ensures ReadsObject(es) == m
  {
    ReadsObjectIdentity(es, m);
    DistinctSize(es);
    assert EntryKeys(es) <= m.Keys;
    assert |m.Keys| == |m|;
    SubsetSize(EntryKeys(es), m.Keys);
  }

  /** Relaying a clean record with at most 200 readers is the identity: what the
      next browser stores is what the previous one held. */
  lemma RelayIsIdentity(r: Record, es: Entries, now: int)
    requires IsClean(r) && |r.readBy| <= MAX_READERS && Enumerates(es, r.readBy)
    ensures CleanReads(es) == r.readBy
    ensures CleanRecord(Raw(r.id, r.author, r.name, r.ts, es, r.viaJoin, r.body), now) == r.(blob := None)
  {
    EnumeratedBack(es, r.readBy);
  }

  /** No reader of a clean record is lost on the way exactly if there are at most 200. */
  lemma ReadersArriveIff(r: Record, es: Entries, now: int)
    requires IsClean(r) && Enumerates(es, r.readBy)
    ensures CleanReads(es) == r.readBy <==> |r.readBy| <= MAX_READERS
  {
    if |r.readBy| <= MAX_READERS {
      RelayIsIdentity(r, es, now);
    } else {
      ReadsObjectClean(es[..MAX_READERS]);
    }
  }

  // ----- read receipts -----

  /** Adds readers: names already there stay, and the author never counts. */
  function AddReaders(r: Record, more: map<string, string>): Record {
    r.(readBy := map who | who in r.readBy.Keys + (more.Keys - {r.author}) ::
      if who in more && who != r.author && (who !in r.readBy || r.readBy[who] == "") then more[who]
      else r.readBy[who])
  }

  function Readers(r: Record): set<string> {
    r.readBy.Keys
  }

  lemma AddReadersKeys(r: Record, more: map<string, string>)
    ensures Readers(AddReaders(r, more)) == Readers(r) + (more.Keys - {r.author})
  {}

  /** On reader-id sets merging receipts is a join: order does not matter, two merges
      are one merge of the union, no reader is lost and the author is never added. */
  lemma MergeReadsIsJoin(r: Record, a: map<string, string>, b: map<string, string>)
    ensures Readers(AddReaders(AddReaders(r, a), b)) == Readers(AddReaders(AddReaders(r, b), a))
    ensures Readers(AddReaders(AddReaders(r, a), b)) == Readers(AddReaders(r, a + b))
    ensures Readers(r) <= Readers(AddReaders(r, a))
    ensures r.author in Readers(AddReaders(r, a)) <==> r.author in Readers(r)
  {
    TwoMerges(r, a, b);
    TwoMerges(r, b, a);
    AddReadersKeys(r, a);
    AddReadersKeys(r, a + b);
    assert (a + b).Keys == a.Keys + b.Keys;
  }

  lemma TwoMerges(r: Record, a: map<string, string>, b: map<string, string>)
    ensures Readers(AddReaders(AddReaders(r, a), b)) == Readers(r) + ((a.Keys + b.Keys) - {r.author})
  {
    AddReadersKeys(r, a);
    AddReadersKeys(AddReaders(r, a), b);
  }

  /** A new reader gets the name that came with it. */
  lemma NewReadersNamed(r: Record, more: map<string, string>, who: string)
    requires who in more && who != r.author && who !in r.readBy
    ensures who in AddReaders(r, more).readBy && AddReaders(r, more).readBy[who] == more[who]
    ensures AddReaders(r, more) == r.(readBy := AddReaders(r, more).readBy)
  {}

  /** A repeated merge changes nothing at all, and a name once shown is never replaced. */
  lemma MergeReadsIdempotent(r: Record, a: map<string, string>)
    ensures AddReaders(AddReaders(r, a), a) == AddReaders(r, a)
    ensures forall who :: who in r.readBy && r.readBy[who] != "" ==> AddReaders(r, a).readBy[who] == r.readBy[who]
  {
    var r1 := AddReaders(r, a);
    AddReadersKeys(r, a);
    AddReadersKeys(r1, a);
    assert AddReaders(r1, a).readBy == r1.readBy;
  }
}
