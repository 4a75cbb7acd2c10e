/** The connection log: one file per UTC day, searched through a choice of days and
    deleted by whole days, against the flat log an operator has in mind. */
module IpLog {
  import opened Clock
  import opened Wrappers
  import opened StoreSpec

  const DAY := 24 * HOUR

  /** Rooms are logged by hash; an entry without room or peer holds none. */
  datatype Entry = Entry(time: int, event: string, ip: string, port: int,
                         room: Option<Digest>, peer: string, userAgent: string)

  type Dir = map<int, seq<Entry>>

  /** The UTC day a moment falls in, counted from the epoch. */
  function DayOf(t: int): int { t / DAY }

  /** Every file holds entries of its own day. */
  ghost predicate ByDay(dir: Dir) {
    forall d, e :: d in dir && e in dir[d] ==> DayOf(e.time) == d
  }

  // ----- selecting and gathering -----

  function Select(es: seq<Entry>, p: Entry -> bool): seq<Entry> {
    if es == [] then []
    else Select(es[..|es| - 1], p) + (if p(es[|es| - 1]) then [es[|es| - 1]] else [])
  }

  /** The files of these days, one after the other; a day without file has no entries. */
  function Gather(dir: Dir, days: seq<int>): seq<Entry> {
    if days == [] then []
    else Gather(dir, days[..|days| - 1]) + FileOf(dir, days[|days| - 1])
  }

  function FileOf(dir: Dir, d: int): seq<Entry> {
    if d in dir then dir[d] else []
  }

  lemma SelectLast(es: seq<Entry>, e: Entry, p: Entry -> bool)
    ensures Select(es + [e], p) == Select(es, p) + (if p(e) then [e] else [])
  {
    assert (es + [e])[..|es|] == es;
  }

  lemma GatherLast(dir: Dir, days: seq<int>, d: int)
    ensures Gather(dir, days + [d]) == Gather(dir, days) + FileOf(dir, d)
  {
    assert (days + [d])[..|days|] == days;
  }

  lemma {:induction false} SelectConcat(a: seq<Entry>, b: seq<Entry>, p: Entry -> bool)
    ensures Select(a + b, p) == Select(a, p) + Select(b, p)
    decreases |b|
  {
    if b == [] {
      assert a + b == a;
    } else {
      var b' := b[..|b| - 1];
      SplitLast(b);
      assert a + b == (a + b') + [b[|b| - 1]];
      SelectLast(a + b', b[|b| - 1], p);
      SelectConcat(a, b', p);
    }
  }

  /** Two filters that agree on the entries select the same. */
  lemma {:induction false} SelectSame(es: seq<Entry>, p: Entry -> bool, q: Entry -> bool)
    requires forall e :: e in es ==> p(e) == q(e)
    ensures Select(es, p) == Select(es, q)
  {
    if es != [] {
      SplitLast(es);
      SelectSame(es[..|es| - 1], p, q);
    }
  }

  lemma {:induction false} SelectNone(es: seq<Entry>, p: Entry -> bool)
    requires forall e :: e in es ==> !p(e)
    ensures Select(es, p) == []
  {
    if es != [] {
      SplitLast(es);
      SelectNone(es[..|es| - 1], p);
    }
  }

  lemma {:induction false} Selected(es: seq<Entry>, p: Entry -> bool, e: Entry)
    ensures e in Select(es, p) <==> e in es && p(e)
  {
    if es != [] {
      SplitLast(es);
      Selected(es[..|es| - 1], p, e);
    }
  }

  lemma {:induction false} Gathered(dir: Dir, days: seq<int>, e: Entry)
    ensures e in Gather(dir, days) <==> exists d :: d in days && d in dir && e in dir[d]
  {
    if days != [] {
      SplitLast(days);
      Gathered(dir, days[..|days| - 1], e);
    }
  }

  // ----- the query -----

  datatype Query = Query(room: Option<Digest>, ip: string, from: Option<int>, to: Option<int>)

  /** A file is read unless its whole day lies outside the interval. */
  predicate Kept(q: Query, d: int) {
    !(q.from.Some? && d * DAY + DAY < q.from.value) && !(q.to.Some? && d * DAY >= q.to.value)
  }

  predicate TimeMatch(q: Query, t: int) {
    (q.from.Some? ==> q.from.value <= t) && (q.to.Some? ==> t < q.to.value)
  }

  predicate IpMatch(q: Query, ip: string) {
    q.ip == "" || ip == q.ip
  }

  /** Peers that joined the room. */
  function PeersOf(q: Query, es: seq<Entry>): set<string> {
    if q.room.None? then {} else set e | e in es && e.room == q.room && e.peer != "" :: e.peer
  }

  predicate Matches(q: Query, peers: set<string>, e: Entry) {
    TimeMatch(q, e.time) && IpMatch(q, e.ip) && (q.room.None? || e.room == q.room || e.peer in peers)
  }

  function Matching(q: Query, peers: set<string>): Entry -> bool {
    (e: Entry) => Matches(q, peers, e)
  }

  /** The linear scan of a list of entries. */
  function Scan(q: Query, peers: set<string>, es: seq<Entry>): seq<Entry> {
    Select(es, Matching(q, peers))
  }

  function KeptDays(q: Query, days: seq<int>): seq<int> {
    if days == [] then []
    else
      var n := |days| - 1;
      KeptDays(q, days[..n]) + (if Kept(q, days[n]) then [days[n]] else [])
  }

  lemma KeptLast(q: Query, days: seq<int>, d: int)
    ensures KeptDays(q, days + [d]) == if Kept(q, d) then KeptDays(q, days) + [d] else KeptDays(q, days)
  {
    assert (days + [d])[..|days|] == days;
  }

  lemma DayBounds(t: int)
    ensures DayOf(t) * DAY <= t < DayOf(t) * DAY + DAY
  {}

  /** A matching entry is in a file that is read. */
  lemma MatchIsKept(q: Query, t: int)
    requires TimeMatch(q, t)
    ensures Kept(q, DayOf(t))
  {
    DayBounds(t);
  }

  /** Skipping files skips no match. */
  lemma {:induction false} KeptDaysSuffice(dir: Dir, q: Query, peers: set<string>, days: seq<int>)
    requires ByDay(dir)
    ensures Scan(q, peers, Gather(dir, KeptDays(q, days))) == Scan(q, peers, Gather(dir, days))
  {
    var p := Matching(q, peers);
    if days != [] {
      var n := |days| - 1;
      KeptDaysSuffice(dir, q, peers, days[..n]);
      SelectConcat(Gather(dir, days[..n]), FileOf(dir, days[n]), p);
      if Kept(q, days[n]) {
        GatherLast(dir, KeptDays(q, days[..n]), days[n]);
        SelectConcat(Gather(dir, KeptDays(q, days[..n])), FileOf(dir, days[n]), p);
      } else {
        forall e | e in FileOf(dir, days[n]) ensures !p(e) {
          if TimeMatch(q, e.time) { MatchIsKept(q, e.time); }
        }
        SelectNone(FileOf(dir, days[n]), p);
        assert KeptDays(q, days) == KeptDays(q, days[..n]);
      }
    }
  }

  /** What Search returns. */
  function Found(dir: Dir, q: Query, days: seq<int>): seq<Entry> {
    var all := Gather(dir, KeptDays(q, days));
    Scan(q, PeersOf(q, all), all)
  }

  /** Main result on searching: it is the scan of all files, where a room's peers are those
      seen joining in the files that are read. */
  lemma SearchIsScan(dir: Dir, q: Query, days: seq<int>)
    requires ByDay(dir)
    ensures Found(dir, q, days) == Scan(q, PeersOf(q, Gather(dir, KeptDays(q, days))), Gather(dir, days))
    ensures q.room.None? ==> Found(dir, q, days) == Scan(q, {}, Gather(dir, days))
  {
    KeptDaysSuffice(dir, q, PeersOf(q, Gather(dir, KeptDays(q, days))), days);
  }

  /** The scan one would expect: peers are those that ever joined the room. */
  function FullScan(dir: Dir, q: Query, days: seq<int>): seq<Entry> {
    Scan(q, PeersOf(q, Gather(dir, days)), Gather(dir, days))
  }

  /** Entry j says that the peer of entry e joined the room asked for. */
  predicate Joins(q: Query, j: Entry, e: Entry) {
    q.room.Some? && j.room == q.room && j.peer == e.peer != ""
  }

  /** An entry asked for only because its peer joined the room. */
  predicate AskedByPeer(q: Query, e: Entry) {
    TimeMatch(q, e.time) && IpMatch(q, e.ip) && e.room != q.room
  }

  ghost predicate JoinsKept(q: Query, all: seq<Entry>, e: Entry) {
    exists k :: k in all && Joins(q, k, e) && Kept(q, DayOf(k.time))
  }

  /** Every entry asked for whose peer joined the room has that peer join it on some day
      that the interval touches. */
  ghost predicate PeersCovered(dir: Dir, q: Query, days: seq<int>) {
    var all := Gather(dir, days);
    forall e, j :: e in all && j in all && AskedByPeer(q, e) && Joins(q, j, e) ==> JoinsKept(q, all, e)
  }

  lemma {:induction false} KeptAreDays(q: Query, days: seq<int>)
    ensures forall d :: d in KeptDays(q, days) <==> d in days && Kept(q, d)
  {
    if days != [] {
      SplitLast(days);
      KeptAreDays(q, days[..|days| - 1]);
    }
  }

  lemma ReadEntries(dir: Dir, q: Query, days: seq<int>, e: Entry)
    requires ByDay(dir)
    ensures e in Gather(dir, KeptDays(q, days)) <==> e in Gather(dir, days) && Kept(q, DayOf(e.time))
  {
    KeptAreDays(q, days);
    Gathered(dir, KeptDays(q, days), e);
    Gathered(dir, days, e);
  }

  /** A peer is seen joining in the files read exactly if it joins on such a day. */
  lemma PeerIsRead(dir: Dir, q: Query, days: seq<int>, e: Entry)
    requires ByDay(dir)
    ensures e.peer in PeersOf(q, Gather(dir, KeptDays(q, days))) <==> JoinsKept(q, Gather(dir, days), e)
  {
    var all, read := Gather(dir, days), Gather(dir, KeptDays(q, days));
    if e.peer in PeersOf(q, read) {
      var k :| k in read && k.room == q.room && k.peer != "" && k.peer == e.peer;
      ReadEntries(dir, q, days, k);
    }
    if JoinsKept(q, all, e) {
      var k :| k in all && Joins(q, k, e) && Kept(q, DayOf(k.time));
      ReadEntries(dir, q, days, k);
    }
  }

  lemma PeerIsAny(q: Query, all: seq<Entry>, e: Entry)
    ensures e.peer in PeersOf(q, all) <==> exists j :: j in all && Joins(q, j, e)
  {
    if e.peer in PeersOf(q, all) {
      var j :| j in all && j.room == q.room && j.peer != "" && j.peer == e.peer;
      assert Joins(q, j, e);
    }
  }

  /** Search finds all that a scan of the whole log would find exactly then. */
  lemma SearchIsCompleteIff(dir: Dir, q: Query, days: seq<int>)
    requires ByDay(dir)
    ensures Found(dir, q, days) == FullScan(dir, q, days) <==> PeersCovered(dir, q, days)
  {
    var all := Gather(dir, days);
    var some, every := PeersOf(q, Gather(dir, KeptDays(q, days))), PeersOf(q, all);
    SearchIsScan(dir, q, days);
    if PeersCovered(dir, q, days) {
      forall e | e in all ensures Matches(q, some, e) == Matches(q, every, e) {
        SamePeers(dir, q, days, e);
      }
      SelectSame(all, Matching(q, some), Matching(q, every));
    } else {
      var e, j :| e in all && j in all && AskedByPeer(q, e) && Joins(q, j, e) && !JoinsKept(q, all, e);
      PeerIsRead(dir, q, days, e);
      PeerIsAny(q, all, e);
      Selected(all, Matching(q, some), e);
      Selected(all, Matching(q, every), e);
    }
  }

  lemma SamePeers(dir: Dir, q: Query, days: seq<int>, e: Entry)
    requires ByDay(dir) && PeersCovered(dir, q, days) && e in Gather(dir, days)
    ensures var (all, read) := (Gather(dir, days), Gather(dir, KeptDays(q, days)));
      Matches(q, PeersOf(q, read), e) == Matches(q, PeersOf(q, all), e)
  {
    PeerIsRead(dir, q, days, e);
    PeerIsAny(q, Gather(dir, days), e);
  }

  /** It can fail: a peer joins on one day and uses a relay two days later; asking for the
      room from then on finds nothing. */
  lemma SearchMissesLateRelay() returns (dir: Dir, q: Query, days: seq<int>)
    ensures ByDay(dir) && !PeersCovered(dir, q, days)
    ensures Found(dir, q, days) != FullScan(dir, q, days)
  {
    var joined := Entry(1, "connect", "192.0.2.1", 1, Some(Sha256("r")), "p", "");
    var relayed := Entry(2 * DAY, "turn_auth", "192.0.2.1", 2, None, "p", "");
    dir, days := map[0 := [joined], 2 := [relayed]], [0, 2];
    q := Query(Some(Sha256("r")), "", Some(2 * DAY), None);
    assert DayOf(1) == 0 && DayOf(2 * DAY) == 2;
    JoinedThenRelayed(dir, q, joined, relayed);
    SearchIsCompleteIff(dir, q, days);
  }

  lemma JoinedThenRelayed(dir: Dir, q: Query, joined: Entry, relayed: Entry)
    requires dir == map[0 := [joined], 2 := [relayed]]
    requires q.room.Some? && joined.room == q.room && relayed.room != q.room && joined.peer == relayed.peer != ""
    requires q.from == Some(2 * DAY) && q.to.None? && q.ip == "" && relayed.time >= 2 * DAY && DayOf(joined.time) == 0
    ensures !PeersCovered(dir, q, [0, 2])
  {
    GatherTwo(dir, 0, 2);
    var all := Gather(dir, [0, 2]);
    assert all == [joined, relayed];
    assert joined in all && relayed in all && AskedByPeer(q, relayed) && Joins(q, joined, relayed);
    assert !JoinsKept(q, all, relayed);
  }

  lemma GatherTwo(dir: Dir, c: int, d: int)
    ensures Gather(dir, [c, d]) == FileOf(dir, c) + FileOf(dir, d)
  {
    GatherLast(dir, [], c);
    GatherLast(dir, [c], d);
    assert [] + [c] == [c] && [c] + [d] == [c, d];
  }

  /** The room asked for has an entry with the peer of e, in a file whose day the interval
      of the query touches. */
  predicate SeenJoining(q: Query, j: Entry, e: Entry) {
    && q.room.Some? && j.room == q.room && e.peer != "" && j.peer == e.peer
    && (q.from.Some? ==> q.from.value <= (j.time / DAY + 1) * DAY)
    && (q.to.Some? ==> j.time / DAY * DAY < q.to.value)
  }

  /** What a query asks for, said of an entry of the flat log. */
  ghost predicate AskedFor(q: Query, flat: seq<Entry>, e: Entry) {
    && (q.from.Some? ==> q.from.value <= e.time)
    && (q.to.Some? ==> e.time < q.to.value)
    && (q.ip == "" || e.ip == q.ip)
    && (q.room.Some? && e.room != q.room ==> exists j :: j in flat && SeenJoining(q, j, e))
  }

  // ----- the flat log -----

  /** The files hold the flat log, each the entries of its day in the order logged. */
  ghost predicate Holds(dir: Dir, flat: seq<Entry>) {
    && (forall d :: d in dir ==> dir[d] == OfDay(flat, d))
    && (forall d :: d !in dir ==> OfDay(flat, d) == [])
  }

  function OnDay(d: int): Entry -> bool { (e: Entry) => DayOf(e.time) == d }

  function InDays(days: seq<int>): Entry -> bool { (e: Entry) => DayOf(e.time) in days }

  function Both(p: Entry -> bool, q: Entry -> bool): Entry -> bool { (e: Entry) => p(e) && q(e) }

  function OfDay(flat: seq<Entry>, d: int): seq<Entry> {
    Select(flat, OnDay(d))
  }

  function Logged(dir: Dir, e: Entry): Dir {
    dir[DayOf(e.time) := FileOf(dir, DayOf(e.time)) + [e]]
  }

  lemma HoldsByDay(dir: Dir, flat: seq<Entry>)
    requires Holds(dir, flat)
    ensures ByDay(dir)
  {
    forall d, e | d in dir && e in dir[d] ensures DayOf(e.time) == d { Selected(flat, OnDay(d), e); }
  }

  /** Appending to the file of the entry's day appends to the flat log. */
  lemma LogHolds(dir: Dir, flat: seq<Entry>, e: Entry)
    requires Holds(dir, flat)
    ensures Holds(Logged(dir, e), flat + [e])
  {
    forall d ensures OfDay(flat + [e], d) == OfDay(flat, d) + (if DayOf(e.time) == d then [e] else []) {
      SelectLast(flat, e, OnDay(d));
    }
  }

  ghost predicate IsDays(days: seq<int>, keys: set<int>) {
    && (forall i, j :: 0 <= i < j < |days| ==> days[i] < days[j])
    && (forall d :: d in days <==> d in keys)
  }

  /** Reading every file returns every entry logged as often as it was, day by day. */
  lemma GatherIsFlat(dir: Dir, flat: seq<Entry>, days: seq<int>)
    requires Holds(dir, flat) && IsDays(days, dir.Keys)
    ensures multiset(Gather(dir, days)) == multiset(flat)
  {
    GatherDays(dir, flat, days);
    forall e | e in flat ensures DayOf(e.time) in days {
      Selected(flat, OnDay(DayOf(e.time)), e);
      assert e in OfDay(flat, DayOf(e.time));
    }
    SelectAll(flat, InDays(days));
  }

  lemma {:induction false} SelectAll(es: seq<Entry>, p: Entry -> bool)
    requires forall e :: e in es ==> p(e)
    ensures Select(es, p) == es
  {
    if es != [] {
      SplitLast(es);
      SelectAll(es[..|es| - 1], p);
    }
  }

  /** Splitting a selection in two disjoint ones. */
  lemma {:induction false} SelectEither(es: seq<Entry>, p: Entry -> bool, q: Entry -> bool, r: Entry -> bool)
    requires forall e :: e in es ==> !(p(e) && q(e)) && (r(e) <==> p(e) || q(e))
    ensures multiset(Select(es, r)) == multiset(Select(es, p)) + multiset(Select(es, q))
  {
    if es != [] {
      SplitLast(es);
      SelectEither(es[..|es| - 1], p, q, r);
    }
  }

  lemma {:induction false} GatherDays(dir: Dir, flat: seq<Entry>, days: seq<int>)
    requires Holds(dir, flat) && forall i, j :: 0 <= i < j < |days| ==> days[i] < days[j]
    ensures multiset(Gather(dir, days)) == multiset(Select(flat, InDays(days)))
  {
    if days == [] {
      SelectNone(flat, InDays(days));
    } else {
      var n := |days| - 1;
      var d, first := days[n], days[..n];
      SplitLast(days);
      GatherDays(dir, flat, first);
      SelectEither(flat, InDays(first), OnDay(d), InDays(days));
      assert FileOf(dir, d) == OfDay(flat, d);
    }
  }

  /** A scan of a rearranged log finds the same entries. */
  lemma {:induction false} ScanRearranged(a: seq<Entry>, b: seq<Entry>, p: Entry -> bool)
    requires multiset(a) == multiset(b)
    ensures multiset(Select(a, p)) == multiset(Select(b, p))
  {
    forall e ensures multiset(Select(a, p))[e] == multiset(Select(b, p))[e] {
      SelectCount(a, p, e);
      SelectCount(b, p, e);
    }
  }

  lemma {:induction false} SelectCount(es: seq<Entry>, p: Entry -> bool, e: Entry)
    ensures multiset(Select(es, p))[e] == if p(e) then multiset(es)[e] else 0
  {
    if es != [] {
      SplitLast(es);
      SelectCount(es[..|es| - 1], p, e);
    }
  }

  lemma SameEntries(a: seq<Entry>, b: seq<Entry>, e: Entry)
    requires multiset(a) == multiset(b)
    ensures e in a <==> e in b
  {
    assert e in a <==> e in multiset(a);
    assert e in b <==> e in multiset(b);
  }

  lemma SeenInFiles(dir: Dir, flat: seq<Entry>, q: Query, days: seq<int>, e: Entry)
    requires Holds(dir, flat) && IsDays(days, dir.Keys)
    ensures e.peer in PeersOf(q, Gather(dir, KeptDays(q, days))) <==> exists j :: j in flat && SeenJoining(q, j, e)
  {
    var all := Gather(dir, days);
    HoldsByDay(dir, flat);
    GatherIsFlat(dir, flat, days);
    PeerIsRead(dir, q, days, e);
    if JoinsKept(q, all, e) {
      var k :| k in all && Joins(q, k, e) && Kept(q, DayOf(k.time));
      SameEntries(all, flat, k);
      SeenIffKept(q, k, e);
    }
    if j :| j in flat && SeenJoining(q, j, e) {
      SameEntries(all, flat, j);
      SeenIffKept(q, j, e);
    }
  }

  lemma SeenIffKept(q: Query, j: Entry, e: Entry)
    ensures SeenJoining(q, j, e) <==> Joins(q, j, e) && Kept(q, DayOf(j.time))
  {}

  /** Main result on what is found: every entry asked for, as often as it was logged, and
      no other. */
  lemma FoundIsAskedFor(dir: Dir, flat: seq<Entry>, q: Query, days: seq<int>, e: Entry)
    requires Holds(dir, flat) && IsDays(days, dir.Keys)
    ensures multiset(Found(dir, q, days))[e] == if AskedFor(q, flat, e) then multiset(flat)[e] else 0
  {
    var peers := PeersOf(q, Gather(dir, KeptDays(q, days)));
    HoldsByDay(dir, flat);
    SearchIsScan(dir, q, days);
    GatherIsFlat(dir, flat, days);
    SelectCount(Gather(dir, days), Matching(q, peers), e);
    SeenInFiles(dir, flat, q, days, e);
  }

  /** Without a room, searching the files finds exactly what a scan of the flat log would. */
  lemma SearchRefinesFlat(dir: Dir, flat: seq<Entry>, q: Query, days: seq<int>)
    requires Holds(dir, flat) && IsDays(days, dir.Keys) && q.room.None?
    ensures multiset(Found(dir, q, days)) == multiset(Scan(q, {}, flat))
  {
    HoldsByDay(dir, flat);
    SearchIsScan(dir, q, days);
    GatherIsFlat(dir, flat, days);
    ScanRearranged(Gather(dir, days), flat, Matching(q, {}));
  }

  // ----- retention -----

  /** A file goes once its whole day is over by more than the retention. */
  predicate Outlived(d: int, now: int, retention: int) {
    d * DAY + DAY <= now - retention
  }

  function Retained(now: int, retention: int): Entry -> bool {
    (e: Entry) => !Outlived(DayOf(e.time), now, retention)
  }

  function Purged(dir: Dir, now: int, retention: int): Dir {
    map d | d in dir && !Outlived(d, now, retention) :: dir[d]
  }

  /** Main result on retention: the flat log left is what its whole days say; everything
      newer than the retention stays, and only older entries go. */
  lemma PurgeKeepsRetention(dir: Dir, flat: seq<Entry>, now: int, retention: int)
    requires Holds(dir, flat)
    ensures var left := Select(flat, Retained(now, retention));
      && Holds(Purged(dir, now, retention), left)
      && (forall e :: e in flat && e.time >= now - retention ==> e in left)
      && (forall e :: e in flat && e !in left ==> e.time < now - retention)
      && (forall e :: e in left <==> e in flat && (e.time / DAY + 1) * DAY > now - retention)
  {
    var keep := Retained(now, retention);
    var left := Select(flat, keep);
    var dir' := Purged(dir, now, retention);
    forall d ensures OfDay(left, d) == if Outlived(d, now, retention) then [] else OfDay(flat, d) {
      SelectTwice(flat, keep, OnDay(d));
      if Outlived(d, now, retention) {
        SelectNone(flat, Both(keep, OnDay(d)));
      } else {
        SelectSame(flat, Both(keep, OnDay(d)), OnDay(d));
      }
    }
    forall e ensures e in left <==> e in flat && keep(e) { Selected(flat, keep, e); }
    forall e | e in flat && !keep(e) ensures e.time < now - retention { DayBounds(e.time); }
  }

  lemma {:induction false} SelectTwice(es: seq<Entry>, p: Entry -> bool, q: Entry -> bool)
    ensures Select(Select(es, p), q) == Select(es, Both(p, q))
  {
    if es != [] {
      var n := |es| - 1;
      SelectTwice(es[..n], p, q);
      if p(es[n]) { SelectLast(Select(es[..n], p), es[n], q); }
      else { assert Select(es, p) == Select(es[..n], p); }
    }
  }

  // ----- the logger -----

  method ListDays(keys: set<int>) returns (days: seq<int>)
    ensures IsDays(days, keys)
  {
    days := [];
    var rest := keys;
    while rest != {}
      invariant rest <= keys && IsDays(days, keys - rest)
      invariant forall i, d :: 0 <= i < |days| && d in rest ==> days[i] < d
      decreases rest
    {
      var d := Least(rest);
      assert keys - (rest - {d}) == (keys - rest) + {d};
      days, rest := days + [d], rest - {d};
    }
    assert keys - rest == keys;
  }

  lemma Inhabited(s: set<int>)
    ensures s == {} || exists d :: d in s
  {
    if forall d :: d !in s { assert s == {}; }
  }

  method Least(s: set<int>) returns (m: int)
    requires s != {}
    ensures m in s && forall d :: d in s ==> m <= d
  {
    Inhabited(s);
    m :| m in s;
    var rest := s - {m};
    while rest != {}
      invariant rest <= s && m in s && forall d :: d in s && d !in rest ==> m <= d
      decreases rest
    {
      Inhabited(rest);
      var d :| d in rest;
      rest := rest - {d};
      if d < m { m := d; }
    }
  }

  lemma OneMoreDay(days: seq<int>, i: nat)
    requires i < |days| && forall j, k :: 0 <= j < k < |days| ==> days[j] < days[k]
    ensures forall d :: d in days[..i + 1] <==> d in days[..i] || d == days[i]
    ensures days[i] in days && days[i] !in days[..i]
  {
    assert days[..i + 1] == days[..i] + [days[i]];
  }

  class Logger {
    const retention: int
    var dir: Dir
    /** The day of the file that is open for appending. */
    var open: Option<int>
    /** What was logged and is still kept, in the order logged. */
    ghost var flat: seq<Entry>

    constructor (retention: int)
      ensures Valid() && flat == [] && this.retention == retention
    {
      this.retention, dir, open, flat := retention, map[], None, [];
    }

    ghost predicate Valid()
      reads this
    {
      Holds(dir, flat) && (open.Some? ==> open.value in dir)
    }

    /** An entry without a time gets the current one. */
    method Log(e: Entry, time: Option<int>, now: int)
      requires Valid()
      modifies this
      ensures Valid() && flat == old(flat) + [e.(time := if time.Some? then time.value else now)]
    {
      var e := e.(time := if time.Some? then time.value else now);
      var day := DayOf(e.time);
      LogHolds(dir, flat, e);
      if open != Some(day) {
        if day !in dir { dir := dir[day := []]; }
        open := Some(day);
      }
      dir := dir[day := dir[day] + [e]];
      flat := flat + [e];
      assert dir == Logged(old(dir), e);
    }

    method DropDays(days: seq<int>, now: int)
      requires IsDays(days, dir.Keys) && (open.Some? ==> open.value in dir)
      modifies `dir, `open
      ensures dir == Purged(old(dir), now, retention) && (open.Some? ==> open.value in dir)
    {
      var cutoff := now - retention;
      var i := 0;
      while i < |days|
        invariant 0 <= i <= |days|
        invariant dir.Keys <= old(dir.Keys) && forall d :: d in dir ==> dir[d] == old(dir)[d]
        invariant forall d :: d in old(dir) && d !in days[..i] ==> d in dir
        invariant forall d :: d in days[..i] ==> (d in dir <==> !Outlived(d, now, retention))
        invariant open.Some? ==> open.value in dir
      {
        var d := days[i];
        OneMoreDay(days, i);
        i := i + 1;
        if d * DAY + DAY > cutoff { continue; }
        if open == Some(d) { open := None; }
        dir := dir - {d};
      }
      assert days[..i] == days;
      assert forall d :: d in old(dir) ==> d in days;
    }

    method Purge(now: int)
      requires Valid()
      modifies this
      ensures Valid() && dir == Purged(old(dir), now, retention)
      ensures flat == Select(old(flat), Retained(now, retention))
      ensures forall e :: e in old(flat) && e.time >= now - retention ==> e in flat
      ensures forall e :: e in old(flat) && e !in flat ==> e.time < now - retention
      ensures forall e :: e in flat <==> e in old(flat) && (e.time / DAY + 1) * DAY > now - retention
    {
      var days := ListDays(dir.Keys);
      DropDays(days, now);
      PurgeKeepsRetention(old(dir), flat, now, retention);
      flat := Select(flat, Retained(now, retention));
    }

    method ReadDays(q: Query, days: seq<int>) returns (all: seq<Entry>)
      requires IsDays(days, dir.Keys)
      ensures all == Gather(dir, KeptDays(q, days))
    {
      all := [];
      var i := 0;
      assert days[..0] == [];
      while i < |days|
        invariant 0 <= i <= |days| && all == Gather(dir, KeptDays(q, days[..i]))
      {
        var d := days[i];
        assert days[..i + 1] == days[..i] + [d] && d in days;
        KeptLast(q, days[..i], d);
        GatherLast(dir, KeptDays(q, days[..i]), d);
        i := i + 1;
        if q.from.Some? && d * DAY + DAY < q.from.value { continue; }
        if q.to.Some? && d * DAY >= q.to.value { continue; }
        all := all + dir[d];
      }
      assert days[..i] == days;
    }

    method Search(q: Query) returns (out: seq<Entry>)
      requires Valid()
      ensures exists days :: IsDays(days, dir.Keys) && out == Found(dir, q, days)
      ensures q.room.None? ==> multiset(out) == multiset(Scan(q, {}, flat))
      ensures forall e :: multiset(out)[e] == if AskedFor(q, flat, e) then multiset(flat)[e] else 0
    {
      var days := ListDays(dir.Keys);
      var all := ReadDays(q, days);
      var peers := JoinedPeers(q, all);
      out := Filter(q, peers, all);
      if q.room.None? { SearchRefinesFlat(dir, flat, q, days); }
      forall e ensures multiset(out)[e] == if AskedFor(q, flat, e) then multiset(flat)[e] else 0 {
        FoundIsAskedFor(dir, flat, q, days, e);
      }
    }
  }

  method JoinedPeers(q: Query, all: seq<Entry>) returns (peers: set<string>)
    ensures peers == PeersOf(q, all)
  {
    peers := {};
    if q.room.None? { return; }
    var i := 0;
    assert all[..0] == [];
    while i < |all|
      invariant 0 <= i <= |all| && peers == PeersOf(q, all[..i])
    {
      var e := all[i];
      PeersLast(q, all[..i], e);
      assert all[..i + 1] == all[..i] + [e];
      if e.room == q.room && e.peer != "" { peers := peers + {e.peer}; }
      i := i + 1;
    }
    assert all[..i] == all;
  }

  lemma PeersLast(q: Query, es: seq<Entry>, e: Entry)
    requires q.room.Some?
    ensures PeersOf(q, es + [e]) == PeersOf(q, es) + (if e.room == q.room && e.peer != "" then {e.peer} else {})
  {
    forall x | x in PeersOf(q, es) ensures x in PeersOf(q, es + [e]) {
      var y :| y in es && y.room == q.room && y.peer != "" && y.peer == x;
      assert y in es + [e];
    }
    assert e in es + [e];
  }

  method Filter(q: Query, peers: set<string>, all: seq<Entry>) returns (out: seq<Entry>)
    ensures out == Scan(q, peers, all)
    ensures forall e: Entry ::
      var asked := (q.from.Some? ==> q.from.value <= e.time) && (q.to.Some? ==> e.time < q.to.value)
                   && (q.ip == "" || e.ip == q.ip) && (q.room.None? || e.room == q.room || e.peer in peers);
      multiset(out)[e] == if asked then multiset(all)[e] else 0
  {
    out := [];
    var i := 0;
    while i < |all|
      invariant 0 <= i <= |all| && out == Scan(q, peers, all[..i])
    {
      var e := all[i];
      SelectLast(all[..i], e, Matching(q, peers));
      assert all[..i + 1] == all[..i] + [e];
      i := i + 1;
      if q.from.Some? && e.time < q.from.value { continue; }
      if q.to.Some? && e.time >= q.to.value { continue; }
      if q.ip != "" && e.ip != q.ip { continue; }
      if q.room.Some? && e.room != q.room && e.peer !in peers { continue; }
      out := out + [e];
    }
    assert all[..i] == all;
    forall e ensures multiset(out)[e] == if Matches(q, peers, e) then multiset(all)[e] else 0 {
      SelectCount(all, Matching(q, peers), e);
    }
  }
}
