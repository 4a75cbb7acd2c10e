/** The TURN server's bookkeeping: how many relays each peer and all peers hold, checked
    before a relay is made, and which authentications were logged in the last hour. */
module Turn {
  import opened Clock

  const MAX_LOGGED := 10000

  // ----- usernames -----

  /** The peer ID of a TURN REST username, "expiry:peerID". */
  function PeerOf(username: string): string {
    PeerFrom(username, username)
  }

  /** What follows the first colon of rest; all of the username if there is none. */
  function PeerFrom(username: string, rest: string): string {
    if rest == "" then username
    else if rest[0] == ':' then rest[1..]
    else PeerFrom(username, rest[1..])
  }

  /** The peer ID is found again whatever it contains, since an expiry time has no colon. */
  lemma {:induction false} PeerOfCredential(expiry: string, peer: string)
    requires ':' !in expiry
    ensures PeerOf(expiry + ":" + peer) == peer
    ensures PeerOf(expiry) == expiry
  {
    PeerAfter(expiry + ":" + peer, expiry, peer);
    NoColon(expiry, expiry);
  }

  lemma {:induction false} NoColon(username: string, rest: string)
    requires ':' !in rest
    ensures PeerFrom(username, rest) == username
  {
    if rest != "" { NoColon(username, rest[1..]); }
  }

  lemma {:induction false} PeerAfter(username: string, expiry: string, peer: string)
    requires ':' !in expiry
    ensures PeerFrom(username, expiry + ":" + peer) == peer
    decreases |expiry|
  {
    var rest := expiry + ":" + peer;
    if expiry == "" {
      assert rest[1..] == peer;
    } else {
      assert rest[0] == expiry[0] && rest[1..] == expiry[1..] + ":" + peer;
      PeerAfter(username, expiry[1..], peer);
    }
  }

  // ----- counting relays -----

  /** The per-peer counters and their total. */
  datatype Counters = Counters(allocs: map<string, int>, total: int)

  datatype Caps = Caps(all: int, perPeer: int)

  function CountOf(c: Counters, p: string): int {
    if p in c.allocs then c.allocs[p] else 0
  }

  /** A cap of zero or less is no cap. */
  predicate WithinQuota(c: Counters, caps: Caps, p: string) {
    !(caps.all > 0 && c.total >= caps.all) && (caps.perPeer <= 0 || CountOf(c, p) < caps.perPeer)
  }

  function Created(c: Counters, p: string): Counters {
    Counters(c.allocs[p := CountOf(c, p) + 1], c.total + 1)
  }

  function Deleted(c: Counters, p: string): Counters {
    var n := CountOf(c, p) - 1;
    Counters(if n <= 0 then c.allocs - {p} else c.allocs[p := n], c.total - 1)
  }

  /** A relay that ends leaves the counters as if it had never been made. */
  lemma DeletionUndoesCreation(c: Counters, p: string)
    requires p in c.allocs ==> c.allocs[p] > 0
    ensures Deleted(Created(c, p), p) == c
  {
    assert p in c.allocs ==> c.allocs[p := c.allocs[p]] == c.allocs;
    assert p !in c.allocs ==> c.allocs[p := 1] - {p} == c.allocs;
  }

  /** Handlers run on their own: each checks the quota, and later reports a relay or gives
      up.  live are the relays there are; asking the handlers in between. */
  datatype State = State(counters: Counters, live: multiset<string>, asking: multiset<string>)

  datatype Event =
    | Asks(peer: string)
    | Creates(peer: string)
    | GivesUp(peer: string)
    | Deletes(peer: string)

  /** At most k handlers are between check and report; every deletion has its creation. */
  predicate Enabled(s: State, e: Event, k: nat) {
    match e
    case Asks(_) => |s.asking| < k
    case Creates(p) => p in s.asking
    case GivesUp(p) => p in s.asking
    case Deletes(p) => p in s.live
  }

  function Next(s: State, e: Event, caps: Caps): State {
    match e
    case Asks(p) => if WithinQuota(s.counters, caps, p) then s.(asking := s.asking + multiset{p}) else s
    case Creates(p) =>
      State(Created(s.counters, p), s.live + multiset{p}, s.asking - multiset{p})
    case GivesUp(p) => s.(asking := s.asking - multiset{p})
    case Deletes(p) => s.(counters := Deleted(s.counters, p), live := s.live - multiset{p})
  }

  function Init(): State { State(Counters(map[], 0), multiset{}, multiset{}) }

  ghost predicate Run(s: State, es: seq<Event>, caps: Caps, k: nat)
    decreases |es|
  {
    es == [] || (Enabled(s, es[0], k) && Run(Next(s, es[0], caps), es[1..], caps, k))
  }

  function After(s: State, es: seq<Event>, caps: Caps): State
    decreases |es|
  {
    if es == [] then s else After(Next(s, es[0], caps), es[1..], caps)
  }

  // ----- the counters are right -----

  ghost function Sum(m: map<string, int>): int {
    if m == map[] then 0
    else
      var k :| k in m;
      m[k] + Sum(m - {k})
  }

  lemma {:induction false} SumWithout(m: map<string, int>, k: string)
    requires k in m
    ensures Sum(m) == m[k] + Sum(m - {k})
    decreases |m|
  {
    var j :| j in m && Sum(m) == m[j] + Sum(m - {j});
    if j != k {
      SumWithout(m - {j}, k);
      SumWithout(m - {k}, j);
      assert m - {j} - {k} == m - {k} - {j};
    }
  }

  lemma SumPut(m: map<string, int>, k: string, v: int)
    ensures Sum(m[k := v]) == Sum(m) + v - (if k in m then m[k] else 0)
  {
    SumWithout(m[k := v], k);
    assert m[k := v] - {k} == m - {k};
    if k in m { SumWithout(m, k); } else { assert m - {k} == m; }
  }

  /** The map counts exactly the live relays, and only peers that have some. */
  ghost predicate Counts(s: State) {
    && (forall p :: p in s.counters.allocs <==> p in s.live)
    && (forall p :: p in s.counters.allocs ==> s.counters.allocs[p] == s.live[p])
    && s.counters.total == |s.live|
    && Sum(s.counters.allocs) == s.counters.total
  }

  lemma CreateCounts(s: State, p: string, t: State)
    requires Counts(s) && t.counters == Created(s.counters, p) && t.live == s.live + multiset{p}
    ensures Counts(t)
  {
    SumPut(s.counters.allocs, p, CountOf(s.counters, p) + 1);
  }

  lemma DeleteCounts(s: State, p: string, t: State)
    requires Counts(s) && p in s.live && t.counters == Deleted(s.counters, p) && t.live == s.live - multiset{p}
    ensures Counts(t)
  {
    var n := CountOf(s.counters, p) - 1;
    if n <= 0 { SumWithout(s.counters.allocs, p); } else { SumPut(s.counters.allocs, p, n); }
    assert |s.live| == |t.live| + 1;
  }

  // ----- the caps -----

  /** Relays and those about to be made. */
  ghost predicate Capped(s: State, caps: Caps, k: nat) {
    && |s.asking| <= k
    && (caps.all > 0 ==> |s.live| + |s.asking| <= caps.all - 1 + k)
    && (caps.perPeer > 0 ==> forall p :: s.live[p] + s.asking[p] <= caps.perPeer - 1 + k)
  }

  lemma OneOfMany(m: multiset<string>, p: string)
    ensures m[p] <= |m|
  {
    assert m == m[p := 0] + multiset{}[p := m[p]];
    assert |multiset{}[p := m[p]]| == m[p];
  }

  lemma AskKeeps(s: State, p: string, caps: Caps, k: nat)
    requires Counts(s) && Capped(s, caps, k) && |s.asking| < k && WithinQuota(s.counters, caps, p)
    ensures Capped(s.(asking := s.asking + multiset{p}), caps, k)
  {
    var asking := s.asking + multiset{p};
    OneOfMany(asking, p);
    assert CountOf(s.counters, p) == s.live[p];
  }

  lemma CreateCapped(s: State, p: string, t: State, caps: Caps, k: nat)
    requires Capped(s, caps, k) && p in s.asking
    requires t.live == s.live + multiset{p} && t.asking == s.asking - multiset{p}
    ensures Capped(t, caps, k)
  {
    assert |s.asking| == |t.asking| + 1 && |t.live| == |s.live| + 1;
    assert forall q :: t.live[q] + t.asking[q] == s.live[q] + s.asking[q];
  }

  lemma GiveUpCapped(s: State, p: string, caps: Caps, k: nat)
    requires Capped(s, caps, k) && p in s.asking
    ensures Capped(s.(asking := s.asking - multiset{p}), caps, k)
  {
    assert |s.asking| == |s.asking - multiset{p}| + 1;
  }

  lemma StepKeeps(s: State, e: Event, caps: Caps, k: nat)
    requires k > 0 && Counts(s) && Capped(s, caps, k) && Enabled(s, e, k)
    ensures Counts(Next(s, e, caps)) && Capped(Next(s, e, caps), caps, k)
  {
    var t := Next(s, e, caps);
    match e
    case Asks(p) => if WithinQuota(s.counters, caps, p) { AskKeeps(s, p, caps, k); }
    case Creates(p) => CreateCounts(s, p, t); CreateCapped(s, p, t, caps, k);
    case GivesUp(p) => GiveUpCapped(s, p, caps, k);
    case Deletes(p) => DeleteCounts(s, p, t);
  }

  lemma {:induction false} RunKeeps(s: State, es: seq<Event>, caps: Caps, k: nat)
    requires k > 0 && Counts(s) && Capped(s, caps, k) && Run(s, es, caps, k)
    ensures Counts(After(s, es, caps)) && Capped(After(s, es, caps), caps, k)
    decreases |es|
  {
    if es != [] {
      StepKeeps(s, es[0], caps, k);
      RunKeeps(Next(s, es[0], caps), es[1..], caps, k);
    }
  }

  /** Main result: in every run the total is the sum of the counters, every counter kept is
      positive and counts its peer's relays, and with at most k handlers at once a cap is
      exceeded by at most k - 1. */
  lemma Accounting(es: seq<Event>, caps: Caps, k: nat)
    requires k > 0 && Run(Init(), es, caps, k)
    ensures var s := After(Init(), es, caps);
      && s.counters.total == Sum(s.counters.allocs) == |s.live|
      && (forall p :: p in s.counters.allocs ==> s.counters.allocs[p] == s.live[p] > 0)
      && (forall p :: p in s.live ==> p in s.counters.allocs)
      && (caps.all > 0 ==> s.counters.total <= caps.all + (k - 1))
      && (caps.perPeer > 0 ==> forall p :: CountOf(s.counters, p) <= caps.perPeer + (k - 1))
  {
    RunKeeps(Init(), es, caps, k);
  }

  /** In every run a check is refused exactly when the live relays of all peers, or those of
      this one, have reached a cap; a cap of zero or less is none. */
  lemma RefusedIff(es: seq<Event>, caps: Caps, k: nat, p: string)
    requires k > 0 && Run(Init(), es, caps, k)
    ensures var s := After(Init(), es, caps);
      !WithinQuota(s.counters, caps, p) <==>
        (caps.all > 0 && |s.live| >= caps.all) || (caps.perPeer > 0 && s.live[p] >= caps.perPeer)
  {
    RunKeeps(Init(), es, caps, k);
  }

  // ----- the excess does occur -----

  lemma {:induction false} AllAsk(s: State, p: string, caps: Caps, k: nat, n: nat) returns (es: seq<Event>)
    requires WithinQuota(s.counters, caps, p) && |s.asking| + n <= k
    ensures Run(s, es, caps, k)
    ensures After(s, es, caps) == s.(asking := After(s, es, caps).asking)
    ensures After(s, es, caps).asking[p] == s.asking[p] + n
    decreases n
  {
    es := [];
    if n > 0 {
      var t := Next(s, Asks(p), caps);
      es := AllAsk(t, p, caps, k, n - 1);
      assert ([Asks(p)] + es)[1..] == es;
      es := [Asks(p)] + es;
    }
  }

  lemma {:induction false} AllCreate(s: State, p: string, caps: Caps, k: nat, n: nat) returns (es: seq<Event>)
    requires s.asking[p] >= n
    ensures Run(s, es, caps, k) && After(s, es, caps).counters.total == s.counters.total + n
    ensures CountOf(After(s, es, caps).counters, p) == CountOf(s.counters, p) + n
    decreases n
  {
    es := [];
    if n > 0 {
      var t := Next(s, Creates(p), caps);
      es := AllCreate(t, p, caps, k, n - 1);
      assert ([Creates(p)] + es)[1..] == es;
      es := [Creates(p)] + es;
    }
  }

  lemma RunStarts(s: State, t: State, e: Event, es: seq<Event>, rest: seq<Event>, caps: Caps, k: nat)
    requires Enabled(s, e, k) && t == Next(s, e, caps) && Run(t, rest, caps, k)
    requires es != [] && es[0] == e && es[1..] == rest
    ensures Run(s, es, caps, k) && After(s, es, caps) == After(t, rest, caps)
  {}

  lemma TailOfJoined(es: seq<Event>, more: seq<Event>)
    requires es != []
    ensures (es + more)[0] == es[0] && (es + more)[1..] == es[1..] + more
  {}

  lemma {:induction false} RunsJoin(s: State, es: seq<Event>, more: seq<Event>, caps: Caps, k: nat)
    requires Run(s, es, caps, k) && Run(After(s, es, caps), more, caps, k)
    ensures Run(s, es + more, caps, k) && After(s, es + more, caps) == After(After(s, es, caps), more, caps)
    decreases |es|
  {
    if es == [] {
      assert es + more == more;
    } else {
      var t := Next(s, es[0], caps);
      RunsJoin(t, es[1..], more, caps, k);
      TailOfJoined(es, more);
      RunStarts(s, t, es[0], es + more, es[1..] + more, caps, k);
    }
  }

  /** k handlers that all check while one place is left all get a relay, whichever cap it
      is that leaves one place. */
  lemma CapIsExceeded(s: State, p: string, caps: Caps, k: nat) returns (es: seq<Event>)
    requires s.asking == multiset{} && WithinQuota(s.counters, caps, p)
    ensures Run(s, es, caps, k)
    ensures After(s, es, caps).counters.total == s.counters.total + k
    ensures CountOf(After(s, es, caps).counters, p) == CountOf(s.counters, p) + k
    ensures caps.all > 0 && s.counters.total == caps.all - 1 ==>
      After(s, es, caps).counters.total == caps.all + (k - 1)
    ensures caps.perPeer > 0 && CountOf(s.counters, p) == caps.perPeer - 1 ==>
      CountOf(After(s, es, caps).counters, p) == caps.perPeer + (k - 1)
  {
    var asks := AllAsk(s, p, caps, k, k);
    var t := After(s, asks, caps);
    var creates := AllCreate(t, p, caps, k, k);
    RunsJoin(s, asks, creates, caps, k);
    es := asks + creates;
  }

  // ----- logging an authentication once an hour -----

  type Logged = map<string, int>

  function Pruned(l: Logged, now: int): Logged {
    map k | k in l && now - l[k] < HOUR :: l[k]
  }

  predicate Recent(l: Logged, key: string, now: int) {
    key in l && now - l[key] < HOUR
  }

  function Noted(l: Logged, key: string, now: int): Logged {
    if Recent(l, key, now) then l
    else
      var l1 := l[key := now];
      if |l1| > MAX_LOGGED then Pruned(l1, now) else l1
  }

  /** Calls in the order in which they take the lock, with the clock each read before. */
  datatype Call = Call(key: string, now: int)

  function NotedAll(l: Logged, calls: seq<Call>): Logged {
    if calls == [] then l
    else Noted(NotedAll(l, calls[..|calls| - 1]), calls[|calls| - 1].key, calls[|calls| - 1].now)
  }

  /** The calls that wrote a line. */
  predicate Writes(l: Logged, calls: seq<Call>, i: nat)
    requires i < |calls|
  {
    !Recent(NotedAll(l, calls[..i]), calls[i].key, calls[i].now)
  }

  /** A call may have read the clock earlier than calls that got the lock before it, by at
      most d. */
  ghost predicate Skewed(calls: seq<Call>, d: nat) {
    forall i, j :: 0 <= i < j < |calls| ==> calls[i].now - d <= calls[j].now
  }

  /** What the map says of a line written by call i. */
  ghost predicate Remembers(calls: seq<Call>, n: nat, i: nat)
    requires i < n <= |calls|
  {
    var l := NotedAll(map[], calls[..n]);
    if calls[i].key in l then calls[i].now <= l[calls[i].key]
    else exists m :: i < m < n && calls[m].now - calls[i].now >= HOUR
  }

  lemma NotedNext(calls: seq<Call>, n: nat)
    requires n < |calls|
    ensures NotedAll(map[], calls[..n + 1]) == Noted(NotedAll(map[], calls[..n]), calls[n].key, calls[n].now)
  {
    assert calls[..n + 1][..n] == calls[..n];
  }

  /** Two lines of one key are an hour apart, less the skew. */
  lemma GapOf(calls: seq<Call>, d: nat, i: nat, n: nat)
    requires Skewed(calls, d) && i < n < |calls| && calls[i].key == calls[n].key
    requires Remembers(calls, n, i) && Writes(map[], calls, n)
    ensures calls[n].now - calls[i].now >= HOUR - d
  {
    var l := NotedAll(map[], calls[..n]);
    if calls[i].key !in l {
      var m :| i < m < n && calls[m].now - calls[i].now >= HOUR;
      assert calls[m].now - d <= calls[n].now;
    }
  }

  /** What one call does to a key: its own is set unless recent, another may be pruned. */
  lemma NotedKey(l: Logged, key: string, now: int, k: string)
    ensures var l1 := Noted(l, key, now);
      if k == key then k in l1 && l1[k] == (if Recent(l, key, now) then l[k] else now)
      else if k in l then (k in l1 && l1[k] == l[k]) || (k !in l1 && now - l[k] >= HOUR)
      else k !in l1
  {}

  lemma StillRemembered(calls: seq<Call>, d: nat, i: nat, n: nat)
    requires Skewed(calls, d) && d <= HOUR && i < n < |calls| && Remembers(calls, n, i)
    ensures Remembers(calls, n + 1, i)
  {
    var l, l1 := NotedAll(map[], calls[..n]), NotedAll(map[], calls[..n + 1]);
    var k, c := calls[i].key, calls[n];
    NotedNext(calls, n);
    NotedKey(l, c.key, c.now, k);
    if k !in l {
      var m :| i < m < n && calls[m].now - calls[i].now >= HOUR;
      assert calls[m].now - d <= c.now;
    } else if k !in l1 {
      assert calls[n].now - calls[i].now >= HOUR;
    }
  }

  lemma {:induction false} LinesRemembered(calls: seq<Call>, d: nat, i: nat, n: nat)
    requires Skewed(calls, d) && d <= HOUR && i < n <= |calls| && Writes(map[], calls, i)
    ensures Remembers(calls, n, i)
    decreases n
  {
    if n == i + 1 {
      NotedNext(calls, i);
      NotedKey(NotedAll(map[], calls[..i]), calls[i].key, calls[i].now, calls[i].key);
    } else {
      LinesRemembered(calls, d, i, n - 1);
      StillRemembered(calls, d, i, n - 1);
    }
  }

  /** Main result: no two lines for one key less than an hour minus the skew apart; with
      clock readings in lock order, never within the hour. */
  lemma LoggedHourly(calls: seq<Call>, d: nat, i: nat, j: nat)
    requires Skewed(calls, d) && d <= HOUR && i < j < |calls|
    requires calls[i].key == calls[j].key && Writes(map[], calls, i) && Writes(map[], calls, j)
    ensures calls[j].now - calls[i].now >= HOUR - d
  {
    LinesRemembered(calls, d, i, j);
    GapOf(calls, d, i, j);
  }

  // ----- exactly when a key is logged twice within the hour -----

  /** Call m wrote a line and found more keys than the map may hold. */
  predicate PrunesAt(calls: seq<Call>, m: nat)
    requires m < |calls|
  {
    Writes(map[], calls, m) && |NotedAll(map[], calls[..m])[calls[m].key := calls[m].now]| > 10000
  }

  /** A line of the same key between calls i and n. */
  predicate Again(calls: seq<Call>, i: nat, m: nat)
    requires i < |calls| && m < |calls|
  {
    calls[m].key == calls[i].key && Writes(map[], calls, m)
  }

  /** Call m finds the map too full, and the line of call i an hour old by its own clock. */
  predicate Forgets(calls: seq<Call>, i: nat, m: nat)
    requires i < |calls| && m < |calls|
  {
    calls[m].now - calls[i].now >= HOUR && PrunesAt(calls, m)
  }

  /** What is left of the line of call i just before call n. */
  ghost predicate Traced(calls: seq<Call>, i: nat, n: nat)
    requires i < n <= |calls|
  {
    var l := NotedAll(map[], calls[..n]);
    && (calls[i].key in l ==> l[calls[i].key] == calls[i].now)
    && (calls[i].key !in l <==> exists m :: i < m < n && Forgets(calls, i, m))
  }

  /** One call forgets a key of another exactly if it prunes and the key is an hour old. */
  lemma NotedForgets(l: Logged, key: string, now: int, k: string)
    requires k in l && (k == key ==> Recent(l, key, now))
    ensures var l1 := Noted(l, key, now);
      && (k in l1 ==> l1[k] == l[k])
      && (k !in l1 <==> now - l[k] >= HOUR && !Recent(l, key, now) && |l[key := now]| > MAX_LOGGED)
  {}

  lemma TraceStarts(calls: seq<Call>, i: nat)
    requires i < |calls| && Writes(map[], calls, i)
    ensures Traced(calls, i, i + 1)
  {
    NotedNext(calls, i);
    NotedKey(NotedAll(map[], calls[..i]), calls[i].key, calls[i].now, calls[i].key);
  }

  lemma TraceNext(calls: seq<Call>, i: nat, n: nat)
    requires i < n < |calls| && Traced(calls, i, n) && !Again(calls, i, n)
    ensures Traced(calls, i, n + 1)
  {
    var l := NotedAll(map[], calls[..n]);
    var k, c := calls[i].key, calls[n];
    NotedNext(calls, n);
    if k in l {
      NotedForgets(l, c.key, c.now, k);
      assert k !in Noted(l, c.key, c.now) <==> Forgets(calls, i, n);
    } else {
      NotedKey(l, c.key, c.now, k);
    }
  }

  lemma {:induction false} LineTraced(calls: seq<Call>, i: nat, n: nat)
    requires i < n <= |calls| && Writes(map[], calls, i)
    requires forall m :: i < m < n ==> !Again(calls, i, m)
    ensures Traced(calls, i, n)
    decreases n
  {
    if n == i + 1 {
      TraceStarts(calls, i);
    } else {
      LineTraced(calls, i, n - 1);
      TraceNext(calls, i, n - 1);
    }
  }

  /** Main result: after its last line a key is logged again exactly when the hour is over,
      or if a call in between, an hour later by its own clock, found the map too full.
      Nothing is asked of the clock readings. */
  lemma LoggedAgainIff(calls: seq<Call>, i: nat, j: nat)
    requires i < j < |calls| && calls[i].key == calls[j].key && Writes(map[], calls, i)
    requires forall m :: i < m < j ==> !Again(calls, i, m)
    ensures Writes(map[], calls, j) <==>
      calls[j].now - calls[i].now >= HOUR || exists m :: i < m < j && Forgets(calls, i, m)
  {
    LineTraced(calls, i, j);
  }

  /** So within the hour it is logged twice exactly if such a call came in between. */
  lemma LoggedTwiceIff(calls: seq<Call>, i: nat, j: nat)
    requires i < j < |calls| && calls[i].key == calls[j].key && Writes(map[], calls, i)
    requires forall m :: i < m < j ==> !Again(calls, i, m)
    requires calls[j].now - calls[i].now < HOUR
    ensures Writes(map[], calls, j) <==> exists m :: i < m < j && Forgets(calls, i, m)
  {
    LoggedAgainIff(calls, i, j);
  }

  /** A key's first call always writes. */
  lemma {:induction false} FirstIsLogged(calls: seq<Call>, j: nat)
    requires j < |calls| && forall i :: 0 <= i < j ==> calls[i].key != calls[j].key
    ensures Writes(map[], calls, j)
  {
    NeverNoted(calls, j, calls[j].key);
  }

  lemma {:induction false} NeverNoted(calls: seq<Call>, n: nat, key: string)
    requires n <= |calls| && forall i :: 0 <= i < n ==> calls[i].key != key
    ensures key !in NotedAll(map[], calls[..n])
    decreases n
  {
    if n > 0 {
      NeverNoted(calls, n - 1, key);
      NotedNext(calls, n - 1);
      NotedKey(NotedAll(map[], calls[..n - 1]), calls[n - 1].key, calls[n - 1].now, key);
    }
  }

  // ----- one nanosecond is enough -----

  function Name(n: nat): string { seq(n, _ => 'x') }

  /** n keys, the first logged a nanosecond before the others. */
  function Crowd(n: nat): seq<Call> {
    seq(n, k requires 0 <= k < n => Call(Name(k), if k == 0 then 0 else 1))
  }

  /** l holds the n names of the crowd. */
  ghost predicate Holds(l: Logged, n: nat) {
    && |l| == n
    && (n > 0 ==> Name(0) in l)
    && forall key :: key in l ==> |key| < n && l[key] == if |key| == 0 then 0 else 1
  }

  lemma OneJoins(l: Logged, n: nat, now: int)
    requires Holds(l, n)
    ensures Name(n) !in l && |l[Name(n) := now]| == n + 1
    ensures now == (if n == 0 then 0 else 1) ==> Holds(l[Name(n) := now], n + 1)
  {
    assert |Name(n)| == n;
    assert l[Name(n) := now].Keys == l.Keys + {Name(n)};
  }

  lemma {:induction false} CrowdLogged(n: nat)
    requires n <= MAX_LOGGED
    ensures Holds(NotedAll(map[], Crowd(n)), n)
    decreases n
  {
    if n > 0 {
      CrowdLogged(n - 1);
      OneJoins(NotedAll(map[], Crowd(n - 1)), n - 1, if n == 1 then 0 else 1);
      assert Crowd(n)[..n - 1] == Crowd(n - 1);
    }
  }

  /** A run from the empty map whose clock readings are a nanosecond out of order logs a
      key twice within the hour, so the bound of LoggedHourly is reached. */
  lemma SkewLogsTwice() returns (calls: seq<Call>, j: nat)
    ensures 0 < j < |calls| && Skewed(calls, 1) && calls[0].key == calls[j].key
    ensures Writes(map[], calls, 0) && Writes(map[], calls, j) && calls[j].now - calls[0].now == HOUR - 1
  {
    var crowd := Crowd(MAX_LOGGED);
    calls, j := crowd + [Call(Name(MAX_LOGGED), HOUR), Call(Name(0), HOUR - 1)], MAX_LOGGED + 1;
    CrowdLogged(MAX_LOGGED);
    var l := NotedAll(map[], crowd);
    assert calls[..MAX_LOGGED] == crowd;
    NotedNext(calls, MAX_LOGGED);
    OneJoins(l, MAX_LOGGED, HOUR);
    NotedForgets(l, Name(MAX_LOGGED), HOUR, Name(0));
  }

  // ----- the server -----

  class Server {
    const caps: Caps
    var allocs: map<string, int>
    var allocTotal: int
    var logged: Logged
    /** The keys and times of the lines written to the IP log. */
    var lines: seq<Call>

    constructor (caps: Caps)
      ensures this.caps == caps && Val() == Init().counters && logged == map[] && lines == []
    {
      this.caps := caps;
      allocs, allocTotal, logged, lines := map[], 0, map[], [];
    }

    function Val(): Counters
      reads this
    {
      Counters(allocs, allocTotal)
    }

    method QuotaHandler(username: string) returns (ok: bool)
      ensures ok == WithinQuota(Val(), caps, PeerOf(username))
    {
      if caps.all > 0 && allocTotal >= caps.all { return false; }
      var p := PeerOf(username);
      ok := caps.perPeer <= 0 || (if p in allocs then allocs[p] else 0) < caps.perPeer;
    }

    method OnAllocationCreated(username: string)
      modifies `allocs, `allocTotal
      ensures Val() == Created(old(Val()), PeerOf(username))
    {
      var p := PeerOf(username);
      allocs := allocs[p := (if p in allocs then allocs[p] else 0) + 1];
      allocTotal := allocTotal + 1;
    }

    method OnAllocationDeleted(username: string)
      modifies `allocs, `allocTotal
      ensures Val() == Deleted(old(Val()), PeerOf(username))
    {
      var p := PeerOf(username);
      var n := (if p in allocs then allocs[p] else 0) - 1;
      if n <= 0 { allocs := allocs - {p}; } else { allocs := allocs[p := n]; }
      allocTotal := allocTotal - 1;
    }

    method Prune(now: int)
      modifies `logged
      ensures logged == Pruned(old(logged), now)
    {
      var rest := logged.Keys;
      while rest != {}
        invariant rest <= logged.Keys <= old(logged.Keys)
        invariant forall k :: k in logged ==> logged[k] == old(logged[k])
        invariant forall k :: k in old(logged) && k !in rest ==> (k in logged <==> now - old(logged[k]) < HOUR)
        decreases rest
      {
        var k :| k in rest;
        rest := rest - {k};
        if now - logged[k] >= HOUR { logged := logged - {k}; }
      }
    }

    method LogAuth(username: string, src: string, now: int)
      modifies `logged, `lines
      ensures var key := username + "|" + src;
        && logged == Noted(old(logged), key, now)
        && lines == if Recent(old(logged), key, now) then old(lines) else old(lines) + [Call(key, now)]
    {
      var key := username + "|" + src;
      if key in logged && now - logged[key] < HOUR { return; }
      logged := logged[key := now];
      if |logged| > MAX_LOGGED { Prune(now); }
      lines := lines + [Call(key, now)];
    }
  }
}
