/** The order of chat records and the bounded window of the most recent ones.

    A browser keeps every record it ever saw, but compares only the last
    HISTORY_LIMIT of them with its peers.  Records are ordered by (ts, id): rows
    come out of the index in key order and are then sorted stably by ts. */
module Window {

  const HISTORY_LIMIT: nat := 1000

  /** What identifies a record: an id determines its timestamp and its author. */
  datatype Stamp = Stamp(ts: int, id: string, author: string)

  /** Lexicographic order on storage keys. */
  predicate IdLess(a: string, b: string) {
    |b| > 0 && (|a| == 0 || a[0] < b[0] || (a[0] == b[0] && IdLess(a[1..], b[1..])))
  }

  /** The first characters that differ decide, or the lengths if none do. */
  lemma {:induction false} IdLessAt(a: string, b: string, k: nat)
    requires k <= |a| && k < |b| && a[..k] == b[..k] && (k == |a| || a[k] < b[k])
    ensures IdLess(a, b)
  {
    if k > 0 {
      assert a[0] == a[..k][0] == b[..k][0] == b[0];
      assert a[1..][..k - 1] == a[..k][1..] && b[1..][..k - 1] == b[..k][1..];
      IdLessAt(a[1..], b[1..], k - 1);
    }
  }

  /** y comes after x in the timeline. */
  predicate Later(x: Stamp, y: Stamp) {
    x.ts < y.ts || (x.ts == y.ts && IdLess(x.id, y.id))
  }

  /** No two stamps share an id. */
  ghost predicate UniqueIds(s: set<Stamp>) {
    forall x, y :: x in s && y in s && x.id == y.id ==> x == y
  }

  lemma {:induction false} IdLessTransitive(a: string, b: string, c: string)
    requires IdLess(a, b) && IdLess(b, c)
    ensures IdLess(a, c)
  {
    if |a| > 0 && a[0] == b[0] == c[0] {
      IdLessTransitive(a[1..], b[1..], c[1..]);
    }
  }

  lemma {:induction false} IdLessTotal(a: string, b: string)
    ensures IdLess(a, b) || a == b || IdLess(b, a)
    ensures !(IdLess(a, b) && IdLess(b, a))
  {
    if |a| > 0 && |b| > 0 && a[0] == b[0] {
      IdLessTotal(a[1..], b[1..]);
      assert a == [a[0]] + a[1..] && b == [b[0]] + b[1..];
    }
  }

  lemma LaterTransitive(x: Stamp, y: Stamp, z: Stamp)
    requires Later(x, y) && Later(y, z)
    ensures Later(x, z)
  {
    if x.ts == y.ts == z.ts { IdLessTransitive(x.id, y.id, z.id); }
  }

  lemma LaterTotal(s: set<Stamp>, x: Stamp, y: Stamp)
    requires UniqueIds(s) && x in s && y in s
    ensures x == y || Later(x, y) || Later(y, x)
    ensures !(Later(x, y) && Later(y, x))
  {
    IdLessTotal(x.id, y.id);
  }

  lemma LaterIrreflexive(x: Stamp)
    ensures !Later(x, x)
  {
    IdLessTotal(x.id, x.id);
  }

  ghost function Above(s: set<Stamp>, x: Stamp): set<Stamp> {
    set y | y in s && Later(x, y)
  }

  /** The records that at most HISTORY_LIMIT - 1 others of s come after. */
  ghost function Recent(s: set<Stamp>): (w: set<Stamp>)
    ensures w <= s
  {
    set x | x in s && |Above(s, x)| < HISTORY_LIMIT
  }

  lemma SubsetSize<T>(a: set<T>, b: set<T>)
    requires a <= b
    ensures |a| <= |b|
    ensures |a| == |b| ==> a == b
  {
    assert b == a + (b - a);
    assert |b| == |a| + |b - a|;
  }

  /** A record in the window of a bigger history is in the window of a smaller one. */
  lemma RecentAntitone(small: set<Stamp>, big: set<Stamp>, x: Stamp)
    requires small <= big && x in small && x in Recent(big)
    ensures x in Recent(small)
  {
    SubsetSize(Above(small, x), Above(big, x));
  }

  lemma RecentUpward(s: set<Stamp>, x: Stamp, y: Stamp)
    requires x in Recent(s) && y in s && Later(x, y)
    ensures y in Recent(s)
  {
    forall z | z in Above(s, y) ensures z in Above(s, x) { LaterTransitive(x, y, z); }
    SubsetSize(Above(s, y), Above(s, x));
  }

  lemma {:induction false} LeastExists(s: set<Stamp>) returns (m: Stamp)
    requires s != {} && UniqueIds(s)
    ensures m in s && Above(s, m) == s - {m}
    decreases |s|
  {
    m :| m in s;
    var rest := s - {m};
    if rest != {} {
      var k := LeastExists(rest);
      LaterTotal(s, m, k);
      if Later(k, m) {
        m := k;
      } else {
        forall y | y in rest - {k} ensures Later(m, y) {
          assert y in Above(rest, k);
          LaterTransitive(m, k, y);
        }
      }
    }
    LaterIrreflexive(m);
    forall y | y in s - {m} ensures Later(m, y) {
      if y in rest && m in rest { assert y in Above(rest, m); }
    }
  }

  /** The window holds HISTORY_LIMIT records, or everything when there are fewer. */
  lemma {:induction false} RecentSize(s: set<Stamp>)
    requires UniqueIds(s)
    ensures |Recent(s)| == if |s| < 1000 then |s| else 1000
    decreases |s|
  {
    if |s| <= HISTORY_LIMIT {
      forall x | x in s ensures x in Recent(s) {
        LaterIrreflexive(x);
        SubsetSize(Above(s, x), s - {x});
      }
      assert Recent(s) == s;
    } else {
      var m := LeastExists(s);
      var rest := s - {m};
      RecentSize(rest);
      forall x | x in rest ensures Above(s, x) == Above(rest, x) {
        assert x in Above(s, m);
        LaterTotal(s, m, x);
      }
      assert Recent(s) == Recent(rest);
    }
  }

  /** Whatever keeps at least the window of s and adds nothing has the window of s. */
  lemma RecentSandwich(s: set<Stamp>, t: set<Stamp>)
    requires UniqueIds(s) && Recent(s) <= t <= s
    ensures Recent(t) == Recent(s)
  {
    forall x | x in Recent(s) ensures x in Recent(t) { RecentAntitone(t, s, x); }
    forall x | x in Recent(t) ensures x in Recent(s) {
      if x !in Recent(s) {
        OutsideIsBelow(s, x);
        SubsetSize(Recent(s), Above(t, x));
        SubsetSize(Above(s, x), s);
        RecentSize(s);
      }
    }
  }

  /** No record outside the window is younger than one in it; of records of the same moment
      the ids decide. */
  lemma WindowIsLatest(s: set<Stamp>, x: Stamp, y: Stamp)
    requires UniqueIds(s) && x in Recent(s) && y in s && y !in Recent(s)
    ensures y.ts < x.ts || (y.ts == x.ts && IdLess(y.id, x.id))
  {
    OutsideIsBelow(s, y);
  }

  /** Every windowed record comes after any record that fell out of the window. */
  lemma OutsideIsBelow(s: set<Stamp>, x: Stamp)
    requires UniqueIds(s) && x in s && x !in Recent(s)
    ensures Recent(s) <= Above(s, x)
  {
    forall y | y in Recent(s) ensures Later(x, y) {
      LaterTotal(s, x, y);
      if Later(y, x) { RecentUpward(s, y, x); }
    }
  }

  // ----- "union, then keep the last N" is a semilattice -----

  ghost function Merged(a: set<Stamp>, b: set<Stamp>): set<Stamp> {
    Recent(a + b)
  }

  lemma UniqueSubset(a: set<Stamp>, b: set<Stamp>)
    requires UniqueIds(b) && a <= b
    ensures UniqueIds(a)
  {}

  /** Truncating before a merge changes nothing: only windows need to travel. */
  lemma MergeAbsorbsTruncation(a: set<Stamp>, b: set<Stamp>)
    requires UniqueIds(a + b)
    ensures Merged(Recent(a), b) == Merged(a, b) == Merged(a, Recent(b))
  {
    forall x | x in Recent(a + b) ensures x in Recent(a) + b && x in a + Recent(b) {
      if x in a { RecentAntitone(a, a + b, x); }
      if x in b { RecentAntitone(b, a + b, x); }
    }
    RecentSandwich(a + b, Recent(a) + b);
    RecentSandwich(a + b, a + Recent(b));
  }

  lemma MergeIsSemilattice(a: set<Stamp>, b: set<Stamp>, c: set<Stamp>)
    requires UniqueIds(a + b + c)
    ensures Merged(a, b) == Merged(b, a)
    ensures Merged(Recent(a), Recent(a)) == Recent(a)
    ensures Merged(Merged(a, b), c) == Merged(a, Merged(b, c)) == Recent(a + b + c)
  {
    assert a + b == b + a;
    assert a + a == a && Recent(a) + Recent(a) == Recent(a);
    UniqueSubset(a + a, a + b + c);
    MergeAbsorbsTruncation(a, a);
    MergeAbsorbsTruncation(a, Recent(a));
    MergeAbsorbsTruncation(a + b, c);
    assert a + (b + c) == a + b + c;
    MergeAbsorbsTruncation(a, b + c);
  }
}
