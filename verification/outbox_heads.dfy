/** The outbox collection, and its channel heads. */
module OutboxHeads {
  import opened Schema

  datatype Status = Pending | Published | Parked

  /** An outbox document with its delivery state. */
  datatype Row = Row(id: Id, doc: OutboxDoc, status: Status, attempts: int, nextAttemptAt: Time)

  /** Every document is stored under its own id. */
  predicate Keyed(rows: map<Id, Row>) {
    forall i | i in rows :: rows[i].id == i
  }

  /** Order of publishing within a channel: version, then age, then id. */
  predicate Sooner(a: Row, b: Row) {
    a.doc.event.version < b.doc.event.version
    || (a.doc.event.version == b.doc.event.version && Older(a, b))
  }

  /** Order among channels: age, then id. */
  predicate Older(a: Row, b: Row) {
    a.doc.createdAt < b.doc.createdAt || (a.doc.createdAt == b.doc.createdAt && a.id < b.id)
  }

  /** A pending event that comes before every other pending event of its channel. */
  predicate IsHead(rows: map<Id, Row>, r: Row) {
    && r.id in rows && rows[r.id] == r && r.status.Pending?
    && forall o | o in rows && o != r.id && rows[o].status.Pending? && rows[o].doc.partitionKey == r.doc.partitionKey ::
         Sooner(r, rows[o])
  }

  /** The `limit` oldest channel heads, oldest first. */
  predicate AreHeads(rows: map<Id, Row>, limit: nat, heads: seq<Row>) {
    && |heads| <= limit
    && (forall i, j :: 0 <= i < j < |heads| ==> Older(heads[i], heads[j]))
    && (forall k :: 0 <= k < |heads| ==> IsHead(rows, heads[k]))
    && (forall o | o in rows && IsHead(rows, rows[o]) && rows[o] !in heads ::
          |heads| == limit && forall k :: 0 <= k < |heads| ==> Older(heads[k], rows[o]))
  }

  /** The description leaves no choice. */
  lemma HeadsUnique(rows: map<Id, Row>, limit: nat, a: seq<Row>, b: seq<Row>)
    requires AreHeads(rows, limit, a) && AreHeads(rows, limit, b)
    ensures a == b
  {
    SamePlaces(rows, limit, a, b, if |a| < |b| then |a| else |b|);
    if |a| < |b| { SomewhereElse(rows, limit, a, b); }
    if |b| < |a| { SomewhereElse(rows, limit, b, a); }
  }

  /** The row a shorter answer seems to miss, it has in another place. */
  lemma SomewhereElse(rows: map<Id, Row>, limit: nat, a: seq<Row>, b: seq<Row>)
    requires AreHeads(rows, limit, a) && AreHeads(rows, limit, b) && |a| < |b|
    ensures exists j :: 0 <= j < |a| && a[j] != b[j]
  {
    var x := b[|a|];
    assert rows[x.id] == x && x in a;
    var j :| 0 <= j < |a| && a[j] == x;
    assert Older(b[j], x);
  }

  lemma {:induction false} SamePlaces(rows: map<Id, Row>, limit: nat, a: seq<Row>, b: seq<Row>, n: nat)
    requires AreHeads(rows, limit, a) && AreHeads(rows, limit, b) && n <= |a| && n <= |b|
    ensures forall i :: 0 <= i < n ==> a[i] == b[i]
  {
    if n > 0 {
      SamePlaces(rows, limit, a, b, n - 1);
      NotEarlier(rows, limit, a, b, n - 1);
      NotEarlier(rows, limit, b, a, n - 1);
      SameAge(rows, a[n - 1], b[n - 1]);
    }
  }

  lemma SameAge(rows: map<Id, Row>, a: Row, b: Row)
    requires IsHead(rows, a) && IsHead(rows, b) && !Older(a, b) && !Older(b, a)
    ensures a == b
  {
  }

  lemma NotEarlier(rows: map<Id, Row>, limit: nat, a: seq<Row>, b: seq<Row>, k: nat)
    requires AreHeads(rows, limit, a) && AreHeads(rows, limit, b) && k < |a| && k < |b|
    requires forall i :: 0 <= i < k ==> a[i] == b[i]
    ensures !Older(a[k], b[k])
  {
    var x := a[k];
    assert rows[x.id] == x;
    assert forall i :: 0 <= i < k ==> Older(a[i], x);
    if x in b {
      var j :| 0 <= j < |b| && b[j] == x;
      assert k < j ==> Older(b[k], b[j]);
    }
  }

  // ---------- the stages of the pipeline ----------

  datatype Order = ByPartition | ByAge

  predicate Before(o: Order, a: Row, b: Row) {
    match o
    case ByPartition =>
      a.doc.partitionKey < b.doc.partitionKey || (a.doc.partitionKey == b.doc.partitionKey && Sooner(a, b))
    case ByAge => Older(a, b)
  }

  predicate InOrder(o: Order, s: seq<Row>) {
    forall i, j :: 0 <= i < j < |s| ==> Before(o, s[i], s[j])
  }

  predicate DistinctIds(s: seq<Row>) {
    forall i, j :: 0 <= i < j < |s| ==> s[i].id != s[j].id
  }

  /** A $sort stage, by insertion. */
  method Sort(o: Order, s: seq<Row>) returns (t: seq<Row>)
    requires DistinctIds(s)
    ensures InOrder(o, t) && multiset(t) == multiset(s)
  {
    t := [];
    var n := 0;
    while n < |s|
      invariant 0 <= n <= |s| && InOrder(o, t) && multiset(t) == multiset(s[..n])
    {
      assert s[..n + 1] == s[..n] + [s[n]];
      FreshId(s, n, t);
      t := Place(o, t, s[n]);
      n := n + 1;
    }
    assert s[..n] == s;
  }

  lemma FreshId(s: seq<Row>, n: nat, t: seq<Row>)
    requires DistinctIds(s) && n < |s| && multiset(t) == multiset(s[..n])
    ensures forall k :: 0 <= k < |t| ==> t[k].id != s[n].id
  {
    forall k | 0 <= k < |t| ensures t[k].id != s[n].id {
      assert t[k] in multiset(t);
      assert t[k] in s[..n];
    }
  }

  method Place(o: Order, t: seq<Row>, r: Row) returns (u: seq<Row>)
    requires InOrder(o, t) && forall k :: 0 <= k < |t| ==> t[k].id != r.id
    ensures InOrder(o, u) && multiset(u) == multiset(t) + multiset{r}
  {
    var k := 0;
    while k < |t| && Before(o, t[k], r)
      invariant 0 <= k <= |t| && forall i :: 0 <= i < k ==> Before(o, t[i], r)
    {
      k := k + 1;
    }
    u := t[..k] + [r] + t[k..];
    assert t == t[..k] + t[k..];
    assert k < |t| ==> Before(o, r, t[k]);
  }

  /** `r` is stored under one of the keys. */
  ghost predicate From(m: map<Id, Row>, keys: set<Id>, r: Row) {
    exists i :: i in keys && i in m && m[i] == r
  }

  /** The documents of a map, in whatever order the store yields them. */
  method Documents(m: map<Id, Row>) returns (s: seq<Row>)
    requires forall i, j | i in m && j in m && i != j :: m[i].id != m[j].id
    ensures DistinctIds(s)
    ensures forall k :: 0 <= k < |s| ==> From(m, m.Keys, s[k])
    ensures forall i | i in m :: m[i] in s
  {
    s := [];
    var rest := m.Keys;
    while rest != {}
      invariant rest <= m.Keys && DistinctIds(s)
      invariant forall k :: 0 <= k < |s| ==> From(m, m.Keys - rest, s[k])
      invariant forall i | i in m.Keys - rest :: m[i] in s
      decreases |rest|
    {
      var i :| i in rest;
      forall k | 0 <= k < |s| ensures s[k].id != m[i].id && From(m, m.Keys - (rest - {i}), s[k]) {
        assert From(m, m.Keys - rest, s[k]);
      }
      assert From(m, m.Keys - (rest - {i}), m[i]);
      s := s + [m[i]];
      rest := rest - {i};
    }
    assert m.Keys - rest == m.Keys;
  }

  /** The $match stage. */
  method Match(s: seq<Row>) returns (t: seq<Row>)
    requires DistinctIds(s)
    ensures DistinctIds(t) && forall r :: r in t <==> r in s && r.status.Pending?
  {
    t := [];
    var n := 0;
    while n < |s|
      invariant 0 <= n <= |s| && DistinctIds(t)
      invariant forall r :: r in t <==> r in s[..n] && r.status.Pending?
    {
      assert forall k :: 0 <= k < |t| ==> t[k] in s[..n];
      assert s[..n + 1] == s[..n] + [s[n]];
      if s[n].status.Pending? { t := t + [s[n]]; }
      n := n + 1;
    }
    assert s[..n] == s;
  }

  /** `first` holds, for each channel of the rows in `s`, the first of its rows. */
  ghost predicate FirstOfEach(s: seq<Row>, first: map<Id, Row>) {
    && (forall p | p in first :: first[p] in s && first[p].doc.partitionKey == p)
    && (forall k :: 0 <= k < |s| ==>
          s[k].doc.partitionKey in first
          && (first[s[k].doc.partitionKey] == s[k] || Before(ByPartition, first[s[k].doc.partitionKey], s[k])))
  }

  /** The $group stage with $first, on sorted rows. */
  method GroupFirst(s: seq<Row>) returns (first: map<Id, Row>)
    requires InOrder(ByPartition, s)
    ensures FirstOfEach(s, first)
  {
    first := map[];
    var n := 0;
    while n < |s|
      invariant 0 <= n <= |s| && FirstOfEach(s[..n], first)
    {
      assert s[..n + 1] == s[..n] + [s[n]];
      var p := s[n].doc.partitionKey;
      if p in first {
        var k :| 0 <= k < n && s[..n][k] == first[p];
        assert Before(ByPartition, s[k], s[n]);
      } else {
        first := first[p := s[n]];
      }
      n := n + 1;
    }
    assert s[..n] == s;
  }

  ghost predicate ListsPending(rows: map<Id, Row>, s: seq<Row>) {
    forall r :: r in s <==> r.id in rows && rows[r.id] == r && r.status.Pending?
  }

  /** The groups are the heads. */
  lemma GroupsAreHeads(rows: map<Id, Row>, s: seq<Row>, first: map<Id, Row>)
    requires Keyed(rows) && ListsPending(rows, s) && FirstOfEach(s, first)
    ensures forall p | p in first :: IsHead(rows, first[p])
    ensures forall o | o in rows && IsHead(rows, rows[o]) ::
              rows[o].doc.partitionKey in first && first[rows[o].doc.partitionKey] == rows[o]
    ensures forall p, q | p in first && q in first && p != q :: first[p].id != first[q].id
  {
    forall p | p in first ensures IsHead(rows, first[p]) {
      forall o | o in rows && o != first[p].id && rows[o].status.Pending? && rows[o].doc.partitionKey == p
        ensures Sooner(first[p], rows[o])
      {
        assert rows[o] in s;
      }
    }
    forall o | o in rows && IsHead(rows, rows[o])
      ensures rows[o].doc.partitionKey in first && first[rows[o].doc.partitionKey] == rows[o]
    {
      assert rows[o] in s;
      var f := first[rows[o].doc.partitionKey];
      assert f in s;
    }
  }

  /** The roots of the groups, oldest first and cut off at the limit. */
  lemma LimitGivesHeads(rows: map<Id, Row>, ordered: seq<Row>, limit: nat)
    requires InOrder(ByAge, ordered)
    requires forall k :: 0 <= k < |ordered| ==> IsHead(rows, ordered[k])
    requires forall o | o in rows && IsHead(rows, rows[o]) :: rows[o] in ordered
    ensures AreHeads(rows, limit, if |ordered| <= limit then ordered else ordered[..limit])
  {
    var heads := if |ordered| <= limit then ordered else ordered[..limit];
    forall o | o in rows && IsHead(rows, rows[o]) && rows[o] !in heads
      ensures |heads| == limit && forall k :: 0 <= k < |heads| ==> Older(heads[k], rows[o])
    {
      var i :| 0 <= i < |ordered| && ordered[i] == rows[o];
      assert forall k :: 0 <= k < |heads| ==> heads[k] in heads && heads[k] == ordered[k];
      assert forall k :: 0 <= k < |heads| ==> Before(ByAge, ordered[k], ordered[i]);
    }
  }

  /** Of some events of one channel, one comes before the others. */
  lemma {:induction false} FirstOf(rows: map<Id, Row>, ids: set<Id>) returns (first: Id)
    requires Keyed(rows) && ids != {} && ids <= rows.Keys
    ensures first in ids && forall e | e in ids && e != first :: Sooner(rows[first], rows[e])
    decreases |ids|
  {
    var e :| e in ids;
    if ids == {e} {
      first := e;
    } else {
      var f := FirstOf(rows, ids - {e});
      first := if Sooner(rows[e], rows[f]) then e else f;
      assert rows[e].id == e && rows[f].id == f;
      forall o | o in ids && o != first ensures Sooner(rows[first], rows[o]) {
        assert o != e ==> o in ids - {e};
      }
    }
  }

  /** A channel with a pending event has a head. */
  lemma HeadExists(rows: map<Id, Row>, e: Id)
    requires Keyed(rows) && e in rows && rows[e].status.Pending?
    ensures exists o :: o in rows && rows[o].doc.partitionKey == rows[e].doc.partitionKey && IsHead(rows, rows[o])
  {
    var rivals := set o | o in rows && rows[o].status.Pending? && rows[o].doc.partitionKey == rows[e].doc.partitionKey;
    assert e in rivals;
    var first := FirstOf(rows, rivals);
    assert rows[first].id == first;
    assert IsHead(rows, rows[first]);
  }

  /** The heads are in ascending (created_at, _id). */
  lemma HeadsAscend(rows: map<Id, Row>, limit: nat, heads: seq<Row>)
    requires AreHeads(rows, limit, heads)
    ensures forall i, j :: 0 <= i < j < |heads| ==>
              heads[i].doc.createdAt < heads[j].doc.createdAt
              || (heads[i].doc.createdAt == heads[j].doc.createdAt && heads[i].id < heads[j].id)
  {
    forall i, j | 0 <= i < j < |heads|
      ensures heads[i].doc.createdAt < heads[j].doc.createdAt
              || (heads[i].doc.createdAt == heads[j].doc.createdAt && heads[i].id < heads[j].id)
    {
      assert Older(heads[i], heads[j]);
    }
  }

  /** A head has the least (version, created_at, _id) of the pending events of its channel. */
  lemma HeadIsLeast(rows: map<Id, Row>, h: Row, e: Id)
    requires Keyed(rows) && IsHead(rows, h) && e in rows && e != h.id && rows[e].status.Pending?
    requires rows[e].doc.partitionKey == h.doc.partitionKey
    ensures || h.doc.event.version < rows[e].doc.event.version
            || (h.doc.event.version == rows[e].doc.event.version
                && (h.doc.createdAt < rows[e].doc.createdAt || (h.doc.createdAt == rows[e].doc.createdAt && h.id < e)))
  {
    assert Sooner(h, rows[e]);
  }

  /** A channel with a pending event is left out only if the limit is reached by heads with
      smaller (created_at, _id) than its own. */
  lemma LeftOutIsLater(rows: map<Id, Row>, limit: nat, heads: seq<Row>, e: Id) returns (own: Id)
    requires Keyed(rows) && AreHeads(rows, limit, heads) && e in rows && rows[e].status.Pending?
    ensures own in rows && rows[own].doc.partitionKey == rows[e].doc.partitionKey && IsHead(rows, rows[own])
    ensures rows[own] in heads
            || (|heads| == limit
                && forall k :: 0 <= k < |heads| ==>
                     heads[k].doc.createdAt < rows[own].doc.createdAt
                     || (heads[k].doc.createdAt == rows[own].doc.createdAt && heads[k].id < own))
  {
    HeadExists(rows, e);
    own :| own in rows && rows[own].doc.partitionKey == rows[e].doc.partitionKey && IsHead(rows, rows[own]);
    assert rows[own].id == own;
    if rows[own] !in heads {
      forall k | 0 <= k < |heads|
        ensures heads[k].doc.createdAt < rows[own].doc.createdAt
                || (heads[k].doc.createdAt == rows[own].doc.createdAt && heads[k].id < own)
      {
        assert Older(heads[k], rows[own]);
      }
    }
  }

  /** The whole aggregation. */
  method PendingChannelHeads(rows: map<Id, Row>, limit: nat) returns (heads: seq<Row>)
    requires Keyed(rows)
    ensures AreHeads(rows, limit, heads)
    ensures forall i, j :: 0 <= i < j < |heads| ==>
              heads[i].doc.createdAt < heads[j].doc.createdAt
              || (heads[i].doc.createdAt == heads[j].doc.createdAt && heads[i].id < heads[j].id)
    ensures forall k, e | 0 <= k < |heads| && e in rows && e != heads[k].id && rows[e].status.Pending?
                          && rows[e].doc.partitionKey == heads[k].doc.partitionKey ::
              || heads[k].doc.event.version < rows[e].doc.event.version
              || (heads[k].doc.event.version == rows[e].doc.event.version
                  && (heads[k].doc.createdAt < rows[e].doc.createdAt
                      || (heads[k].doc.createdAt == rows[e].doc.createdAt && heads[k].id < e)))
  {
    var documents := Documents(rows);
    var matched := Match(documents);
    var sorted := Sort(ByPartition, matched);
    SameMembers(sorted, matched);
    var first := GroupFirst(sorted);
    GroupsAreHeads(rows, sorted, first);
    var roots := Documents(first);
    var ordered := Sort(ByAge, roots);
    SameMembers(ordered, roots);
    assert forall k :: 0 <= k < |ordered| ==> ordered[k] in roots;
    LimitGivesHeads(rows, ordered, limit);
    heads := if |ordered| <= limit then ordered else ordered[..limit];
    HeadsAscend(rows, limit, heads);
    forall k, e | 0 <= k < |heads| && e in rows && e != heads[k].id && rows[e].status.Pending?
                  && rows[e].doc.partitionKey == heads[k].doc.partitionKey
      ensures || heads[k].doc.event.version < rows[e].doc.event.version
              || (heads[k].doc.event.version == rows[e].doc.event.version
                  && (heads[k].doc.createdAt < rows[e].doc.createdAt
                      || (heads[k].doc.createdAt == rows[e].doc.createdAt && heads[k].id < e)))
    {
      HeadIsLeast(rows, heads[k], e);
    }
  }

  lemma SameMembers(a: seq<Row>, b: seq<Row>)
    requires multiset(a) == multiset(b)
    ensures forall r :: r in a <==> r in b
  {
    forall r ensures r in a <==> r in b {
      assert r in a <==> r in multiset(a);
      assert r in b <==> r in multiset(b);
    }
  }
}
