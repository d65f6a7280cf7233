/** Reading a channel page by page while others write. */
module Paging {
  import opened Schema
  import opened ChatSystem
  import opened ChatInvariant
  import opened ChatStability
  import opened ChatReach
  import opened ChatTheorems
  import opened ChatTheoremsDocs
  import opened ChatAnswers
  import opened Mongo
  import opened ChannelService

  /** The filter of a page: 0 stands for the top. */
  predicate Wanted(m: Message, c: Id, before: int) {
    m.channelId == c && (before > 0 ==> m.sequence < before)
  }

  predicate Descending(page: seq<Message>) {
    forall i, j :: 0 <= i < j < |page| ==> page[i].sequence > page[j].sequence
  }

  /** The first `limit` wanted messages by descending sequence. */
  ghost predicate IsPage(s: System, c: Id, limit: int, before: int, page: seq<Message>) {
    && |page| <= limit && Descending(page)
    && (forall k :: 0 <= k < |page| ==>
      page[k].id in s.messages && s.messages[page[k].id] == page[k] && Wanted(page[k], c, before))
    && (forall m | m in s.messages && Wanted(s.messages[m], c, before) && s.messages[m] !in page ::
          |page| == limit && forall k :: 0 <= k < |page| ==> s.messages[m].sequence < page[k].sequence)
  }

  /** The message of the channel with the largest sequence that is wanted; 0 for none. */
  method SearchBelow(db: Database, c: Id, before: int, taken: seq<Message>) returns (doc: Id)
    requires db.Valid()
    ensures doc == 0 ==> forall m | m in db.messages && Wanted(db.messages[m], c, before) :: db.messages[m] in taken
    ensures doc != 0 ==> doc in db.messages && Wanted(db.messages[doc], c, before) && db.messages[doc] !in taken
    ensures doc != 0 ==> forall m | m in db.messages && Wanted(db.messages[m], c, before) && db.messages[m] !in taken ::
              db.messages[m].sequence <= db.messages[doc].sequence
  {
    Database.NoZeroDocument(db.View());
    doc := 0;
    var rest := db.messages.Keys;
    while rest != {}
      invariant rest <= db.messages.Keys
      invariant doc != 0 ==> doc in db.messages && Wanted(db.messages[doc], c, before) && db.messages[doc] !in taken
      invariant forall m | m in db.messages.Keys - rest && Wanted(db.messages[m], c, before)
                && db.messages[m] !in taken ::
                  doc != 0 && db.messages[m].sequence <= db.messages[doc].sequence
      decreases |rest|
    {
      var m :| m in rest;
      if Wanted(db.messages[m], c, before) && db.messages[m] !in taken
         && (doc == 0 || db.messages[m].sequence > db.messages[doc].sequence) {
        doc := m;
      }
      rest := rest - {m};
    }
  }

  /** Two messages of one channel with one sequence are the same. */
  lemma SequenceDetermines(s: System, m: Id, n: Id)
    requires IsReachable(s) && m in s.messages && n in s.messages && s.messages[m].channelId == s.messages[n].channelId
    requires s.messages[m].sequence == s.messages[n].sequence
    ensures m == n
  {
    ReachableFits(s);
  }

  /** Everything wanted that is not taken comes after everything taken. */
  ghost predicate Leading(s: System, c: Id, before: int, page: seq<Message>) {
    && Descending(page)
    && (forall k :: 0 <= k < |page| ==>
      page[k].id in s.messages && s.messages[page[k].id] == page[k] && Wanted(page[k], c, before))
    && (forall m, k | m in s.messages && Wanted(s.messages[m], c, before) && s.messages[m] !in page && 0 <= k < |page| ::
          s.messages[m].sequence < page[k].sequence)
  }

  lemma Outside(s: System, page: seq<Message>, doc: Id, m: Id)
    requires doc in s.messages && m in s.messages && s.messages[m] !in page + [s.messages[doc]]
    ensures s.messages[m] !in page && m != doc
  {
    var next := page + [s.messages[doc]];
    assert s.messages[doc] == next[|page|];
    assert forall x :: x in page ==> x in next;
  }

  lemma Extend(s: System, c: Id, before: int, page: seq<Message>, doc: Id)
    requires IsReachable(s) && Leading(s, c, before, page)
    requires doc in s.messages && Wanted(s.messages[doc], c, before) && s.messages[doc] !in page
    requires forall m | m in s.messages && Wanted(s.messages[m], c, before) && s.messages[m] !in page ::
               s.messages[m].sequence <= s.messages[doc].sequence
    ensures Leading(s, c, before, page + [s.messages[doc]])
  {
    var next := page + [s.messages[doc]];
    StoredId(s, doc);
    forall m, k | m in s.messages && Wanted(s.messages[m], c, before) && s.messages[m] !in next && 0 <= k < |next|
      ensures s.messages[m].sequence < next[k].sequence
    {
      Outside(s, page, doc, m);
      if k == |page| && s.messages[m].sequence == s.messages[doc].sequence { SequenceDetermines(s, m, doc); }
    }
  }

  /** messages.Find in the channel, sorted by descending sequence, limited. */
  method FindPage(db: Database, c: Id, limit: int, before: int) returns (page: seq<Message>)
    requires db.Valid() && limit >= 1
    ensures IsPage(db.View(), c, limit, before, page)
  {
    page := [];
    while |page| < limit
      invariant |page| <= limit && Leading(db.View(), c, before, page)
      decreases limit - |page|
    {
      var doc := SearchBelow(db, c, before, page);
      if doc == 0 { return; }
      Extend(db.View(), c, before, page, doc);
      page := page + [db.messages[doc]];
    }
  }

  /** A page of a channel the user may see. Others act between the check and the query. */
  method List(db: Database, user: string, c: Id, limit: int, before: int)
    returns (page: seq<Message>, error: Option<Error>)
    requires db.Valid()
    modifies db
    ensures db.Valid() && Later(old(db.View()), db.View())
    ensures error == Some(Invalid) <==> limit < 1 || limit > 100 || before < 0
    ensures error == Some(NotFound) <==> 1 <= limit <= 100 && 0 <= before && !Visible(old(db.View()), c, user)
    ensures error.None? ==> IsPage(db.View(), c, limit, before, page)
    ensures error.Some? ==> error.value in {Invalid, NotFound} && page == [] && db.View() == old(db.View())
  {
    LaterSelf(db.View());
    if limit < 1 || limit > 100 || before < 0 { return [], Some(Invalid); }
    var found := if c in db.channels then Some(db.channels[c]) else None;
    if !Admits(found, user) { return [], Some(NotFound); }
    db.Elapse();
    page := FindPage(db, c, limit, before);
    error := None;
  }

  // ---------- oldest first ----------

  function Reversed<T>(s: seq<T>): (r: seq<T>)
    ensures |r| == |s|
  {
    if s == [] then [] else Reversed(s[1..]) + [s[0]]
  }

  lemma {:induction false} ReversedAt<T>(s: seq<T>, k: nat)
    requires k < |s|
    ensures Reversed(s)[k] == s[|s| - 1 - k]
  {
    if k < |s| - 1 { ReversedAt(s[1..], k); }
  }

  predicate Ascending(page: seq<Message>) {
    forall i, j :: 0 <= i < j < |page| ==> page[i].sequence < page[j].sequence
  }

  lemma ReversedAscends(page: seq<Message>)
    requires Descending(page)
    ensures Ascending(Reversed(page))
  {
    var r := Reversed(page);
    forall i, j | 0 <= i < j < |r| ensures r[i].sequence < r[j].sequence {
      ReversedAt(page, i);
      ReversedAt(page, j);
    }
  }

  /** The two-index swap. */
  method ReverseInPlace<T>(a: array<T>)
    modifies a
    ensures a[..] == Reversed(old(a[..]))
  {
    var left, right := 0, a.Length - 1;
    while left < right
      invariant 0 <= left && right == a.Length - 1 - left && left <= right + 2
      invariant forall k :: 0 <= k < left ==> a[k] == old(a[a.Length - 1 - k]) && a[a.Length - 1 - k] == old(a[k])
      invariant forall k :: left <= k <= right ==> a[k] == old(a[k])
      decreases right - left
    {
      a[left], a[right] := a[right], a[left];
      left, right := left + 1, right - 1;
    }
    ghost var was := old(a[..]);
    forall k | 0 <= k < a.Length ensures a[k] == Reversed(was)[k] {
      ReversedAt(was, k);
    }
  }

  /** The page an AI sees: the same messages as `List` gives, oldest first. */
  method ListForAI(db: Database, photographer: string, c: Id, limit: int, before: int)
    returns (messages: array<Message>, error: Option<Error>, ghost page: seq<Message>)
    requires db.Valid()
    modifies db
    ensures fresh(messages) && db.Valid() && Later(old(db.View()), db.View())
    ensures error == Some(Invalid) <==> limit < 1 || limit > 30 || before < 0
    ensures error == Some(NotFound) <==> 1 <= limit <= 30 && 0 <= before && !Visible(old(db.View()), c, photographer)
    ensures error.Some? ==> error.value in {Invalid, NotFound} && messages.Length == 0 && db.View() == old(db.View())
    ensures error.None? ==> && IsPage(db.View(), c, limit, before, page)
                            && messages[..] == Reversed(page) && Ascending(messages[..])
  {
    LaterSelf(db.View());
    page := [];
    if limit < 1 || limit > 30 || before < 0 {
      messages := new Message[0];
      return messages, Some(Invalid), page;
    }
    var found := if c in db.channels then Some(db.channels[c]) else None;
    if !Admits(found, photographer) {
      messages := new Message[0];
      return messages, Some(NotFound), page;
    }
    db.Elapse();
    var rows := FindPage(db, c, limit, before);
    page := rows;
    messages := new Message[|rows|](i requires 0 <= i < |rows| => rows[i]);
    assert messages[..] == rows;
    ReverseInPlace(messages);
    ReversedAscends(rows);
    error := None;
  }

  // ---------- walking the history ----------

  function Least(a: int, b: int): int {
    if a < b then a else b
  }

  /** The sequence a page starts at, in a channel with the sequences 1 to `n`. */
  function Top(n: nat, before: int): int {
    if before > 0 then Least(before - 1, n) else n
  }

  /** A page of an active channel is the stretch of the insert history below `before`, newest
      first and without gaps. */
  ghost predicate IsStretch(s: System, c: Id, top: int, page: seq<Message>) {
    && 0 <= top <= |History(s.born, c)| && |page| <= top
    && (forall k :: 0 <= k < |page| ==>
          page[k].sequence == top - k && page[k].id == History(s.born, c)[top - 1 - k])
  }

  lemma Gapless(s: System, c: Id)
    requires IsReachable(s) && Active(s, c)
    ensures c in s.born && History(s.born, c) == s.born[c]
    ensures forall k :: 0 <= k < |s.born[c]| ==>
              s.born[c][k] in s.messages && s.messages[s.born[c][k]].channelId == c
                && s.messages[s.born[c][k]].sequence == k + 1
    ensures forall m | m in s.messages && s.messages[m].channelId == c ::
              1 <= s.messages[m].sequence <= |s.born[c]| && s.born[c][s.messages[m].sequence - 1] == m
  {
    ReachableFits(s);
    ActiveChannel(s, c);
    assert forall m | m in s.messages && s.messages[m].channelId == c :: m in InChannel(s, c);
  }

  lemma PageIsStretch(s: System, c: Id, limit: int, before: int, page: seq<Message>)
    requires IsReachable(s) && Active(s, c) && before >= 0 && limit >= 1
    requires IsPage(s, c, limit, before, page)
    ensures var top := Top(|History(s.born, c)|, before);
            IsStretch(s, c, top, page) && |page| == Least(limit, top)
  {
    Gapless(s, c);
    var h := s.born[c];
    var top := Top(|h|, before);
    forall k | 0 <= k < |page| ensures 1 <= page[k].sequence <= top && page[k].id == h[page[k].sequence - 1] {
      assert s.messages[page[k].id] == page[k];
    }
    Slots(s, c, limit, before, page, |page|);
    assert |page| > 0 ==> page[|page| - 1].sequence == top - |page| + 1;
    if |page| < top {
      var m := h[top - 1 - |page|];
      assert Wanted(s.messages[m], c, before) && s.messages[m].sequence == top - |page|;
      assert forall j :: 0 <= j < |page| ==> page[j].sequence > top - |page|;
      assert s.messages[m] !in page;
    }
  }

  lemma TakenOrAfter(s: System, c: Id, limit: int, before: int, page: seq<Message>, m: Id, k: nat)
    requires IsPage(s, c, limit, before, page) && m in s.messages && Wanted(s.messages[m], c, before) && k < |page|
    ensures s.messages[m] in page || s.messages[m].sequence < page[k].sequence
  {
  }

  /** The first `n` places of a page hold the sequences from the top down. */
  lemma {:induction false} Slots(s: System, c: Id, limit: int, before: int, page: seq<Message>, n: nat)
    requires IsReachable(s) && Active(s, c) && IsPage(s, c, limit, before, page) && n <= |page| && before >= 0
    requires c in s.born && forall k :: 0 <= k < |s.born[c]| ==>
               s.born[c][k] in s.messages && s.messages[s.born[c][k]].channelId == c
                 && s.messages[s.born[c][k]].sequence == k + 1
    requires forall k :: 0 <= k < |page| ==> 1 <= page[k].sequence <= Top(|s.born[c]|, before)
    ensures forall k :: 0 <= k < n ==> page[k].sequence == Top(|s.born[c]|, before) - k
    decreases n
  {
    if n > 0 {
      Slots(s, c, limit, before, page, n - 1);
      var top := Top(|s.born[c]|, before);
      if top >= n {
        var m := s.born[c][top - n];
        assert Wanted(s.messages[m], c, before) && s.messages[m].sequence == top - (n - 1);
        TakenOrAfter(s, c, limit, before, page, m, n - 1);
        assert forall j :: 0 <= j < |page| && page[j].sequence == top - (n - 1) ==> j >= n - 1;
      }
      assert n >= 2 ==> page[n - 2].sequence > page[n - 1].sequence;
    }
  }

  /** The messages the channel had at `s`, from sequence `top` down, `page` of them. */
  ghost predicate Continues(s: System, c: Id, taken: nat, page: seq<Message>) {
    var h := History(s.born, c);
    taken + |page| <= |h|
    && forall k :: 0 <= k < |page| ==>
         page[k].sequence == |h| - taken - k && page[k].id == h[|h| - taken - k - 1]
  }

  lemma BornGrew(s: System, t: System, c: Id)
    requires Later(s, t)
    ensures History(s.born, c) <= History(t.born, c) && IsReachable(t)
  {
    LaterFits(s, t);
  }

  /** The next page goes on where the last one stopped, whatever was written meanwhile. */
  lemma NextPage(s: System, t: System, c: Id, limit: int, before: int, taken: nat, page: seq<Message>)
    requires Later(s, t) && Active(t, c) && limit >= 1 && IsPage(t, c, limit, before, page)
    requires taken <= |History(s.born, c)|
    requires if taken == 0 then before == 0 && t == s else before == |History(s.born, c)| - taken + 1
    ensures Continues(s, c, taken, page) && |page| == Least(limit, |History(s.born, c)| - taken)
  {
    BornGrew(s, t, c);
    PageIsStretch(t, c, limit, before, page);
  }

  lemma Appended(s: System, c: Id, seen: seq<Message>, page: seq<Message>)
    requires Continues(s, c, 0, seen) && Continues(s, c, |seen|, page)
    ensures Continues(s, c, 0, seen + page)
  {
  }

  /** What `pages` full pages hold. */
  ghost function Capacity(pages: nat, limit: nat): (n: nat)
  {
    if pages == 0 then 0 else Capacity(pages - 1, limit) + limit
  }

  lemma {:induction false} CapacityIs(pages: nat, limit: nat)
    ensures Capacity(pages, limit) == pages * limit
  {
    if pages > 0 {
      CapacityIs(pages - 1, limit);
      assert pages * limit == (pages - 1) * limit + limit;
    }
  }

  /** The number of pages is the number of full pages that `n` messages need, and one more. */
  lemma PagesNeeded(pages: nat, limit: nat, n: nat)
    requires pages >= 1 && limit >= 1 && n <= Capacity(pages - 1, limit)
    requires pages >= 2 ==> Capacity(pages - 2, limit) < n
    ensures (pages >= 2 ==> (pages - 2) * limit < n) && n <= (pages - 1) * limit
  {
    CapacityIs(pages - 1, limit);
    if pages >= 2 { CapacityIs(pages - 2, limit); }
  }

  lemma ActiveBefore(s: System, t: System, c: Id)
    requires Later(s, t) && c in s.channels
    ensures c in t.channels && (Active(t, c) ==> Active(s, c))
  {
    LaterFits(s, t);
    assert ChannelEvolves(s.channels[c], t.channels[c]);
  }

  /** One page of a walk that has seen `taken` messages of those stored at `s`, when its first
      page was read; `first` is that moment, now if this is the first page. */
  method ListOn(db: Database, user: string, c: Id, limit: int, before: int, ghost s: System, ghost taken: nat)
    returns (page: seq<Message>, error: Option<Error>, ghost first: System)
    requires db.Valid() && 1 <= limit <= 100
    requires if taken == 0 then before == 0 else Later(s, db.View())
    requires taken > 0 && Active(db.View(), c) ==> taken <= |History(s.born, c)| == before + taken - 1
    modifies db
    ensures db.Valid() && Later(old(db.View()), db.View()) && Later(first, db.View())
    ensures first == if taken > 0 then s else db.View()
    ensures error.None? ==> Visible(old(db.View()), c, user) && c in db.channels && |page| <= limit
    ensures error.None? && Active(db.View(), c) ==>
              && taken <= |History(first.born, c)| && Continues(first, c, taken, page)
              && |page| == Least(limit, |History(first.born, c)| - taken)
    ensures error.Some? ==> page == [] && db.View() == old(db.View()) && !Visible(db.View(), c, user)
  {
    ghost var u := db.View();
    page, error := List(db, user, c, limit, before);
    LaterFits(u, db.View());
    LaterSelf(db.View());
    if c in u.channels { ActiveBefore(u, db.View(), c); }
    first := if taken > 0 then s else db.View();
    if taken > 0 { LaterTransitive(s, u, db.View()); }
    if error.None? && Active(db.View(), c) { NextPage(first, db.View(), c, limit, before, taken, page); }
  }

  /** After `pages` pages of an active channel, none of them empty. */
  ghost predicate Underway(first: System, c: Id, limit: nat, seen: seq<Message>, pages: nat) {
    var n := |History(first.born, c)|;
    && pages >= 1 && Continues(first, c, 0, seen) && |seen| == Least(Capacity(pages, limit), n)
    && Capacity(pages - 1, limit) < n
  }

  lemma OnePageOn(first: System, c: Id, limit: nat, seen: seq<Message>, pages: nat, page: seq<Message>)
    requires if pages == 0 then seen == [] else Underway(first, c, limit, seen, pages)
    requires Continues(first, c, |seen|, page) && |page| == Least(limit, |History(first.born, c)| - |seen|) && page != []
    ensures Underway(first, c, limit, seen + page, pages + 1)
  {
    Appended(first, c, seen, page);
  }

  /** An empty page ends the walk. */
  lemma NothingLeft(first: System, c: Id, limit: nat, seen: seq<Message>, pages: nat)
    requires limit >= 1 && if pages == 0 then seen == [] else Underway(first, c, limit, seen, pages)
    requires Least(limit, |History(first.born, c)| - |seen|) == 0 && |seen| <= |History(first.born, c)|
    ensures |seen| == |History(first.born, c)|
    ensures (pages >= 1 ==> (pages - 1) * limit < |seen|) && |seen| <= pages * limit
  {
    PagesNeeded(pages + 1, limit, |seen|);
  }

  /** The next page of a walk, and what it means for the pages so far. */
  method TurnPage(db: Database, user: string, c: Id, limit: int, ghost s: System, seen: seq<Message>, ghost pages: nat)
    returns (page: seq<Message>, error: Option<Error>, ghost first: System)
    requires db.Valid() && 1 <= limit <= 100 && (seen == [] <==> pages == 0)
    requires pages > 0 ==> Later(s, db.View())
    requires pages > 0 && Active(db.View(), c) ==> Underway(s, c, limit, seen, pages)
    modifies db
    ensures db.Valid() && Later(old(db.View()), db.View()) && Later(first, db.View())
    ensures first == if pages > 0 then s else db.View()
    ensures if error.Some? then db.View() == old(db.View()) && !Visible(db.View(), c, user)
            else Active(old(db.View()), c) && c in db.channels && |page| <= limit
    ensures error.None? && Active(db.View(), c) ==>
              if page != [] then Underway(first, c, limit, seen + page, pages + 1)
              else && |seen| == |History(first.born, c)|
                   && (pages >= 1 ==> (pages - 1) * limit < |seen|) && |seen| <= pages * limit
  {
    ghost var u := db.View();
    var before := if seen == [] then 0 else seen[|seen| - 1].sequence;
    page, error, first := ListOn(db, user, c, limit, before, s, |seen|);
    if error.None? {
      ActiveBefore(u, db.View(), c);
      if Active(db.View(), c) {
        if page == [] { NothingLeft(first, c, limit, seen, pages); }
        else { OnePageOn(first, c, limit, seen, pages, page); }
      }
    }
  }

  /** A client walks the history from the top, each page below the last sequence it saw, until
      a page is empty. As long as the channel stays active it sees every message the channel had
      when the first page was read (at `first`) exactly once, newest first, and nothing else; and
      it needs one page more than would hold them. Whatever happens, that is true of the `sure`
      messages before its last page. */
  method Walk(db: Database, user: string, c: Id, limit: int)
    returns (seen: seq<Message>, pages: nat, complete: bool, ghost first: System, ghost sure: nat)
    requires db.Valid() && 1 <= limit <= 100
    modifies db
    ensures db.Valid() && Later(old(db.View()), first) && Later(first, db.View())
    ensures sure <= |seen| <= sure + limit && Continues(first, c, 0, seen[..sure])
    ensures Active(db.View(), c) ==> sure == |seen|
    ensures complete && Active(db.View(), c) ==> |seen| == |History(first.born, c)|
    ensures complete && Active(db.View(), c) ==>
              pages >= 1 && (pages >= 2 ==> (pages - 2) * limit < |seen|) && |seen| <= (pages - 1) * limit
    ensures !complete ==> !Visible(db.View(), c, user)
  {
    ghost var s0 := db.View();
    LaterSelf(s0);
    first, sure := s0, 0;
    seen, pages, complete := [], 0, false;
    while true
      invariant db.Valid() && Later(s0, db.View()) && Later(s0, first) && Later(first, db.View())
      invariant sure <= |seen| <= sure + limit && Continues(first, c, 0, seen[..sure])
      invariant seen == [] <==> pages == 0
      invariant pages > 0 && Active(db.View(), c) ==> Underway(first, c, limit, seen, pages)
      decreases pages == 0, |History(first.born, c)| - |seen|
    {
      ghost var s1 := db.View();
      var page, error;
      page, error, first := TurnPage(db, user, c, limit, first, seen, pages);
      LaterTransitive(s0, s1, db.View());
      if Active(s1, c) { sure := |seen|; }
      if error.Some? { return; }
      if page == [] { return seen, pages + 1, true, first, sure; }
      seen, pages := seen + page, pages + 1;
      s1 := db.View();
      db.Elapse();
      LaterTransitive(s0, s1, db.View());
      LaterTransitive(first, s1, db.View());
      ActiveBefore(s1, db.View(), c);
    }
  }
}
