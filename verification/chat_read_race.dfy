/** Exactly when a first read may answer less than asked. */
module ChatReadRace {
  import opened Schema
  import opened ChatSystem
  import opened ChatInvariant
  import opened ChatReach
  import opened ChatTheoremsDocs

  /** A read of `user` stands at `pc`. */
  ghost predicate ReadAt(s: System, r: Id, c: Id, user: string, position: int, pc: Pc) {
    && r in s.requests && s.requests[r].alive
    && s.requests[r].call == Read(user, c, position) && s.requests[r].pc == pc
  }

  ghost predicate ReadableTo(s: System, c: Id, user: string, position: int) {
    Visible(s, c, user) && 0 <= position <= s.channels[c].lastMessageSeq
  }

  /** The channels stay as they are, and every request but `r` stands where it stood. */
  ghost predicate Undisturbed(s: System, t: System, r: Id) {
    && t.channels == s.channels && t.requests.Keys == s.requests.Keys + {r}
    && forall o | o in s.requests && o != r :: t.requests[o] == s.requests[o]
  }

  lemma StartRead(s: System, t: System, r: Id, c: Id, user: string, position: int) returns (u: System)
    requires Later(s, t) && r != 0 && r !in t.requests
    ensures Later(s, u) && ReadAt(u, r, c, user, position, GuardRead) && Undisturbed(t, u, r) && u.states == t.states
  {
    u := Next(t, Start(r, Read(user, c, position)));
    LaterNext(s, t, Start(r, Read(user, c, position)));
  }

  lemma PassGuard(s: System, t: System, r: Id, c: Id, user: string, position: int) returns (u: System)
    requires Later(s, t) && ReadAt(t, r, c, user, position, GuardRead) && ReadableTo(t, c, user, position)
    ensures Later(s, u) && ReadAt(u, r, c, user, position, UpsertMatch) && Undisturbed(t, u, r) && u.states == t.states
  {
    u := Next(t, Act(r, 0, 0));
    LaterNext(s, t, Act(r, 0, 0));
    assert u == Goto(t, r, UpsertMatch);
  }

  lemma MissMatch(s: System, t: System, r: Id, c: Id, user: string, position: int) returns (u: System)
    requires Later(s, t) && ReadAt(t, r, c, user, position, UpsertMatch) && (c, user) !in t.states
    ensures Later(s, u) && ReadAt(u, r, c, user, position, UpsertInsert) && Undisturbed(t, u, r) && u.states == t.states
  {
    u := Next(t, Act(r, 0, 0));
    LaterNext(s, t, Act(r, 0, 0));
    assert u == UpsertMatchStep(t, r);
  }

  /** A fresh read that passes its guard and finds no cursor in the match phase. */
  lemma ReachInsert(s: System, t: System, r: Id, c: Id, user: string, position: int) returns (u: System)
    requires Later(s, t) && r != 0 && r !in t.requests && ReadableTo(t, c, user, position) && (c, user) !in t.states
    ensures Later(s, u) && ReadAt(u, r, c, user, position, UpsertInsert) && Undisturbed(t, u, r) && u.states == t.states
  {
    var t1 := StartRead(s, t, r, c, user, position);
    var t2 := PassGuard(s, t1, r, c, user, position);
    u := MissMatch(s, t2, r, c, user, position);
  }

  /** The first insert phase writes the cursor. */
  lemma WinInsert(s: System, t: System, r: Id, c: Id, user: string, position: int) returns (u: System)
    requires Later(s, t) && ReadAt(t, r, c, user, position, UpsertInsert) && (c, user) !in t.states
    ensures Later(s, u) && ReadAt(u, r, c, user, position, FindState(true)) && Undisturbed(t, u, r)
    ensures (c, user) in u.states && u.states[(c, user)] == position
  {
    u := Next(t, Act(r, 0, 0));
    LaterNext(s, t, Act(r, 0, 0));
    assert u == WriteCursor(t, r, (c, user), position);
  }

  /** The second meets the duplicate key. */
  lemma MeetCursor(s: System, t: System, r: Id, c: Id, user: string, position: int) returns (u: System)
    requires Later(s, t) && ReadAt(t, r, c, user, position, UpsertInsert) && (c, user) in t.states
    ensures Later(s, u) && ReadAt(u, r, c, user, position, FindState(false)) && Undisturbed(t, u, r)
              && u.states == t.states
  {
    u := Next(t, Act(r, 0, 0));
    LaterNext(s, t, Act(r, 0, 0));
    assert u == UpsertInsertStep(t, r) == Goto(t, r, FindState(false));
  }

  /** A read that did not write the cursor answers what it finds. */
  lemma AnswerCursor(s: System, t: System, r: Id, c: Id, user: string, position: int) returns (u: System)
    requires Later(s, t) && ReadAt(t, r, c, user, position, FindState(false)) && (c, user) in t.states
    ensures Later(s, u) && ReadAt(u, r, c, user, position, Done(CursorAt(t.states[(c, user)]))) && Undisturbed(t, u, r)
  {
    u := Next(t, Act(r, 0, 0));
    LaterNext(s, t, Act(r, 0, 0));
    assert u == FindStateStep(t, r, false) == Goto(t, r, Done(CursorAt(t.states[(c, user)])));
  }

  /** It answers with the cursor it finds. */
  lemma LoseInsert(s: System, t: System, r: Id, c: Id, user: string, position: int) returns (u: System)
    requires Later(s, t) && ReadAt(t, r, c, user, position, UpsertInsert) && (c, user) in t.states
    ensures Later(s, u) && ReadAt(u, r, c, user, position, Done(CursorAt(t.states[(c, user)]))) && Undisturbed(t, u, r)
  {
    var t1 := MeetCursor(s, t, r, c, user, position);
    u := AnswerCursor(s, t1, r, c, user, position);
  }

  /** Only two reads have been added, of these positions. */
  ghost predicate TwoReads(s: System, t: System, c: Id, user: string, low: int, high: int) {
    && (forall o | o in s.requests :: o in t.requests && t.requests[o] == s.requests[o])
    && (forall o | o in t.requests && o !in s.requests :: t.requests[o].call in {Read(user, c, low), Read(user, c, high)})
  }

  lemma AddRead(s: System, t: System, u: System, r: Id, c: Id, user: string, low: int, high: int)
    requires TwoReads(s, t, c, user, low, high) && Undisturbed(t, u, r) && r !in s.requests
    requires u.requests[r].call in {Read(user, c, low), Read(user, c, high)}
    ensures TwoReads(s, u, c, user, low, high)
  {
  }

  /** Both reads stand before their insert phase. */
  lemma BothReachInsert(s: System, c: Id, user: string, low: int, high: int, p: Id, q: Id) returns (t: System)
    requires IsReachable(s) && Visible(s, c, user) && 0 <= low < high <= s.channels[c].lastMessageSeq
    requires (c, user) !in s.states
    requires p != 0 && q != 0 && p != q && p !in s.requests && q !in s.requests
    ensures Later(s, t) && TwoReads(s, t, c, user, low, high) && (c, user) !in t.states
    ensures ReadAt(t, p, c, user, high, UpsertInsert) && ReadAt(t, q, c, user, low, UpsertInsert)
  {
    LaterSelf(s);
    var u := ReachInsert(s, s, p, c, user, high);
    AddRead(s, s, u, p, c, user, low, high);
    t := ReachInsert(s, u, q, c, user, low);
    AddRead(s, u, t, q, c, user, low, high);
  }

  /** As long as a participant has no cursor, two of the first reads can race so that the one
      that asks for position `high` answers with the smaller position `low`. */
  lemma ReadMayFallShort(s: System, c: Id, user: string, low: int, high: int, p: Id, q: Id)
    requires IsReachable(s) && Visible(s, c, user) && 0 <= low < high <= s.channels[c].lastMessageSeq
    requires (c, user) !in s.states
    requires p != 0 && q != 0 && p != q && p !in s.requests && q !in s.requests
    ensures exists t :: Later(s, t) && TwoReads(s, t, c, user, low, high)
              && ReadAt(t, p, c, user, high, Done(CursorAt(low)))
  {
    var t := BothReachInsert(s, c, user, low, high, p, q);
    var u := WinInsert(s, t, q, c, user, low);
    AddRead(s, t, u, q, c, user, low, high);
    var v := LoseInsert(s, u, p, c, user, high);
    AddRead(s, u, v, p, c, user, low, high);
  }

  // ---------- exactly when ----------

  /** All reads so far have asked for `least` at least: 0 is what the service admits, 1 what
      the API does. */
  ghost predicate AskFrom(s: System, least: int) {
    forall r | r in s.requests && s.requests[r].call.Read? :: s.requests[r].call.position >= least
  }

  /** As long as reads ask for `least` at least, no read of `position` that starts from here on
      ever answers less. */
  ghost predicate NeverShort(s: System, c: Id, user: string, position: int, least: int) {
    forall t, r | Later(s, t) && AskFrom(t, least) && r !in s.requests && r in t.requests
                  && t.requests[r].call == Read(user, c, position) && t.requests[r].pc.Done?
                    && t.requests[r].pc.outcome.CursorAt? ::
      position <= t.requests[r].pc.outcome.lastRead
  }

  lemma {:induction false} Above(ids: set<Id>) returns (top: Id)
    ensures forall i | i in ids :: i < top
    ensures top > 0
    decreases |ids|
  {
    if ids == {} {
      top := 1;
    } else {
      var i :| i in ids;
      var rest := Above(ids - {i});
      top := if i < rest then rest else i + 1;
      assert forall j | j in ids :: j == i || j in ids - {i};
    }
  }

  lemma SomeReadFallsShort(s: System, c: Id, user: string, position: int, least: int)
    requires IsReachable(s) && Visible(s, c, user) && AskFrom(s, least)
             && 0 <= least < position <= s.channels[c].lastMessageSeq
    requires (c, user) !in s.states
    ensures !NeverShort(s, c, user, position, least)
  {
    var p := Above(s.requests.Keys);
    ReadMayFallShort(s, c, user, position - 1, position, p, p + 1);
    var t :| Later(s, t) && TwoReads(s, t, c, user, position - 1, position)
             && ReadAt(t, p, c, user, position, Done(CursorAt(position - 1)));
    assert AskFrom(t, least);
    assert t.requests[p].pc.outcome.lastRead < position;
  }

  /** Every answer is at least what some read has asked for. */
  lemma AnswersAsked(t: System, r: Id, least: int)
    requires IsReachable(t) && AskFrom(t, least) && r in t.requests && t.requests[r].call.Read?
    requires t.requests[r].pc.Done? && t.requests[r].pc.outcome.CursorAt?
    ensures least <= t.requests[r].pc.outcome.lastRead
  {
    ReachableFits(t);
    assert RequestFits(t, r);
    var key := CursorKey(t.requests[r].call);
    assert CursorFits(t, key);
    var h := History(t.advances, key);
    assert AdvanceFits(t, key, h[0]);
  }

  /** The service keeps its word to a participant who reads exactly when the participant's
      cursor exists or nobody can ask for less: before that, another first read can always make
      it break it. */
  lemma ReadHoldsExactly(s: System, c: Id, user: string, position: int, least: int)
    requires IsReachable(s) && Visible(s, c, user) && AskFrom(s, least)
             && 0 <= least <= position <= s.channels[c].lastMessageSeq
    ensures NeverShort(s, c, user, position, least) <==> (c, user) in s.states || position == least
  {
    if (c, user) in s.states || position == least {
      forall t, r | Later(s, t) && AskFrom(t, least) && r !in s.requests && r in t.requests
                    && t.requests[r].call == Read(user, c, position) && t.requests[r].pc.Done?
                      && t.requests[r].pc.outcome.CursorAt?
        ensures position <= t.requests[r].pc.outcome.lastRead
      {
        if position == least {
          LaterReaches(s, t);
          AnswersAsked(t, r, least);
        } else {
          ReadReachesRequest(s, t, r);
        }
      }
    } else {
      SomeReadFallsShort(s, c, user, position, least);
    }
  }
}
