// Every step of the expert protocol keeps its invariant.
module ExpertReviewsProofs {
  import opened Prelude
  import opened ExpertReviews

  // ---------------------------------------------------------------- records that only change children's verdicts

  // Same calls, same children, same experts.
  ghost predicate SameGuests(r: Records, q: Records) {
    && r.Keys == q.Keys
    && (forall c | c in r :: r[c].parentTurn == q[c].parentTurn && |r[c].children| == |q[c].children|)
    && forall c, i | Has(q, c, i) ::
      Has(r, c, i) && Kid(q, c, i).id == Kid(r, c, i).id && Kid(q, c, i).expert == Kid(r, c, i).expert
  }

  lemma SameGuestsKeep(r: Records, q: Records, g: Grant, parentTurn: Option<Turn>, seen: set<CallId>)
    requires SameGuests(r, q)
    requires ExpertsApart(r) && ChildrenGranted(r, g) && RecordsShaped(r, parentTurn, seen)
    ensures ExpertsApart(q) && ChildrenGranted(q, g) && RecordsShaped(q, parentTurn, seen)
  {
    forall c, i, d, j | Has(q, c, i) && Has(q, d, j) && Kid(q, c, i).expert == Kid(q, d, j).expert
      ensures c == d && i == j
    {
      assert Has(r, c, i) && Has(r, d, j);
    }
    forall c, i | Has(q, c, i)
      ensures (q[c].parentTurn, Kid(q, c, i).expert) in g
      ensures g[(q[c].parentTurn, Kid(q, c, i).expert)] == Kid(q, c, i).id
    {
      assert Has(r, c, i);
    }
  }

  // Two children with one id are one child.
  lemma IdsApart(s: State, c: CallId, i: int, d: CallId, j: int)
    requires Inv(s) && Has(s.records, c, i) && Has(s.records, d, j)
    requires Kid(s.records, c, i).id == Kid(s.records, d, j).id
    ensures c == d && i == j
  {
    assert (s.records[c].parentTurn, Kid(s.records, c, i).expert) in s.granted;
    assert (s.records[d].parentTurn, Kid(s.records, d, j).expert) in s.granted;
  }

  // ---------------------------------------------------------------- turns

  lemma NewTurnKeeps(s: State, turn: Turn)
    requires Inv(s) && turn !in s.turns
    ensures Inv(NewTurn(s, turn))
  {
    assert GrantedIn(s.granted, turn) == {};
  }

  lemma EndTurnKeeps(s: State)
    requires Inv(s)
    ensures Inv(EndTurn(s))
  {
  }

  lemma BeginKeeps(s: State)
    requires Inv(s) && Enabled(s, DoBegin)
    ensures Inv(Begin(s))
  {
  }

  // ---------------------------------------------------------------- the life of one call

  lemma LaunchedJobs(s: State, call: CallId, t: State)
    requires MayLaunch(s, call) && t == Launch(s, call)
    requires QueuedWait(s.records, s.live, s.tasks) && AskingStarted(s.records, s.live, s.tasks)
    requires EndedDecided(s.records, s.live, s.tasks, s.parent)
    ensures QueuedWait(t.records, t.live, t.tasks) && AskingStarted(t.records, t.live, t.tasks)
    ensures EndedDecided(t.records, t.live, t.tasks, t.parent)
  {
  }

  lemma LaunchedLive(s: State, call: CallId, t: State)
    requires MayLaunch(s, call) && t == Launch(s, call)
    requires LiveShaped(s.records, s.live, s.progress) && JudgedDecided(s.records, s.live, s.progress)
    requires VerdictsFinal(s.records, s.live, s.told)
    ensures LiveShaped(t.records, t.live, t.progress) && JudgedDecided(t.records, t.live, t.progress)
    ensures VerdictsFinal(t.records, t.live, t.told)
  {
  }

  lemma LaunchKeeps(s: State, call: CallId)
    requires MayLaunch(s, call) && Inv(s)
    ensures Inv(Launch(s, call))
  {
    LaunchedJobs(s, call, Launch(s, call));
    LaunchedLive(s, call, Launch(s, call));
  }

  // Children of live calls get verdicts; nobody has been told about them yet.
  ghost predicate OnlyLiveChange(s: State, q: Records) {
    && SameGuests(s.records, q)
    && forall c, i | Has(q, c, i) :: LiveChange(s, c, i, Kid(s.records, c, i), Kid(q, c, i))
  }

  ghost predicate LiveChange(s: State, c: CallId, i: int, was: Child, now: Child) {
    || now == was
    || (&& c in s.live
        && ChildHonest(now)
        && !now.state.Waiting?
        && (was.state.Terminal() ==> now.state.Terminal())
        && (i >= 0 && (c, i) in s.tasks ==> s.tasks[(c, i)] != Queued(false)))
  }

  lemma ChangeKeeps(s: State, q: Records)
    requires Inv(s) && OnlyLiveChange(s, q)
    ensures Inv(s.(records := q))
  {
    SameGuestsKeep(s.records, q, s.granted, s.parentTurn, s.seen);
    forall c, i | Has(q, c, i)
      ensures Has(s.records, c, i) && LiveChange(s, c, i, Kid(s.records, c, i), Kid(q, c, i))
    {
    }
    assert VerdictsFinal(q, s.live, s.told);
    assert QueuedWait(q, s.live, s.tasks);
    assert WaitingUnasked(q, s.asked);
  }

  lemma PutChildChanges(s: State, call: CallId, i: nat, child: Child)
    requires Inv(s) && Has(s.records, call, i)
    requires child.id == Kid(s.records, call, i).id && child.expert == Kid(s.records, call, i).expert
    requires LiveChange(s, call, i, Kid(s.records, call, i), child)
    ensures Inv(PutChild(s, call, i, child))
    ensures forall c, j | Has(PutChild(s, call, i, child).records, c, j) :: Has(s.records, c, j)
    ensures forall c, j | Has(s.records, c, j) ::
      && Has(PutChild(s, call, i, child).records, c, j)
      && Kid(PutChild(s, call, i, child).records, c, j) == if c == call && i == j then child else Kid(s.records, c, j)
  {
    var q := PutChild(s, call, i, child).records;
    forall c, j | Has(q, c, j)
      ensures Has(s.records, c, j)
      ensures Kid(q, c, j) == if c == call && i == j then child else Kid(s.records, c, j)
    {
    }
    ChangeKeeps(s, q);
  }

  // A task that ends for good, whatever it leaves behind.
  lemma EndTaskKeeps(s: State, call: CallId, i: nat, broken: bool)
    requires Inv(s)
    requires broken || (call in s.live && Has(s.records, call, i) ==>
      Kid(s.records, call, i).state.Terminal() || s.parent != Some(s.records[call].parentTurn))
    ensures Inv(s.(tasks := s.tasks[(call, i) := Ended(broken)]))
  {
  }

  lemma FinishWorkKeeps(s: State, call: CallId, i: nat, answer: Option<Report>, saved: bool)
    requires Inv(s) && Enabled(s, DoFinishWork(call, i, answer, saved))
    ensures Inv(FinishWork(s, call, i, answer, saved))
  {
    if WorkCounts(s, call, i) {
      var child := Answered(Kid(s.records, call, i), answer);
      PutChildChanges(s, call, i, child);
      EndTaskKeeps(PutChild(s, call, i, child), call, i, !saved);
    } else {
      EndTaskKeeps(s, call, i, false);
    }
  }

  lemma DropWorkKeeps(s: State, call: CallId, i: nat)
    requires Inv(s) && Enabled(s, DoDropWork(call, i))
    ensures Inv(DropWork(s, call, i))
  {
  }

  lemma JudgedChanges(s: State, call: CallId, sourceSame: bool, t: State)
    requires MayJudge(s, call) && t == Judge(s, call, sourceSame)
    requires EndedDecided(s.records, s.live, s.tasks, s.parent) && ResultsHonest(s.records)
    ensures OnlyLiveChange(s, t.records)
    ensures forall i | Has(t.records, call, i) :: Kid(t.records, call, i).state.Terminal()
  {
    forall c, i | Has(t.records, c, i)
      ensures Has(s.records, c, i) && LiveChange(s, c, i, Kid(s.records, c, i), Kid(t.records, c, i))
      ensures c == call ==> Kid(t.records, c, i).state.Terminal()
    {
      assert Kid(s.records, c, i) == s.records[c].children[i];
      if c == call {
        assert i >= 0 && (call, i) in s.tasks && s.tasks[(call, i)] == Ended(false);
      }
    }
  }

  lemma JudgeKeeps(s: State, call: CallId, sourceSame: bool)
    requires MayJudge(s, call) && Inv(s)
    ensures Inv(Judge(s, call, sourceSame))
    ensures forall i | Has(Judge(s, call, sourceSame).records, call, i) ::
      Kid(Judge(s, call, sourceSame).records, call, i).state.Terminal()
  {
    var t := Judge(s, call, sourceSame);
    JudgedChanges(s, call, sourceSame, t);
    ChangeKeeps(s, t.records);
  }

  lemma AnnounceKeeps(s: State, call: CallId)
    requires Inv(s) && Enabled(s, DoAnnounce(call))
    ensures Inv(Announce(s, call))
  {
    var t := Announce(s, call);
    forall e | e in t.told && e !in s.told
      ensures exists i ::
        Has(s.records, call, i) && e == Event(Kid(s.records, call, i).id, Kid(s.records, call, i).state)
    {
      var c :| c in s.records[call].children && e == Event(c.id, c.state);
      var i :| 0 <= i < |s.records[call].children| && s.records[call].children[i] == c;
      assert Has(s.records, call, i);
    }
    ToldOfChildren(s, t.told);
    forall e, c, i | e in t.told && e.state.Terminal() && Has(t.records, c, i) && Kid(t.records, c, i).id == e.id
      ensures c !in t.live && Kid(t.records, c, i).state == e.state
    {
      if e !in s.told {
        var j :| Has(s.records, call, j) && e == Event(Kid(s.records, call, j).id, Kid(s.records, call, j).state);
        IdsApart(s, c, i, call, j);
      }
    }
  }

  // Events that report children as they stand agree with each other and with older verdicts.
  lemma ToldOfChildren(s: State, told: set<Event>)
    requires Inv(s) && s.told <= told
    requires forall e | e in told && e !in s.told ::
      exists c, i :: Has(s.records, c, i) && e == Event(Kid(s.records, c, i).id, Kid(s.records, c, i).state)
    ensures OneVerdict(told) && ToldGranted(told, s.granted)
  {
    forall e, f | e in told && f in told && e.id == f.id && e.state.Terminal() && f.state.Terminal()
      ensures e == f
    {
      if e !in s.told {
        var c, i :| Has(s.records, c, i) && e == Event(Kid(s.records, c, i).id, Kid(s.records, c, i).state);
        if f !in s.told {
          var d, j :| Has(s.records, d, j) && f == Event(Kid(s.records, d, j).id, Kid(s.records, d, j).state);
          IdsApart(s, c, i, d, j);
        }
      }
    }
    forall e | e in told
      ensures e.id in s.granted.Values
    {
      if e !in s.told {
        var c, i :| Has(s.records, c, i) && e == Event(Kid(s.records, c, i).id, Kid(s.records, c, i).state);
        assert s.granted[(s.records[c].parentTurn, Kid(s.records, c, i).expert)] in s.granted.Values;
      }
    }
  }

  // ---------------------------------------------------------------- revocation

  lemma RevokeKeeps(s: State)
    requires Inv(s)
    ensures Inv(Revoke(s))
  {
  }

  function Interrupt(s: State): State {
    s.(records := InterruptRecords(s.records))
  }

  lemma InterruptedKids(s: State, t: State)
    requires t == Interrupt(s)
    ensures SameGuests(s.records, t.records)
    ensures forall c, i | Has(t.records, c, i) ::
      Has(s.records, c, i) && Kid(t.records, c, i) == Interrupted(Kid(s.records, c, i))
  {
    forall c, i | Has(t.records, c, i)
      ensures Has(s.records, c, i) && Kid(t.records, c, i) == Interrupted(Kid(s.records, c, i))
    {
      assert Kid(s.records, c, i) == s.records[c].children[i];
    }
  }

  lemma InterruptKeeps(s: State)
    requires Inv(s) && s.live == {}
    requires forall k | k in s.tasks :: s.tasks[k] != Queued(false)
    ensures Inv(Interrupt(s))
  {
    var t := Interrupt(s);
    InterruptedKids(s, t);
    SameGuestsKeep(s.records, t.records, s.granted, s.parentTurn, s.seen);
  }

  lemma SettledTold(q: State, told: set<Event>)
    requires Inv(q) && q.live == {} && told == q.told + AllEvents(q.records)
    ensures Inv(q.(told := told))
  {
    forall e | e in told && e !in q.told
      ensures exists c, i :: Has(q.records, c, i) && e == Event(Kid(q.records, c, i).id, Kid(q.records, c, i).state)
    {
      var c, i :| c in q.records && 0 <= i < |q.records[c].children| &&
        e == Event(q.records[c].children[i].id, q.records[c].children[i].state);
      assert Has(q.records, c, i);
    }
    ToldOfChildren(q, told);
    forall e, c, i | e in told && e.state.Terminal() && Has(q.records, c, i) && Kid(q.records, c, i).id == e.id
      ensures Kid(q.records, c, i).state == e.state
    {
      if e !in q.told {
        var d, j :| Has(q.records, d, j) && e == Event(Kid(q.records, d, j).id, Kid(q.records, d, j).state);
        IdsApart(q, c, i, d, j);
      }
    }
  }

  lemma SettleKeeps(s: State)
    requires Inv(s)
    ensures Inv(Settle(s))
  {
    RevokeKeeps(s);
    InterruptKeeps(Revoke(s));
    SettledTold(Interrupt(Revoke(s)), Settle(s).told);
  }

  lemma LeaveKeeps(s: State, call: CallId)
    requires Inv(s) && Enabled(s, DoLeave(call))
    ensures Inv(Leave(s, call))
  {
  }

  lemma DrainKeeps(s: State, call: CallId)
    requires Inv(s) && Enabled(s, DoDrain(call))
    ensures Inv(Drain(s, call))
  {
  }

  lemma FinishKeeps(s: State, call: CallId)
    requires Inv(s) && Enabled(s, DoFinish(call))
    ensures Inv(Finish(s, call))
  {
    var t := Finish(s, call);
    forall c, i | Has(t.records, c, i)
      ensures Has(s.records, c, i) && Kid(t.records, c, i) == Kid(s.records, c, i) && c != call
    {
    }
  }

  lemma RestartKeeps(s: State)
    requires Inv(s)
    ensures Inv(Restart(s))
  {
  }

  // ---------------------------------------------------------------- the first stretch of a worker

  // A worker that marks its child running, or running and then failed.
  lemma MarkKeeps(s: State, call: CallId, i: nat, child: Child, told: set<Event>)
    requires Inv(s) && call in s.live && Has(s.records, call, i)
    requires (call, i) in s.tasks ==> s.tasks[(call, i)] != Queued(false)
    requires Kid(s.records, call, i).state.Waiting?
    requires child.id == Kid(s.records, call, i).id && child.expert == Kid(s.records, call, i).expert
    requires ChildHonest(child) && !child.state.Waiting?
    requires told == s.told || told == s.told + {Event(child.id, Running)}
    ensures Inv(PutChild(s, call, i, child).(told := told))
    ensures Has(PutChild(s, call, i, child).records, call, i)
    ensures Kid(PutChild(s, call, i, child).records, call, i) == child
  {
    PutChildChanges(s, call, i, child);
    var t := PutChild(s, call, i, child);
    assert (s.records[call].parentTurn, child.expert) in s.granted;
    assert s.granted[(s.records[call].parentTurn, child.expert)] in s.granted.Values;
    assert ToldGranted(told, t.granted);
  }

  // The child is marked, and its task ends there.
  lemma MarkAndEndKeeps(s: State, call: CallId, i: nat, child: Child, told: set<Event>, broken: bool)
    requires Inv(s) && (call, i) in s.tasks && s.tasks[(call, i)] == Queued(false)
    requires call in s.live && Has(s.records, call, i)
    requires child.id == Kid(s.records, call, i).id && child.expert == Kid(s.records, call, i).expert
    requires ChildHonest(child) && !child.state.Waiting?
    requires told == s.told || told == s.told + {Event(child.id, Running)}
    requires broken || child.state.Terminal() || s.parent != Some(s.records[call].parentTurn)
    ensures Inv(PutChild(s, call, i, child).(told := told, tasks := s.tasks[(call, i) := Ended(broken)]))
  {
    var s0 := s.(tasks := s.tasks[(call, i) := Ended(true)]);
    EndTaskKeeps(s, call, i, true);
    MarkKeeps(s0, call, i, child, told);
    var s1 := PutChild(s0, call, i, child).(told := told);
    EndTaskKeeps(s1, call, i, broken);
    assert s1.tasks[(call, i) := Ended(broken)] == s.tasks[(call, i) := Ended(broken)];
  }

  // The child is marked, and its model call starts.
  lemma MarkAndAskKeeps(s: State, call: CallId, i: nat)
    requires Inv(s) && (call, i) in s.tasks && s.tasks[(call, i)] == Queued(false)
    requires call in s.live && Has(s.records, call, i) && Some(s.records[call].parentTurn) == s.parent
    ensures Inv(StartWork(s, call, i, true, false, true))
  {
    var child := Kid(s.records, call, i);
    var told := s.told + {Event(child.id, Running)};
    var s0 := s.(tasks := s.tasks[(call, i) := Ended(true)]);
    EndTaskKeeps(s, call, i, true);
    MarkKeeps(s0, call, i, child.(state := Running), told);
    var s1 := PutChild(s0, call, i, child.(state := Running)).(told := told);
    AskKeeps(s1, call, i);
    assert s1.tasks[(call, i) := Asking(false)] == s.tasks[(call, i) := Asking(false)];
  }

  lemma StartWorkKeeps(s: State, call: CallId, i: nat, saved: bool, expired: bool, failureSaved: bool)
    requires Inv(s) && Enabled(s, DoStartWork(call, i, saved, expired, failureSaved))
    ensures Inv(StartWork(s, call, i, saved, expired, failureSaved))
  {
    var child := Kid(s.records, call, i);
    var running := child.(state := Running);
    var failed := child.(state := Failed, result := None, error := AnalysisFailed);
    var told := s.told + {Event(child.id, Running)};
    assert call in s.live && ChildHonest(child);
    if !saved {
      MarkAndEndKeeps(s, call, i, running, s.told, true);
    } else if Some(s.records[call].parentTurn) != s.parent {
      MarkAndEndKeeps(s, call, i, running, told, false);
    } else if expired {
      MarkAndEndKeeps(s, call, i, failed, told, !failureSaved);
      PutTwice(s, call, i, running, failed);
    } else {
      MarkAndAskKeeps(s, call, i);
    }
  }

  lemma PutTwice(s: State, call: CallId, i: nat, first: Child, second: Child)
    requires Has(s.records, call, i)
    ensures PutChild(PutChild(s, call, i, first), call, i, second) == PutChild(s, call, i, second)
  {
    assert s.records[call].children[i := first][i := second] == s.records[call].children[i := second];
  }

  lemma AskKeeps(s: State, call: CallId, i: nat)
    requires Inv(s) && Has(s.records, call, i) && !Kid(s.records, call, i).state.Waiting?
    requires forall k | 0 <= k < |s.asked| :: s.asked[k].id != Kid(s.records, call, i).id
    ensures Inv(s.(tasks := s.tasks[(call, i) := Asking(false)],
      asked := s.asked + [Ask(s.records[call].parentTurn, Kid(s.records, call, i).expert, Kid(s.records, call, i).id)]))
  {
    var child := Kid(s.records, call, i);
    var ask := Ask(s.records[call].parentTurn, child.expert, child.id);
    assert (ask.turn, ask.expert) in s.granted && s.granted[(ask.turn, ask.expert)] == ask.id;
    var asked := s.asked + [ask];
    forall k, c, j | 0 <= k < |asked| && Has(s.records, c, j) && asked[k].id == Kid(s.records, c, j).id
      ensures !Kid(s.records, c, j).state.Waiting?
    {
      if k == |s.asked| {
        IdsApart(s, c, j, call, i);
      }
    }
  }

  // ---------------------------------------------------------------- preparing a call

  lemma GrantsFresh(s: State, names: seq<Expert>, ids: seq<ChildId>)
    requires GrantsBounded(s.granted, s.turns, s.used, s.parentTurn, s.parent)
    requires s.parentTurn.Some? && FreshIds(s, names, ids) && Distinct(names)
    requires forall n | n in names :: n !in s.used
    ensures forall k | k in Grants(s.parentTurn.value, names, ids) ::
      && k !in s.granted && k.0 == s.parentTurn.value && k.1 in names
      && Grants(s.parentTurn.value, names, ids)[k] !in s.granted.Values
    ensures GrantsInjective(Grants(s.parentTurn.value, names, ids))
  {
    var turn := s.parentTurn.value;
    var grants := Grants(turn, names, ids);
    forall k | k in grants
      ensures k !in s.granted && k.0 == turn && k.1 in names && grants[k] !in s.granted.Values
      ensures exists i :: 0 <= i < |names| && k == (turn, names[i]) && grants[k] == ids[i]
    {
      var i :| 0 <= i < |names| && k == (turn, names[i]);
      assert grants[k] == ids[i];
      assert names[i] in names && names[i] !in GrantedIn(s.granted, turn);
      assert k !in s.granted;
    }
  }

  lemma GrantedAfter(s: State, names: seq<Expert>, ids: seq<ChildId>, u: Turn)
    requires s.parentTurn.Some? && |ids| == |names| && Distinct(names)
    ensures GrantedIn(s.granted + Grants(s.parentTurn.value, names, ids), u)
      == if u == s.parentTurn.value then GrantedIn(s.granted, u) + Elements(names) else GrantedIn(s.granted, u)
  {
    var turn := s.parentTurn.value;
    var grants := Grants(turn, names, ids);
    var g := s.granted + grants;
    forall e
      ensures e in GrantedIn(g, u) <==> e in GrantedIn(s.granted, u) || (u == turn && e in names)
    {
      if e in GrantedIn(g, u) {
        assert (u, e) in g;
        if (u, e) in grants {
          var i :| 0 <= i < |names| && (u, e) == (turn, names[i]);
        }
      }
      if e in GrantedIn(s.granted, u) {
        assert (u, e) in g;
      }
      if u == turn && e in names {
        var i :| 0 <= i < |names| && names[i] == e;
        assert (turn, names[i]) in grants;
        assert (u, e) in g;
      }
    }
  }

  lemma GrantsStayInjective(g: Grant, h: Grant)
    requires GrantsInjective(g) && GrantsInjective(h)
    requires forall k | k in h :: k !in g && h[k] !in g.Values
    ensures GrantsInjective(g + h)
  {
    forall k, l | k in g + h && l in g + h && (g + h)[k] == (g + h)[l]
      ensures k == l
    {
      assert k in g ==> g[k] in g.Values;
      assert l in g ==> g[l] in g.Values;
    }
  }

  // The names and ids are taken; the record itself comes next.
  function Granting(s: State, call: CallId, names: seq<Expert>, ids: seq<ChildId>): State
    requires s.parentTurn.Some? && |ids| == |names|
    requires forall i, j | 0 <= i < j < |names| :: names[i] != names[j]
  {
    s.(seen := s.seen + {call}, used := s.used + Elements(names), granted :=
      s.granted + Grants(s.parentTurn.value, names, ids))
  }

  lemma GrantingBounded(s: State, names: seq<Expert>, ids: seq<ChildId>, g: Grant)
    requires GrantsBounded(s.granted, s.turns, s.used, s.parentTurn, s.parent)
    requires s.parentTurn.Some? && |ids| == |names| && Distinct(names)
    requires |s.used + Elements(names)| <= 2
    requires s.parent == s.parentTurn
    requires g == s.granted + Grants(s.parentTurn.value, names, ids)
    ensures GrantsBounded(g, s.turns, s.used + Elements(names), s.parentTurn, s.parent)
  {
    var turn := s.parentTurn.value;
    GrantedAfter(s, names, ids, turn);
    forall t | t in s.turns
      ensures |GrantedIn(g, t)| <= 2
    {
      GrantedAfter(s, names, ids, t);
    }
    forall k | k in g
      ensures k.0 in s.turns
    {
      assert k in s.granted || k in Grants(turn, names, ids);
    }
  }

  lemma MoreGrantsKeep(s: State, g: Grant)
    requires Inv(s)
    requires forall k | k in s.granted :: k in g && g[k] == s.granted[k]
    ensures ChildrenGranted(s.records, g) && AskedGranted(s.asked, g) && ToldGranted(s.told, g)
  {
    forall e | e in s.told
      ensures e.id in g.Values
    {
      var k :| k in s.granted && s.granted[k] == e.id;
      assert k in g && g[k] == e.id;
    }
  }

  lemma GrantingKeeps(s: State, call: CallId, names: seq<Expert>, ids: seq<ChildId>, source: string)
    requires Inv(s) && MayPrepare(s, call, names) && FreshIds(s, names, ids)
    ensures Inv(Granting(s, call, names, ids))
  {
    var t := Granting(s, call, names, ids);
    GrantsFresh(s, names, ids);
    GrantsStayInjective(s.granted, Grants(s.parentTurn.value, names, ids));
    GrantingBounded(s, names, ids, t.granted);
    MoreGrantsKeep(s, t.granted);
  }

  // A new call whose children are granted, waiting, and unheard of.
  ghost predicate Newcomer(s: State, call: CallId, record: Record) {
    && call !in s.records && call in s.seen
    && s.parentTurn == Some(record.parentTurn)
    && 1 <= |record.children| <= 2
    && (forall i, j | 0 <= i < j < |record.children| :: record.children[i].expert != record.children[j].expert)
    && forall i | 0 <= i < |record.children| :: NewcomerChild(s, record.parentTurn, record.children[i])
  }

  ghost predicate NewcomerChild(s: State, turn: Turn, child: Child) {
    && child.state.Waiting? && child.result.None?
    && (turn, child.expert) in s.granted && s.granted[(turn, child.expert)] == child.id
    && (forall c, i | Has(s.records, c, i) :: Kid(s.records, c, i).expert != child.expert)
    && (forall k | 0 <= k < |s.asked| :: s.asked[k].id != child.id)
    && (forall e | e in s.told :: e.id != child.id)
  }

  lemma NewcomerApart(s: State, call: CallId, record: Record)
    requires ExpertsApart(s.records) && Newcomer(s, call, record)
    ensures ExpertsApart(s.records[call := record])
  {
    var q := s.records[call := record];
    forall c, i, d, j | Has(q, c, i) && Has(q, d, j) && Kid(q, c, i).expert == Kid(q, d, j).expert
      ensures c == d && i == j
    {
      assert c != call ==> Has(s.records, c, i) && Kid(q, c, i) == Kid(s.records, c, i);
      assert d != call ==> Has(s.records, d, j) && Kid(q, d, j) == Kid(s.records, d, j);
      assert c == call ==> NewcomerChild(s, record.parentTurn, record.children[i]);
      assert d == call ==> NewcomerChild(s, record.parentTurn, record.children[j]);
    }
  }

  lemma NewcomerKeeps(s: State, call: CallId, record: Record)
    requires Inv(s) && Newcomer(s, call, record)
    ensures Inv(s.(records := s.records[call := record]))
  {
    var q := s.records[call := record];
    NewcomerApart(s, call, record);
    forall c, i | Has(q, c, i)
      ensures if c == call then 0 <= i < |record.children| && Kid(q, c, i) == record.children[i]
        && NewcomerChild(s, record.parentTurn, Kid(q, c, i))
              else Has(s.records, c, i) && Kid(q, c, i) == Kid(s.records, c, i)
    {
    }
  }

  lemma PreparedRecordIsNew(s: State, call: CallId, names: seq<Expert>, ids: seq<ChildId>, record: Record)
    requires MayPrepare(s, call, names) && FreshIds(s, names, ids) && Inv(s)
    requires record.parentTurn == s.parentTurn.value && |record.children| == |names|
    requires forall i | 0 <= i < |names| :: record.children[i] == NewChild(ids[i], names[i])
    ensures Newcomer(Granting(s, call, names, ids), call, record)
  {
    forall i | 0 <= i < |record.children|
      ensures NewcomerChild(Granting(s, call, names, ids), record.parentTurn, record.children[i])
    {
      PreparedIsNew(s, call, names, ids, i);
    }
  }

  lemma PrepareInTwo(s: State, call: CallId, names: seq<Expert>, ids: seq<ChildId>, source: string)
    returns (record: Record)
    requires s.parentTurn.Some? && |ids| == |names| && Distinct(names)
    ensures record.parentTurn == s.parentTurn.value && |record.children| == |names|
    ensures forall i | 0 <= i < |names| :: record.children[i] == NewChild(ids[i], names[i])
    ensures Prepare(s, call, names, ids, source) == Granting(s, call, names, ids).(records := s.records[call := record])
  {
    record := Prepare(s, call, names, ids, source).records[call];
  }

  lemma PrepareKeeps(s: State, call: CallId, names: seq<Expert>, ids: seq<ChildId>, source: string)
    requires Inv(s) && MayPrepare(s, call, names) && FreshIds(s, names, ids)
    ensures Inv(Prepare(s, call, names, ids, source))
  {
    var record := PrepareInTwo(s, call, names, ids, source);
    GrantingKeeps(s, call, names, ids, source);
    PreparedRecordIsNew(s, call, names, ids, record);
    NewcomerKeeps(Granting(s, call, names, ids), call, record);
  }

  lemma PreparedIsNew(s: State, call: CallId, names: seq<Expert>, ids: seq<ChildId>, i: nat)
    requires RecordsShaped(s.records, s.parentTurn, s.seen) && ChildrenGranted(s.records, s.granted)
    requires GrantsBounded(s.granted, s.turns, s.used, s.parentTurn, s.parent)
    requires AskedGranted(s.asked, s.granted) && ToldGranted(s.told, s.granted)
    requires MayPrepare(s, call, names) && FreshIds(s, names, ids) && i < |names|
    ensures NewcomerChild(Granting(s, call, names, ids), s.parentTurn.value, NewChild(ids[i], names[i]))
  {
    var grants := Grants(s.parentTurn.value, names, ids);
    assert grants[(s.parentTurn.value, names[i])] == ids[i];
    assert names[i] !in s.used by { assert names[i] in names; }
    assert ids[i] !in s.granted.Values by { assert ids[i] in ids; }
    forall c, j | Has(s.records, c, j)
      ensures Kid(s.records, c, j).expert in s.used
    {
      assert (s.records[c].parentTurn, Kid(s.records, c, j).expert) in s.granted;
    }
    forall k | 0 <= k < |s.asked|
      ensures s.asked[k].id in s.granted.Values
    {
      assert (s.asked[k].turn, s.asked[k].expert) in s.granted;
    }
  }

  // ---------------------------------------------------------------- every run

  lemma WorkStepKeeps(s: State, a: Action)
    requires Inv(s) && Enabled(s, a)
    requires a.DoLaunch? || a.DoStartWork? || a.DoFinishWork? || a.DoDropWork? || a.DoJudge? || a.DoAnnounce?
    ensures Inv(Apply(s, a))
  {
    match a
    case DoLaunch(call) => LaunchKeeps(s, call);
    case DoStartWork(call, i, saved, expired, failureSaved) => StartWorkKeeps(s, call, i, saved, expired, failureSaved);
    case DoFinishWork(call, i, answer, saved) => FinishWorkKeeps(s, call, i, answer, saved);
    case DoDropWork(call, i) => DropWorkKeeps(s, call, i);
    case DoJudge(call, sourceSame) => JudgeKeeps(s, call, sourceSame);
    case DoAnnounce(call) => AnnounceKeeps(s, call);
  }

  lemma StepKeeps(s: State, a: Action)
    requires Inv(s) && Enabled(s, a)
    ensures Inv(Apply(s, a))
  {
    match a
    case DoNewTurn(turn) => NewTurnKeeps(s, turn);
    case DoEndTurn => EndTurnKeeps(s);
    case DoBegin => BeginKeeps(s);
    case DoPrepare(call, names, ids, source) => PrepareKeeps(s, call, names, ids, source);
    case DoRevoke => RevokeKeeps(s);
    case DoSettle => SettleKeeps(s);
    case DoLeave(call) => LeaveKeeps(s, call);
    case DoDrain(call) => DrainKeeps(s, call);
    case DoFinish(call) => FinishKeeps(s, call);
    case DoRestart => RestartKeeps(s);
    case _ => WorkStepKeeps(s, a);
  }

  lemma {:induction false} RunKeeps(s: State, actions: seq<Action>, t: State)
    requires Inv(s) && Run(s, actions, t)
    ensures Inv(t)
    decreases |actions|
  {
    if actions != [] {
      StepKeeps(s, actions[0]);
      RunKeeps(Apply(s, actions[0]), actions[1..], t);
    }
  }

  lemma EmptyHolds()
    ensures Inv(EMPTY)
  {
  }

  // Whatever the two workers, the joint check and interruptions do, all terminal
  // events of one child ever emitted carry one state.
  lemma OneVerdictPerChild(actions: seq<Action>, t: State)
    requires Run(EMPTY, actions, t)
    ensures forall e, f | e in t.told && f in t.told && e.id == f.id && e.state.Terminal() && f.state.Terminal() ::
      e.state == f.state
  {
    RunKeeps(EMPTY, actions, t);
  }

  // Events are never withdrawn, so a verdict holds on every longer run.
  lemma {:induction false} ToldForever(s: State, actions: seq<Action>, t: State)
    requires Run(s, actions, t)
    ensures s.told <= t.told
    decreases |actions|
  {
    if actions != [] {
      ToldForever(Apply(s, actions[0]), actions[1..], t);
    }
  }

  // A stored result may still turn into a failure, but only before it is published.
  lemma FailsBeforePublication(s: State, call: CallId, i: nat)
    requires Inv(s) && MayJudge(s, call) && Has(s.records, call, i) && Kid(s.records, call, i).state.Completed?
    ensures var t := Announce(Judge(s, call, false), call);
      && Kid(t.records, call, i).state.Failed?
      && Event(Kid(s.records, call, i).id, Failed) in t.told
      && Event(Kid(s.records, call, i).id, Completed) !in t.told
  {
    JudgeKeeps(s, call, false);
    var j := Judge(s, call, false);
    AnnounceKeeps(j, call);
    assert Kid(j.records, call, i) in j.records[call].children;
  }

  // What `execute` publishes is a verdict for every child.
  lemma PublishedIsTerminal(s: State, call: CallId)
    requires Inv(s) && Enabled(s, DoAnnounce(call))
    ensures forall e | e in EventsOf(s.records[call].children) :: e.state.Terminal()
  {
    forall e | e in EventsOf(s.records[call].children)
      ensures e.state.Terminal()
    {
      var c :| c in s.records[call].children && e == Event(c.id, c.state);
      var i :| 0 <= i < |s.records[call].children| && s.records[call].children[i] == c;
      assert Has(s.records, call, i);
    }
  }

  function AskedIn(asked: seq<Ask>, turn: Turn): set<Expert> {
    set k | 0 <= k < |asked| && asked[k].turn == turn :: asked[k].expert
  }

  // In one parent turn at most two experts are asked, each once; no child
  // starts a second model call in any turn.
  lemma ExpertBudget(actions: seq<Action>, t: State)
    requires Run(EMPTY, actions, t)
    ensures forall turn :: |AskedIn(t.asked, turn)| <= 2
    ensures forall k, l | 0 <= k < l < |t.asked| ::
      t.asked[k].id != t.asked[l].id && (t.asked[k].turn != t.asked[l].turn || t.asked[k].expert != t.asked[l].expert)
  {
    RunKeeps(EMPTY, actions, t);
    AskedWithinBudget(t);
  }

  lemma AskedWithinBudget(t: State)
    requires Inv(t)
    ensures forall turn :: |AskedIn(t.asked, turn)| <= 2
    ensures forall k, l | 0 <= k < l < |t.asked| ::
      t.asked[k].id != t.asked[l].id && (t.asked[k].turn != t.asked[l].turn || t.asked[k].expert != t.asked[l].expert)
  {
    forall turn
      ensures |AskedIn(t.asked, turn)| <= 2
    {
      forall e | e in AskedIn(t.asked, turn)
        ensures e in GrantedIn(t.granted, turn)
      {
        var k :| 0 <= k < |t.asked| && t.asked[k].turn == turn && t.asked[k].expert == e;
        assert (turn, e) in t.granted;
      }
      SubsetSize(AskedIn(t.asked, turn), GrantedIn(t.granted, turn));
      if turn !in t.turns {
        assert GrantedIn(t.granted, turn) == {};
      }
    }
  }
}
