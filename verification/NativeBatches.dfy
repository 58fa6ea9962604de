// Which batches of calls a Native session accepts (lg_cli/native_runtime.py, `_run`, with
// `prepare` of lg_cli/native_delegation.py), and what accepting one records for its experts.
module NativeBatches {
  import opened Prelude
  import opened ExpertReviews
  import opened Checkpoint
  import opened NativeSession
  import T = NativeTranscript

  // ---------------------------------------------------------------- identities and tools

  // At most sixteen calls, each with an identity of its own that no call of the history has,
  // and each of a tool the session offers.
  predicate Offered(messages: seq<Item>, calls: seq<ToolCall>, tools: set<ToolName>, delegates: bool) {
    && |calls| <= 16
    && (forall i, j | 0 <= i < j < |calls| :: calls[i].id != calls[j].id)
    && (forall i | 0 <= i < |calls| :: calls[i].id != "")
    && (forall i, k | 0 <= i < |calls| && 0 <= k < |messages| && messages[k].Call? ::
          messages[k].call.id != calls[i].id)
    && (forall i | 0 <= i < |calls| ::
          if calls[i].name == "delegate_review" then delegates || calls[i].name in tools else calls[i].name in tools)
  }

  lemma OfferedIff(messages: seq<Item>, calls: seq<ToolCall>, tools: set<ToolName>, delegates: bool)
    ensures CallsFine(messages, calls, tools, delegates) <==> Offered(messages, calls, tools, delegates)
  {
    forall i | 0 <= i < |calls|
      ensures calls[i].id in CallIds(messages) <==>
        exists k :: 0 <= k < |messages| && messages[k].Call? && messages[k].call.id == calls[i].id
    {
    }
  }

  // ---------------------------------------------------------------- experts

  predicate Delegated(calls: seq<ToolCall>, i: int) {
    0 <= i < |calls| && calls[i].name == "delegate_review"
  }

  // The experts all expert calls of a batch ask for.
  function AskedFor(calls: seq<ToolCall>): set<Expert> {
    set i, n | 0 <= i < |calls| && Delegated(calls, i) && n in calls[i].experts :: n
  }

  // One expert call by itself: one or two different experts that were not asked in this turn,
  // an identity that nothing carries yet, and a policy that does not refuse it.
  predicate Fit(r: State, messages: seq<Item>, calls: seq<ToolCall>, limit: nat, i: int)
    requires 0 <= i < |calls|
  {
    var call := calls[i];
    && i < limit
    && 1 <= |call.experts| <= 2
    && (|call.experts| == 2 ==> call.experts[0] != call.experts[1])
    && (forall n | n in call.experts :: n !in r.used)
    && call.id !in r.seen
    && (forall k | 0 <= k < |messages| :: !Named(messages[k], call.id))
  }

  predicate AllFit(r: State, messages: seq<Item>, calls: seq<ToolCall>, limit: nat) {
    forall i | 0 <= i < |calls| && Delegated(calls, i) :: Fit(r, messages, calls, limit, i)
  }

  // No expert is asked for twice, and no identity comes twice.
  predicate Once(calls: seq<ToolCall>) {
    forall i, j | 0 <= i < j < |calls| && Delegated(calls, i) && Delegated(calls, j) ::
      Apart(calls[i], calls[j])
  }

  predicate Delegates(calls: seq<ToolCall>) {
    exists i :: 0 <= i < |calls| && Delegated(calls, i)
  }

  predicate InTurn(r: State, calls: seq<ToolCall>) {
    Delegates(calls) ==> r.parent.Some? && r.parent == r.parentTurn
  }

  predicate InBudget(r: State, calls: seq<ToolCall>) {
    Delegates(calls) ==> |r.used + AskedFor(calls)| <= 2
  }

  // All expert calls of a batch together: in the bound turn, apart, and within two experts.
  predicate Preparable(r: State, messages: seq<Item>, calls: seq<ToolCall>, limit: nat) {
    && AllFit(r, messages, calls, limit)
    && Once(calls)
    && InTurn(r, calls)
    && InBudget(r, calls)
  }

  lemma Shifted(calls: seq<ToolCall>, i: int)
    requires calls != []
    ensures Delegated(calls[1..], i) <==> i >= 0 && Delegated(calls, i + 1)
    ensures Delegated(calls[1..], i) ==> calls[1..][i] == calls[i + 1]
  {
  }

  lemma AskedNext(calls: seq<ToolCall>)
    requires calls != []
    ensures AskedFor(calls) ==
      AskedFor(calls[1..]) + (if Delegated(calls, 0) then Elements(calls[0].experts) else {})
  {
    forall n
      ensures n in AskedFor(calls) <==>
        n in AskedFor(calls[1..]) || (Delegated(calls, 0) && n in calls[0].experts)
    {
      if n in AskedFor(calls) {
        var i :| Delegated(calls, i) && n in calls[i].experts;
        if i > 0 { Shifted(calls, i - 1); }
      }
      if n in AskedFor(calls[1..]) {
        var i :| Delegated(calls[1..], i) && n in calls[1..][i].experts;
        Shifted(calls, i);
        assert Delegated(calls, i + 1) && n in calls[i + 1].experts;
      }
    }
  }

  // ---------------------------------------------------------------- one call after the other

  lemma FitShift(r: State, messages: seq<Item>, calls: seq<ToolCall>, limit: nat, i: int)
    requires calls != [] && 0 <= i < |calls| - 1
    ensures Fit(r, messages, calls[1..], if limit == 0 then 0 else limit - 1, i) <==>
      Fit(r, messages, calls, limit, i + 1)
  {
  }

  // The first call shares nothing with the expert calls behind it.
  predicate FirstApart(calls: seq<ToolCall>)
    requires calls != []
  {
    forall j | 0 < j < |calls| && Delegated(calls, j) :: Apart(calls[0], calls[j])
  }

  predicate Apart(a: ToolCall, b: ToolCall) {
    a.id != b.id && forall n | n in a.experts :: n !in b.experts
  }

  lemma OnceShift(calls: seq<ToolCall>)
    requires calls != []
    ensures Once(calls) <==> (Once(calls[1..]) && (Delegated(calls, 0) ==> FirstApart(calls)))
  {
    var rest := calls[1..];
    forall j | 0 <= j < |rest|
      ensures Delegated(rest, j) <==> Delegated(calls, j + 1)
      ensures rest[j] == calls[j + 1]
    {
    }
    if Once(rest) {
      forall i, j | 0 < i < j < |calls| && Delegated(calls, i) && Delegated(calls, j)
        ensures Apart(calls[i], calls[j])
      {
        assert Delegated(rest, i - 1) && Delegated(rest, j - 1);
      }
    }
  }

  lemma SomeShift(calls: seq<ToolCall>)
    requires calls != []
    ensures Delegates(calls) <==> Delegated(calls, 0) || Delegates(calls[1..])
  {
    if i :| 0 <= i < |calls| && Delegated(calls, i) {
      if i > 0 { Shifted(calls, i - 1); }
    }
    if i :| 0 <= i < |calls[1..]| && Delegated(calls[1..], i) {
      Shifted(calls, i);
    }
  }

  lemma AllFitShift(r: State, messages: seq<Item>, calls: seq<ToolCall>, limit: nat)
    requires calls != []
    ensures AllFit(r, messages, calls, limit) <==>
      && AllFit(r, messages, calls[1..], if limit == 0 then 0 else limit - 1)
      && (Delegated(calls, 0) ==> Fit(r, messages, calls, limit, 0))
  {
    forall i | 0 <= i < |calls| - 1
      ensures Delegated(calls[1..], i) <==> Delegated(calls, i + 1)
      ensures Fit(r, messages, calls[1..], if limit == 0 then 0 else limit - 1, i) <==>
        Fit(r, messages, calls, limit, i + 1)
    {
      FitShift(r, messages, calls, limit, i);
    }
    if AllFit(r, messages, calls[1..], if limit == 0 then 0 else limit - 1) {
      forall i | 0 < i < |calls| && Delegated(calls, i)
        ensures Fit(r, messages, calls, limit, i)
      {
        assert Delegated(calls[1..], i - 1);
      }
    }
  }

  // A call of an ordinary tool has no part in this.
  lemma OrdinaryFirst(r: State, messages: seq<Item>, calls: seq<ToolCall>, limit: nat)
    requires calls != [] && !Delegated(calls, 0)
    ensures Preparable(r, messages, calls, limit) <==>
      Preparable(r, messages, calls[1..], if limit == 0 then 0 else limit - 1)
  {
    AllFitShift(r, messages, calls, limit);
    OnceShift(calls);
    SomeShift(calls);
    AskedNext(calls);
  }

  // What is left once the first expert call is prepared.
  lemma FitAfter(r: State, q: State, messages: seq<Item>, calls: seq<ToolCall>, limit: nat)
    requires calls != [] && Delegated(calls, 0) && limit > 0
    requires q.used == r.used + Elements(calls[0].experts) && q.seen == r.seen + {calls[0].id}
    ensures AllFit(r, messages, calls[1..], limit - 1) && FirstApart(calls) <==>
      AllFit(q, messages, calls[1..], limit - 1)
  {
    var rest := calls[1..];
    forall i | 0 <= i < |rest|
      ensures Delegated(rest, i) <==> Delegated(calls, i + 1)
      ensures Fit(q, messages, rest, limit - 1, i) <==>
        Fit(r, messages, rest, limit - 1, i) && Apart(calls[0], calls[i + 1])
    {
      FitGrown(r, q, messages, rest, limit - 1, i, calls[0]);
    }
    if AllFit(q, messages, rest, limit - 1) {
      forall j | 0 < j < |calls| && Delegated(calls, j)
        ensures Apart(calls[0], calls[j])
      {
        assert Delegated(rest, j - 1);
      }
    }
  }

  lemma FitGrown(r: State, q: State, messages: seq<Item>, calls: seq<ToolCall>, limit: nat, i: int, first: ToolCall)
    requires 0 <= i < |calls|
    requires q.used == r.used + Elements(first.experts) && q.seen == r.seen + {first.id}
    ensures Fit(q, messages, calls, limit, i) <==> (Fit(r, messages, calls, limit, i) && Apart(first, calls[i]))
  {
    assert forall n :: n in q.used <==> n in r.used || n in first.experts;
  }

  lemma FitIs(r: State, messages: seq<Item>, calls: seq<ToolCall>, limit: nat)
    requires calls != [] && Delegated(calls, 0)
    ensures var alone := r.parent.Some? && r.parent == r.parentTurn && |r.used + Elements(calls[0].experts)| <= 2;
      Fit(r, messages, calls, limit, 0) && alone <==>
        limit > 0 && !Mentioned(messages, calls[0].id) && MayPrepare(r, calls[0].id, calls[0].experts)
  {
  }

  // An expert call is prepared before those behind it are looked at.
  lemma BudgetAfter(r: State, q: State, calls: seq<ToolCall>)
    requires calls != [] && Delegated(calls, 0)
    requires q.used == r.used + Elements(calls[0].experts) && |q.used| <= 2
    ensures InBudget(r, calls) <==> InBudget(q, calls[1..])
  {
    SomeShift(calls);
    AskedNext(calls);
    assert r.used + AskedFor(calls) == q.used + AskedFor(calls[1..]);
    if !Delegates(calls[1..]) {
      NoneAsked(calls[1..]);
      assert q.used + AskedFor(calls[1..]) == q.used;
    }
  }

  lemma ApartAfter(r: State, q: State, messages: seq<Item>, calls: seq<ToolCall>, limit: nat)
    requires calls != [] && Delegated(calls, 0) && limit > 0 && Fit(r, messages, calls, limit, 0)
    requires q.used == r.used + Elements(calls[0].experts) && q.seen == r.seen + {calls[0].id}
    ensures AllFit(r, messages, calls, limit) && Once(calls) <==>
      AllFit(q, messages, calls[1..], limit - 1) && Once(calls[1..])
  {
    AllFitShift(r, messages, calls, limit);
    FitAfter(r, q, messages, calls, limit);
    OnceShift(calls);
  }

  lemma ExpertFirst(r: State, q: State, messages: seq<Item>, calls: seq<ToolCall>, limit: nat)
    requires calls != [] && Delegated(calls, 0) && limit > 0
    requires q.used == r.used + Elements(calls[0].experts) && q.seen == r.seen + {calls[0].id}
    requires q.parent == r.parent && q.parentTurn == r.parentTurn
    requires !Mentioned(messages, calls[0].id) && MayPrepare(r, calls[0].id, calls[0].experts)
    ensures Preparable(r, messages, calls, limit) <==> Preparable(q, messages, calls[1..], limit - 1)
  {
    FitIs(r, messages, calls, limit);
    ApartAfter(r, q, messages, calls, limit);
    BudgetAfter(r, q, calls);
  }

  lemma NoneAsked(calls: seq<ToolCall>)
    requires !Delegates(calls)
    ensures AskedFor(calls) == {}
  {
  }

  // An expert call that cannot be prepared refuses the batch.
  lemma ExpertRefused(r: State, messages: seq<Item>, calls: seq<ToolCall>, limit: nat)
    requires calls != [] && Delegated(calls, 0) && Preparable(r, messages, calls, limit)
    ensures limit > 0 && !Mentioned(messages, calls[0].id) && MayPrepare(r, calls[0].id, calls[0].experts)
  {
    AskedNext(calls);
    SubsetSize(r.used + Elements(calls[0].experts), r.used + AskedFor(calls));
    FitIs(r, messages, calls, limit);
  }

  // The expert calls of a batch are all prepared exactly when they are preparable together.
  lemma {:induction false} PreparedIff(r: State, messages: seq<Item>, calls: seq<ToolCall>, kids: seq<seq<ChildId>>,
                                       source: string, limit: nat)
    requires |kids| == |calls| && KidsFresh(r, messages, calls, kids, source)
    ensures PrepareAll(r, messages, calls, kids, source, limit).1 <==> Preparable(r, messages, calls, limit)
    decreases |calls|
  {
    if calls == [] {
    } else if calls[0].name != DELEGATE {
      OrdinaryStep(r, messages, calls, kids, source, limit);
      OrdinaryFirst(r, messages, calls, limit);
      PreparedIff(r, messages, calls[1..], kids[1..], source, if limit == 0 then 0 else limit - 1);
    } else if limit == 0 || Mentioned(messages, calls[0].id) || !MayPrepare(r, calls[0].id, calls[0].experts) {
      RefusedStep(r, messages, calls, kids, source, limit);
      if Preparable(r, messages, calls, limit) {
        ExpertRefused(r, messages, calls, limit);
      }
    } else {
      ExpertStep(r, messages, calls, kids, source, limit);
      var q := Prepare(r, calls[0].id, calls[0].experts, kids[0], source);
      ExpertFirst(r, q, messages, calls, limit);
      PreparedIff(q, messages, calls[1..], kids[1..], source, limit - 1);
    }
  }

  lemma OrdinaryStep(r: State, messages: seq<Item>, calls: seq<ToolCall>, kids: seq<seq<ChildId>>, source: string,
                     limit: nat)
    requires |kids| == |calls| && KidsFresh(r, messages, calls, kids, source)
    requires calls != [] && calls[0].name != DELEGATE
    ensures KidsFresh(r, messages, calls[1..], kids[1..], source)
    ensures PrepareAll(r, messages, calls, kids, source, limit) ==
      PrepareAll(r, messages, calls[1..], kids[1..], source, if limit == 0 then 0 else limit - 1)
  {
  }

  lemma RefusedStep(r: State, messages: seq<Item>, calls: seq<ToolCall>, kids: seq<seq<ChildId>>, source: string,
                    limit: nat)
    requires |kids| == |calls| && calls != [] && calls[0].name == DELEGATE
    requires limit == 0 || Mentioned(messages, calls[0].id) || !MayPrepare(r, calls[0].id, calls[0].experts)
    ensures PrepareAll(r, messages, calls, kids, source, limit) == (r, false)
  {
  }

  lemma ExpertStep(r: State, messages: seq<Item>, calls: seq<ToolCall>, kids: seq<seq<ChildId>>, source: string,
                   limit: nat)
    requires |kids| == |calls| && KidsFresh(r, messages, calls, kids, source)
    requires calls != [] && calls[0].name == DELEGATE && limit > 0
    requires !Mentioned(messages, calls[0].id) && MayPrepare(r, calls[0].id, calls[0].experts)
    ensures |kids[0]| == |calls[0].experts|
    ensures var q := Prepare(r, calls[0].id, calls[0].experts, kids[0], source);
      && KidsFresh(q, messages, calls[1..], kids[1..], source)
      && PrepareAll(r, messages, calls, kids, source, limit) ==
           PrepareAll(q, messages, calls[1..], kids[1..], source, limit - 1)
  {
  }

  // ---------------------------------------------------------------- what is recorded

  // The record of an expert call before its experts are asked.
  predicate Waits(record: Record, turn: Option<Turn>, call: ToolCall, kids: seq<ChildId>, source: string) {
    && Some(record.parentTurn) == turn
    && record.source == source
    && |record.children| == |call.experts| == |kids|
    && forall i | 0 <= i < |kids| :: record.children[i] == Child(kids[i], call.experts[i], Waiting, None, NoError)
  }

  ghost predicate IsExpertCall(calls: seq<ToolCall>, id: CallId) {
    exists i :: 0 <= i < |calls| && Delegated(calls, i) && calls[i].id == id
  }

  ghost predicate AllWait(turn: Option<Turn>, records: Records, calls: seq<ToolCall>, kids: seq<seq<ChildId>>,
                          source: string)
    requires |kids| == |calls|
  {
    forall i | 0 <= i < |calls| && Delegated(calls, i) ::
      calls[i].id in records && Waits(records[calls[i].id], turn, calls[i], kids[i], source)
  }

  // Each expert call has its record; nothing else was added or changed, and its experts count
  // as asked for.
  ghost predicate Recorded(r: State, q: State, calls: seq<ToolCall>, kids: seq<seq<ChildId>>, source: string)
    requires |kids| == |calls|
  {
    && AllWait(r.parentTurn, q.records, calls, kids, source)
    && (forall id | id in r.records && !IsExpertCall(calls, id) :: id in q.records && q.records[id] == r.records[id])
    && (forall id | id in q.records :: id in r.records || IsExpertCall(calls, id))
    && q.used == r.used + AskedFor(calls)
    && q.told == r.told && q.asked == r.asked && q.live == r.live && q.tasks == r.tasks
    && q.parentTurn == r.parentTurn
  }

  lemma ExpertCallNext(calls: seq<ToolCall>, id: CallId)
    requires calls != []
    ensures IsExpertCall(calls, id) <==> (Delegated(calls, 0) && calls[0].id == id) || IsExpertCall(calls[1..], id)
  {
    if i :| 0 <= i < |calls| && Delegated(calls, i) && calls[i].id == id {
      if i > 0 { Shifted(calls, i - 1); }
    }
    if i :| 0 <= i < |calls[1..]| && Delegated(calls[1..], i) && calls[1..][i].id == id {
      Shifted(calls, i);
    }
  }

  lemma AllWaitNext(turn: Option<Turn>, records: Records, calls: seq<ToolCall>, kids: seq<seq<ChildId>>, source: string)
    requires calls != [] && |kids| == |calls| && AllWait(turn, records, calls[1..], kids[1..], source)
    requires Delegated(calls, 0) ==>
      calls[0].id in records && Waits(records[calls[0].id], turn, calls[0], kids[0], source)
    ensures AllWait(turn, records, calls, kids, source)
  {
    forall i | 0 < i < |calls| && Delegated(calls, i)
      ensures calls[i].id in records && Waits(records[calls[i].id], turn, calls[i], kids[i], source)
    {
      assert Delegated(calls[1..], i - 1) && calls[1..][i - 1] == calls[i] && kids[1..][i - 1] == kids[i];
    }
  }

  lemma OrdinaryRecorded(r: State, end: State, calls: seq<ToolCall>, kids: seq<seq<ChildId>>, source: string)
    requires calls != [] && |kids| == |calls| && !Delegated(calls, 0)
    requires Recorded(r, end, calls[1..], kids[1..], source)
    ensures Recorded(r, end, calls, kids, source)
  {
    AllWaitNext(r.parentTurn, end.records, calls, kids, source);
    AskedNext(calls);
    forall id
      ensures IsExpertCall(calls, id) <==> IsExpertCall(calls[1..], id)
    {
      ExpertCallNext(calls, id);
    }
  }

  // One prepared call.
  ghost predicate OneMore(r: State, q: State, call: ToolCall, kids: seq<ChildId>, source: string) {
    && q.records.Keys == r.records.Keys + {call.id}
    && (forall id | id in r.records && id != call.id :: q.records[id] == r.records[id])
    && Waits(q.records[call.id], r.parentTurn, call, kids, source)
    && q.used == r.used + Elements(call.experts)
    && q.told == r.told && q.asked == r.asked && q.live == r.live && q.tasks == r.tasks
    && q.parentTurn == r.parentTurn
  }

  lemma PreparedOne(r: State, call: ToolCall, kids: seq<ChildId>, source: string)
    requires MayPrepare(r, call.id, call.experts) && |kids| == |call.experts|
    ensures OneMore(r, Prepare(r, call.id, call.experts, kids, source), call, kids, source)
  {
  }

  lemma ExpertRecorded(r: State, q: State, end: State, calls: seq<ToolCall>, kids: seq<seq<ChildId>>, source: string)
    requires calls != [] && |kids| == |calls| && Delegated(calls, 0)
    requires OneMore(r, q, calls[0], kids[0], source)
    requires !IsExpertCall(calls[1..], calls[0].id) && Recorded(q, end, calls[1..], kids[1..], source)
    ensures Recorded(r, end, calls, kids, source)
  {
    AllWaitNext(r.parentTurn, end.records, calls, kids, source);
    UsedNext(r, q, end, calls);
    forall id
      ensures IsExpertCall(calls, id) <==> calls[0].id == id || IsExpertCall(calls[1..], id)
    {
      ExpertCallNext(calls, id);
    }
  }

  lemma UsedNext(r: State, q: State, end: State, calls: seq<ToolCall>)
    requires calls != [] && Delegated(calls, 0)
    requires q.used == r.used + Elements(calls[0].experts) && end.used == q.used + AskedFor(calls[1..])
    ensures end.used == r.used + AskedFor(calls)
  {
    AskedNext(calls);
  }

  lemma NothingRecorded(r: State, kids: seq<seq<ChildId>>, source: string)
    requires |kids| == 0
    ensures Recorded(r, r, [], kids, source)
  {
    assert AskedFor([]) == {};
  }

  // Preparing a batch adds one record for every expert call, with one waiting child per expert.
  lemma {:induction false} PreparedRecords(r: State, messages: seq<Item>, calls: seq<ToolCall>,
                                           kids: seq<seq<ChildId>>, source: string, limit: nat)
    requires |kids| == |calls| && KidsFresh(r, messages, calls, kids, source)
    requires PrepareAll(r, messages, calls, kids, source, limit).1
    ensures Recorded(r, PrepareAll(r, messages, calls, kids, source, limit).0, calls, kids, source)
    decreases |calls|
  {
    if calls == [] {
      NothingRecorded(r, kids, source);
    } else if calls[0].name != DELEGATE {
      OrdinaryStep(r, messages, calls, kids, source, limit);
      PreparedRecords(r, messages, calls[1..], kids[1..], source, if limit == 0 then 0 else limit - 1);
      OrdinaryRecorded(r, PrepareAll(r, messages, calls, kids, source, limit).0, calls, kids, source);
    } else {
      ExpertStep(r, messages, calls, kids, source, limit);
      var q := Prepare(r, calls[0].id, calls[0].experts, kids[0], source);
      PreparedRecords(q, messages, calls[1..], kids[1..], source, limit - 1);
      FirstAgainst(r, messages, calls, kids, source, limit);
      PreparedOne(r, calls[0], kids[0], source);
      ExpertRecorded(r, q, PrepareAll(r, messages, calls, kids, source, limit).0, calls, kids, source);
    }
  }

  lemma FirstAgainst(r: State, messages: seq<Item>, calls: seq<ToolCall>, kids: seq<seq<ChildId>>, source: string,
                     limit: nat)
    requires |kids| == |calls| && KidsFresh(r, messages, calls, kids, source)
    requires calls != [] && Delegated(calls, 0) && PrepareAll(r, messages, calls, kids, source, limit).1
    ensures !IsExpertCall(calls[1..], calls[0].id)
  {
    PreparedIff(r, messages, calls, kids, source, limit);
    OnceShift(calls);
    NotAgain(calls);
  }

  lemma NotAgain(calls: seq<ToolCall>)
    requires calls != [] && FirstApart(calls)
    ensures !IsExpertCall(calls[1..], calls[0].id)
  {
    if i :| 0 <= i < |calls[1..]| && Delegated(calls[1..], i) && calls[1..][i].id == calls[0].id {
      Shifted(calls, i);
      assert Apart(calls[0], calls[i + 1]);
    }
  }

  // ---------------------------------------------------------------- a batch

  // A reply with calls, and no steering to follow, is accepted exactly when its identities and
  // tools are fine and its expert calls can all be prepared. Then the whole reply is in the
  // history, its calls are pending in order, and the experts' records are those of the file;
  // otherwise history, pending calls and file are as they were, and nothing is handed over.
  lemma BatchIff(s: Session, a: Step) returns (at: seq<nat>)
    requires a.DoReply? && Allowed(s, a) && s.steering == [] && CallsOf(a.output) != []
    ensures var t, calls := Next(s, a), CallsOf(a.output);
      if Offered(s.messages, calls, a.tools, a.delegates) && Preparable(s.reviews, s.messages, calls, a.limit) then
        && t.messages == s.messages + a.output && T.PicksCalls(a.output, at, t.pending) && at != []
        && T.Written(s, t, a.io)
        && (forall id :: id in t.reviews.records <==> id in s.reviews.records || IsExpertCall(calls, id))
        && AllWait(s.reviews.parentTurn, t.reviews.records, calls, a.kids, a.source)
        && t.handed == s.handed + if a.io.Raises() then [] else [t.pending[0]]
      else
        t.messages == s.messages && t.pending == s.pending && t.saved == s.saved && t.handed == s.handed
  {
    var calls := CallsOf(a.output);
    OfferedIff(s.messages, calls, a.tools, a.delegates);
    PreparedIff(s.reviews, s.messages, calls, a.kids, a.source, a.limit);
    at := [];
    if Offered(s.messages, calls, a.tools, a.delegates) && Preparable(s.reviews, s.messages, calls, a.limit) {
      at := T.BatchText(s, a);
      var r := PrepareAll(s.reviews, s.messages, calls, a.kids, a.source, a.limit).0;
      PreparedRecords(s.reviews, s.messages, calls, a.kids, a.source, a.limit);
      T.BatchIs(s, a, r);
      var b := s.(reviews := r, messages := s.messages + a.output, pending := IdsOf(calls));
      T.HandText(Save(b, a.io), s.phase.round, calls, 0);
    } else {
      T.RefusedBatch(s, a);
    }
  }

  // ---------------------------------------------------------------- a turn

  // A turn starts exactly when no expert call is recorded, every worker has ended, and the
  // turn is a new one; then it is the bound turn, with a budget of its own.
  lemma TurnStartsIff(s: Session, turn: Turn, text: string, io: Io)
    requires Allowed(s, DoStartTurn(turn, text, io))
    ensures var t := Next(s, DoStartTurn(turn, text, io));
      if s.reviews.records == map[] && (forall k | k in s.reviews.tasks :: s.reviews.tasks[k].Ended?)
        && s.reviews.parentTurn != Some(turn) then
        && t.messages == s.messages + [Message(User, text, None)] && T.Written(s, t, io)
        && t.reviews.parentTurn == t.reviews.parent == Some(turn)
        && t.reviews.used == {} && t.reviews.seen == {}
        && t.phase == (if io.Raises() then Wedged else Thinking(0))
      else t.messages == s.messages && t.saved == s.saved && t.phase == Wedged
  {
  }
}
