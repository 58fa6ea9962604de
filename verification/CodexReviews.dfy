// The checkpointed adapter lg_cli/codex_reviews.py around the expert protocol: what it
// keeps in memory, what it writes, how it restores, and its strict reader.
//
// Every function is one stretch between two suspension points. `call` is cut where
// `execute` waits for its workers and where it waits for them to stop.
module CodexReviews {
  import opened Prelude
  import opened ExpertReviews
  import C = Checkpoint

  // `experts` and `record` are what the call asked for and its last copied record;
  // the digest of its arguments is content identity and left implicit.
  datatype Entry = Entry(experts: seq<Expert>, record: Record, settled: bool, interrupted: bool)

  type Calls = map<CallId, Entry>

  datatype Book = Book(root: string, turn: Option<Turn>, used: set<Expert>, seen: set<CallId>, calls: Calls)

  // Where the coroutine `call` stands: inside `execute`, or leaving it.
  datatype Stage = Executing | Leaving(normal: bool)

  datatype Codex = Codex(
    reviews: State,
    book: Option<Book>,
    restored: bool,
    failed: bool,
    revoked: bool,
    callers: map<CallId, Stage>,
    file: Option<Book>,
    // the newest turn the host has had
    last: Option<Turn>
  )

  const START: Codex := Codex(EMPTY, None, false, false, true, map[], None, None)

  // ---------------------------------------------------------------- the strict reader

  predicate In(calls: Calls, c: CallId, i: int) {
    c in calls && 0 <= i < |calls[c].record.children|
  }

  function At(calls: Calls, c: CallId, i: int): Child
    requires In(calls, c, i)
  {
    calls[c].record.children[i]
  }

  predicate TwoNames(names: seq<Expert>) {
    1 <= |names| <= 2 && (|names| == 2 ==> names[0] != names[1])
  }

  predicate AllTerminal(record: Record) {
    forall i | 0 <= i < |record.children| :: record.children[i].state.Terminal()
  }

  predicate EntryShaped(entry: Entry, turn: Option<Turn>) {
    && TwoNames(entry.experts)
    && turn == Some(entry.record.parentTurn)
    && C.Names(entry.record) == entry.experts
    && forall i | 0 <= i < |entry.record.children| :: ChildHonest(entry.record.children[i])
  }

  predicate EntryAccepted(entry: Entry, turn: Option<Turn>) {
    EntryShaped(entry, turn) && (entry.settled ==> AllTerminal(entry.record))
  }

  function ExpertsIn(calls: Calls, ids: set<CallId>): set<Expert> {
    set c, n | c in ids && c in calls && n in calls[c].experts :: n
  }

  // No expert is called twice.
  ghost predicate CallsApart(calls: Calls, ids: set<CallId>) {
    forall c, d, n | c in ids && d in ids && c in calls && d in calls && n in calls[c].experts
      && n in calls[d].experts ::
      c == d
  }

  // No child appears twice.
  ghost predicate ChildrenApart(calls: Calls, ids: set<CallId>) {
    forall c, i, d, j | In(calls, c, i) && In(calls, d, j) && c in ids && d in ids
      && At(calls, c, i).id == At(calls, d, j).id ::
      c == d && i == j
  }

  ghost predicate BookAccepted(b: Book) {
    && |b.used| <= 2 && |b.seen| <= 2
    && b.calls.Keys == b.seen
    && (b.calls != map[] ==> b.turn.Some?)
    && (forall c | c in b.calls :: EntryAccepted(b.calls[c], b.turn))
    && CallsApart(b.calls, b.calls.Keys)
    && ChildrenApart(b.calls, b.calls.Keys)
    && ExpertsIn(b.calls, b.calls.Keys) == b.used
  }

  // ---------------------------------------------------------------- writing

  // A failed write revokes everything and breaks the session for good.
  function Write(s: Codex, io: Io): Codex {
    if s.failed then s
    else s.(file := if io.Lands() then s.book else s.file,
            failed := io.Raises(), revoked := s.revoked || io.Raises(),
            reviews := if io.Raises() then Revoke(s.reviews) else s.reviews)
  }

  function WithRecords(calls: Calls, r: Records): Calls {
    map c | c in calls :: if c in r then calls[c].(record := r[c]) else calls[c]
  }

  function Recorded(b: Book, r: State): Book {
    b.(calls := WithRecords(b.calls, r.records), used := r.used, seen := r.seen)
  }

  // A record without an entry makes the copy fail before anything is written. Only the newest
  // record can lack one, and the copy walks the records in the order they were made.
  predicate Entered(s: Codex)
    requires s.book.Some?
  {
    s.reviews.records.Keys <= s.book.value.calls.Keys
  }

  function Save(s: Codex, io: Io): Codex
    requires s.book.Some?
  {
    var b := s.book.value;
    if Entered(s) then Write(s.(book := Some(Recorded(b, s.reviews))), io)
    else s.(book := Some(b.(calls := WithRecords(b.calls, s.reviews.records))))
  }

  predicate SaveRaises(s: Codex, io: Io)
    requires s.book.Some?
  {
    s.failed || io.Raises() || !Entered(s)
  }

  // `settle_interrupted` of the expert protocol, with this adapter's `save`.
  function SettleSave(s: Codex, io: Io): Codex
    requires s.book.Some?
  {
    Save(s.(reviews := Settle(s.reviews)), io)
  }

  function SettledEntries(calls: Calls): Calls {
    map c | c in calls :: if calls[c].settled then calls[c] else calls[c].(settled := true, interrupted := true)
  }

  function EntriesDone(s: Codex): Codex
    requires s.book.Some?
  {
    s.(book := Some(s.book.value.(calls := SettledEntries(s.book.value.calls))))
  }

  function RevokeAll(s: Codex, first: Io, second: Io): Codex {
    if s.book.None? then s.(revoked := true)
    else
      var s1 := SettleSave(s.(revoked := true), first);
      if SaveRaises(s, first) then s1.(failed := true)
      else Save(EntriesDone(s1), second)
  }

  // ---------------------------------------------------------------- restoring and beginning

  function SettledStored(entry: Entry): Entry {
    if entry.settled then entry
    else entry.(record := InterruptedRecord(entry.record), settled := true, interrupted := true)
  }

  function SettledBook(b: Book): Book {
    b.(calls := map c | c in b.calls :: SettledStored(b.calls[c]))
  }

  function Broken(s: Codex): Codex {
    s.(failed := true, revoked := true)
  }

  ghost function Restore(s: Codex, root: string, rootFine: bool, io: Io): Codex
    requires s.restored ==> s.book.Some?
  {
    if s.failed then s
    else if !rootFine then Broken(s)
    else if s.restored then (if s.book.value.root != root then Broken(s) else s)
    else match s.file
      case None =>
        s.(book := Some(Book(root, None, {}, {}, map[])), restored := true,
           reviews := s.reviews.(parentTurn := None, used := {}, seen := {}))
      case Some(b) =>
        if !BookAccepted(b) || b.root != root then Broken(s)
        else
          var s1 := Write(s.(book := Some(SettledBook(b))), io);
          if io.Raises() then Broken(s1)
          else s1.(restored := true, reviews := s1.reviews.(parentTurn := b.turn, used := b.used, seen := b.seen))
  }

  predicate MayBeginTurn(s: Codex, root: string) {
    !s.failed && s.restored && s.book.Some? && s.book.value.root == root && MayBegin(s.reviews)
  }

  function BeginTurn(s: Codex, root: string, io: Io): Codex {
    if !MayBeginTurn(s, root) then s
    else
      var r := Begin(s.reviews);
      Write(s.(reviews := r, revoked := false,
               book := Some(Book(s.book.value.root, r.parent, {}, {}, map[]))), io)
  }

  // ---------------------------------------------------------------- a call

  // `admitted` stands for the checks of thread, tool and policy, which only refuse more.
  predicate ValidCall(s: Codex, call: CallId, admitted: bool) {
    && !s.failed && s.restored && !s.revoked && admitted && s.book.Some?
    && s.reviews.parent.Some? && s.reviews.parent == s.reviews.parentTurn
    && call !in s.book.value.calls
  }

  predicate MayCall(s: Codex, call: CallId, names: seq<Expert>, admitted: bool) {
    ValidCall(s, call, admitted) && MayPrepare(s.reviews, call, names)
  }

  function Dropped(s: Codex, call: CallId): Codex {
    if call in s.reviews.live then s else s.(reviews := Finish(s.reviews, call))
  }

  // Up to the first suspension inside `execute`. `hashed` says whether the digest of
  // the arguments could be computed.
  function Call(s: Codex, call: CallId, names: seq<Expert>, ids: seq<ChildId>, source: string,
                admitted: bool, hashed: bool, io: Io, first: Io, second: Io): Codex
    requires |ids| == |names|
  {
    if ValidCall(s, call, admitted) then Validated(s, call, names, ids, source, hashed, io, first, second) else s
  }

  function Validated(s: Codex, call: CallId, names: seq<Expert>, ids: seq<ChildId>, source: string,
                     hashed: bool, io: Io, first: Io, second: Io): Codex
    requires |ids| == |names| && s.book.Some?
  {
    if !MayPrepare(s.reviews, call, names) then
      if call in s.reviews.records then Ruined(s, call, first, second) else s
    else
      var prepared := s.(reviews := Prepare(s.reviews, call, names, ids, source));
      AfterPrepare(prepared, call, names, hashed, io, first, second)
  }

  function Ruined(s: Codex, call: CallId, first: Io, second: Io): Codex {
    Dropped(RevokeAll(s, first, second), call)
  }

  function AfterPrepare(s: Codex, call: CallId, names: seq<Expert>, hashed: bool, io: Io, first: Io, second: Io): Codex
    requires s.book.Some? && call in s.reviews.records
  {
    if hashed then Started(EnteredAs(s, call, names), call, io, first, second) else Ruined(s, call, first, second)
  }

  function EnteredAs(s: Codex, call: CallId, names: seq<Expert>): Codex
    requires s.book.Some? && call in s.reviews.records
  {
    var b := s.book.value;
    s.(book := Some(b.(calls := b.calls[call := Entry(names, s.reviews.records[call], false, false)])))
  }

  // A new entry is saved before its workers start.
  function Started(s: Codex, call: CallId, io: Io, first: Io, second: Io): Codex
    requires s.book.Some?
  {
    var saved := Save(s, io);
    if SaveRaises(s, io) || !MayLaunch(saved.reviews, call) then Ruined(saved, call, first, second)
    else saved.(reviews := Launch(saved.reviews, call), callers := s.callers[call := Executing])
  }

  function ExpertStart(s: Codex, call: CallId, i: nat, first: Io, expired: bool, second: Io): Codex
    requires s.book.Some?
  {
    var begun := s.(reviews := StartWork(s.reviews, call, i, false, expired, false));
    if !Has(s.reviews.records, call, i) then begun
    else
      var s1 := Save(begun, first);
      if SaveRaises(begun, first) then s1
      else
        var s2 := s1.(reviews := StartWork(s.reviews, call, i, true, expired, !SaveRaises(s1, second)));
        if expired && Some(s.reviews.records[call].parentTurn) == s.reviews.parent && call in s.reviews.live
        then Save(s2, second) else s2
  }

  function ExpertFinish(s: Codex, call: CallId, i: nat, answer: Option<Report>, io: Io): Codex
    requires s.book.Some?
  {
    var done := s.(reviews := FinishWork(s.reviews, call, i, answer, !SaveRaises(s, io)));
    if WorkCounts(s.reviews, call, i) then Save(done, io) else done
  }

  function Abort(s: Codex, call: CallId, io: Io): Codex
    requires s.book.Some?
  {
    var s1 := SettleSave(s, io);
    s1.(reviews := Leave(s1.reviews, call), callers := s1.callers[call := Leaving(false)])
  }

  function JudgeCall(s: Codex, call: CallId, sourceSame: bool, io: Io, first: Io): Codex
    requires s.book.Some? && call in s.reviews.records
  {
    Published(s.(reviews := Judge(s.reviews, call, sourceSame)), call, io, first)
  }

  function Published(s: Codex, call: CallId, io: Io, first: Io): Codex
    requires s.book.Some? && call in s.reviews.records
  {
    var s1 := Save(s, io);
    if SaveRaises(s, io) then Abort(s1, call, first)
    else s1.(reviews := Announce(s1.reviews, call), callers := s1.callers[call := Leaving(true)])
  }

  function LeaveCall(s: Codex, call: CallId): Codex {
    s.(reviews := Leave(s.reviews, call), callers := s.callers[call := Leaving(true)])
  }

  // The rest of `call` once `execute` returned or raised. `changed` says whether the
  // thread, the turn or the policy moved on meanwhile.
  function Return(s: Codex, call: CallId, normal: bool, changed: bool, io: Io, first: Io, second: Io): Codex
    requires s.book.Some?
  {
    Returned(Drained(s, call), call, normal, changed, io, first, second)
  }

  function Returned(s: Codex, call: CallId, normal: bool, changed: bool, io: Io, first: Io, second: Io): Codex
    requires s.book.Some?
  {
    if !normal || call !in s.book.value.calls then Ruined(s, call, first, second)
    else
      var interrupted := s.book.value.calls[call].interrupted || s.revoked || s.failed || changed;
      SavedAndDropped(Closed(s, call, interrupted), call, io, first, second)
  }

  function Drained(s: Codex, call: CallId): Codex {
    s.(reviews := Drain(s.reviews, call), callers := s.callers - {call})
  }

  function Closed(s: Codex, call: CallId, interrupted: bool): Codex
    requires s.book.Some? && call in s.book.value.calls
  {
    var b := s.book.value;
    s.(book := Some(b.(calls := b.calls[call := b.calls[call].(settled := true, interrupted := interrupted)])))
  }

  function SavedAndDropped(s: Codex, call: CallId, io: Io, first: Io, second: Io): Codex
    requires s.book.Some?
  {
    var saved := Save(s, io);
    if SaveRaises(s, io) then Ruined(saved, call, first, second) else Dropped(saved, call)
  }

  // The process dies; a new adapter starts over the same file.
  function Reborn(s: Codex): Codex {
    Codex(Restart(s.reviews), None, false, false, true, map[], s.file, s.last)
  }

  // ---------------------------------------------------------------- runs

  datatype Step =
    | DoTurn(turn: Turn)
    | DoNoTurn
    | DoSameTurn
    | DoRestore(root: string, rootFine: bool, io: Io)
    | DoBeginTurn(beginRoot: string, io: Io)
    | DoCall(call: CallId, names: seq<Expert>, ids: seq<ChildId>, source: string,
             admitted: bool, hashed: bool, io: Io, first: Io, second: Io)
    | DoStart(call: CallId, i: nat, first: Io, expired: bool, second: Io)
    | DoAnswer(call: CallId, i: nat, answer: Option<Report>, io: Io)
    | DoDrop(call: CallId, i: nat)
    | DoJudgeCall(call: CallId, sourceSame: bool, io: Io, first: Io)
    | DoLeaveCall(call: CallId)
    | DoAbort(call: CallId, io: Io)
    | DoReturn(call: CallId, normal: bool, changed: bool, io: Io, first: Io, second: Io)
    | DoRevokeAll(first: Io, second: Io)
    | DoCrash

  predicate InExecute(s: Codex, call: CallId) {
    call in s.callers && s.callers[call] == Executing
  }

  ghost predicate Allowed(s: Codex, a: Step) {
    match a
    case DoTurn(turn) => turn !in s.reviews.turns
    case DoNoTurn => true
    // A new adapter may find its host in the turn of the old one.
    case DoSameTurn => s.last.Some? && !s.restored
    case DoRestore(_, _, _) => s.restored ==> s.book.Some?
    case DoBeginTurn(_, _) => true
    case DoCall(call, names, ids, _, _, _, _, _, _) => |ids| == |names| && FreshIds(s.reviews, names, ids)
    case DoStart(call, i, _, expired, _) =>
      s.book.Some? && ExpertReviews.Enabled(s.reviews, DoStartWork(call, i, false, expired, false))
    case DoAnswer(call, i, answer, _) =>
      s.book.Some? && ExpertReviews.Enabled(s.reviews, DoFinishWork(call, i, answer, false))
    case DoDrop(call, i) => ExpertReviews.Enabled(s.reviews, DoDropWork(call, i))
    case DoJudgeCall(call, _, _, _) => s.book.Some? && InExecute(s, call) && MayJudge(s.reviews, call)
    case DoLeaveCall(call) =>
      && InExecute(s, call) && call !in s.reviews.live
      && forall k | k in s.reviews.tasks && k.0 == call :: s.reviews.tasks[k] == Ended(false)
    case DoAbort(call, _) => s.book.Some? && InExecute(s, call)
    case DoReturn(call, normal, _, _, _, _) =>
      s.book.Some? && call in s.callers && s.callers[call].Leaving? && (normal ==> s.callers[call].normal)
    case DoRevokeAll(_, _) => true
    case DoCrash => true
  }

  ghost function Next(s: Codex, a: Step): Codex
    requires Allowed(s, a)
  {
    match a
    case DoTurn(turn) => s.(reviews := NewTurn(s.reviews, turn), last := Some(turn))
    case DoNoTurn => s.(reviews := EndTurn(s.reviews))
    case DoSameTurn => s.(reviews := s.reviews.(parent := s.last))
    case DoRestore(root, rootFine, io) => Restore(s, root, rootFine, io)
    case DoBeginTurn(root, io) => BeginTurn(s, root, io)
    case DoCall(call, names, ids, source, admitted, hashed, io, first, second) =>
      Call(s, call, names, ids, source, admitted, hashed, io, first, second)
    case DoStart(call, i, first, expired, second) => ExpertStart(s, call, i, first, expired, second)
    case DoAnswer(call, i, answer, io) => ExpertFinish(s, call, i, answer, io)
    case DoDrop(call, i) => s.(reviews := DropWork(s.reviews, call, i))
    case DoJudgeCall(call, sourceSame, io, first) => JudgeCall(s, call, sourceSame, io, first)
    case DoLeaveCall(call) => LeaveCall(s, call)
    case DoAbort(call, io) => Abort(s, call, io)
    case DoReturn(call, normal, changed, io, first, second) => Return(s, call, normal, changed, io, first, second)
    case DoRevokeAll(first, second) => RevokeAll(s, first, second)
    case DoCrash => Reborn(s)
  }

  ghost predicate Runs(s: Codex, steps: seq<Step>, t: Codex)
    decreases |steps|
  {
    if steps == [] then s == t
    else Allowed(s, steps[0]) && Runs(Next(s, steps[0]), steps[1..], t)
  }
}
