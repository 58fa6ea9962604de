// What a Native session puts into its history, and into the checkpoint file: the author's
// texts, the model's reply, the results of its calls, each as given and in order.
module NativeTranscript {
  import opened Prelude
  import opened ExpertReviews
  import opened Checkpoint
  import opened NativeSession

  // ---------------------------------------------------------------- the text of a reply

  // The text of a reply is that of its messages, joined in order.
  lemma TextOfNothing()
    ensures FinalText([]) == ""
  {
  }

  lemma TextOfOne(item: Item)
    ensures FinalText([item]) == if item.Message? then item.text else ""
  {
    assert [item][1..] == [] && FinalText([item][1..]) == "";
  }

  lemma {:induction false} TextJoins(a: seq<Item>, b: seq<Item>)
    ensures FinalText(a + b) == FinalText(a) + FinalText(b)
    decreases |a|
  {
    if a == [] {
      assert a + b == b;
    } else {
      TextJoins(a[1..], b);
      assert (a + b)[0] == a[0] && (a + b)[1..] == a[1..] + b;
      Associates(if a[0].Message? then a[0].text else "", FinalText(a[1..]), FinalText(b));
    }
  }

  lemma Associates(x: string, y: string, z: string)
    ensures x + (y + z) == (x + y) + z
  {
  }

  // There is a final text exactly when some message of the reply has one.
  lemma {:induction false} HasText(output: seq<Item>)
    ensures FinalText(output) != "" <==> exists i :: 0 <= i < |output| && output[i].Message? && output[i].text != ""
    decreases |output|
  {
    if output != [] {
      HasText(output[1..]);
      forall i | 0 <= i < |output| - 1
        ensures output[1..][i] == output[i + 1]
      {
      }
      if FinalText(output) != "" && !(output[0].Message? && output[0].text != "") {
        var i :| 0 <= i < |output[1..]| && output[1..][i].Message? && output[1..][i].text != "";
        assert output[i + 1] == output[1..][i];
      }
      if i :| 0 <= i < |output| && output[i].Message? && output[i].text != "" {
        assert i > 0 ==> output[1..][i - 1] == output[i];
      }
    }
  }

  // ---------------------------------------------------------------- positions in order

  predicate Increasing(at: seq<nat>) {
    forall j, k | 0 <= j < k < |at| :: at[j] < at[k]
  }

  // `picked` is what stands in `output` at these positions, which are those of its messages.
  predicate PicksMessages(output: seq<Item>, at: seq<nat>, picked: seq<Item>) {
    && |picked| == |at| && Increasing(at)
    && (forall k | 0 <= k < |at| :: at[k] < |output| && picked[k] == output[at[k]])
    && (forall i: nat | i < |output| :: output[i].Message? <==> i in at)
  }

  // The ids are those of the calls of `output`, in order.
  predicate PicksCalls(output: seq<Item>, at: seq<nat>, ids: seq<CallId>) {
    && |ids| == |at| && Increasing(at)
    && (forall k | 0 <= k < |at| :: at[k] < |output| && output[at[k]].Call? && ids[k] == output[at[k]].call.id)
    && (forall i: nat | i < |output| :: output[i].Call? <==> i in at)
  }

  // The same for the positions from `from` on.
  predicate MessagesFrom(output: seq<Item>, from: nat, at: seq<nat>, picked: seq<Item>) {
    && |picked| == |at| && Increasing(at)
    && (forall k | 0 <= k < |at| :: from <= at[k] < |output| && picked[k] == output[at[k]])
    && (forall i: nat | from <= i < |output| :: output[i].Message? <==> i in at)
  }

  predicate CallsFrom(output: seq<Item>, from: nat, at: seq<nat>, ids: seq<CallId>) {
    && |ids| == |at| && Increasing(at)
    && (forall k | 0 <= k < |at| :: from <= at[k] < |output| && output[at[k]].Call? && ids[k] == output[at[k]].call.id)
    && (forall i: nat | from <= i < |output| :: output[i].Call? <==> i in at)
  }

  lemma {:induction false} MessagesPicked(output: seq<Item>, from: nat) returns (at: seq<nat>)
    requires from <= |output|
    ensures MessagesFrom(output, from, at, MessagesOf(output[from..]))
    decreases |output| - from
  {
    at := [];
    if from < |output| {
      assert output[from..][1..] == output[from + 1..];
      at := MessagesPicked(output, from + 1);
      if output[from].Message? {
        MessagesFirst(output, from, at, MessagesOf(output[from + 1..]));
        at := [from] + at;
      }
    }
  }

  lemma MessagesFirst(output: seq<Item>, from: nat, at: seq<nat>, picked: seq<Item>)
    requires from < |output| && output[from].Message? && MessagesFrom(output, from + 1, at, picked)
    ensures MessagesFrom(output, from, [from] + at, [output[from]] + picked)
  {
  }

  lemma {:induction false} CallsPicked(output: seq<Item>, from: nat) returns (at: seq<nat>)
    requires from <= |output|
    ensures CallsFrom(output, from, at, IdsOf(CallsOf(output[from..])))
    decreases |output| - from
  {
    at := [];
    if from < |output| {
      assert output[from..][1..] == output[from + 1..];
      at := CallsPicked(output, from + 1);
      if output[from].Call? {
        CallsFirst(output, from, at, IdsOf(CallsOf(output[from + 1..])));
        IdsFirst(output[from].call, CallsOf(output[from + 1..]));
        at := [from] + at;
      }
    }
  }

  lemma CallsFirst(output: seq<Item>, from: nat, at: seq<nat>, ids: seq<CallId>)
    requires from < |output| && output[from].Call? && CallsFrom(output, from + 1, at, ids)
    ensures CallsFrom(output, from, [from] + at, [output[from].call.id] + ids)
  {
  }

  lemma IdsFirst(call: ToolCall, calls: seq<ToolCall>)
    ensures IdsOf([call] + calls) == [call.id] + IdsOf(calls)
  {
  }

  lemma {:induction false} NoCalls(output: seq<Item>)
    ensures CallsOf(output) == [] <==> forall i | 0 <= i < |output| :: !output[i].Call?
    decreases |output|
  {
    if output != [] {
      NoCalls(output[1..]);
      assert forall i | 0 < i < |output| :: output[i] == output[1..][i - 1];
    }
  }

  // ---------------------------------------------------------------- a turn and its replies

  // The file after a write: the whole history, or as it was.
  predicate Written(s: Session, t: Session, io: Io) {
    t.saved == if io.Lands() then Some(Image(t.messages, t.pending, t.reviews.records)) else s.saved
  }

  // A turn that starts adds the author's text to the history and saves it.
  lemma TurnText(s: Session, turn: Turn, text: string, io: Io)
    requires Allowed(s, DoStartTurn(turn, text, io)) && MayBegin(NewTurn(s.reviews, turn))
    ensures var t := Next(s, DoStartTurn(turn, text, io));
      && t.messages == s.messages + [Message(User, text, None)] && t.pending == s.pending && t.steering == s.steering
      && Written(s, t, io) && t.phase == if io.Raises() then Wedged else Thinking(0)
  {
  }

  // The assistant's text, if it has one, as one message of the history.
  predicate Says(items: seq<Item>, text: string) {
    if text == "" then items == [] else |items| == 1 && items[0] == Message(Assistant, text, None)
  }

  // Author texts, each as one message, in order.
  predicate Quotes(items: seq<Item>, texts: seq<string>) {
    |items| == |texts| && forall k | 0 <= k < |texts| :: items[k] == Message(User, texts[k], None)
  }

  // Steering replaces the calls of a reply: its text stays, every steering text follows once,
  // in order, and the model is asked again.
  lemma SteeringText(s: Session, a: Step) returns (said: seq<Item>, notes: seq<Item>)
    requires a.DoReply? && Allowed(s, a) && s.steering != []
    ensures Says(said, FinalText(a.output)) && Quotes(notes, s.steering)
    ensures var t := Next(s, a);
      && t.messages == s.messages + said + notes && t.steering == [] && t.pending == s.pending
      && t.reviews == s.reviews && t.handed == s.handed && Written(s, t, a.io)
      && t.phase == if a.io.Raises() || s.phase.round + 1 >= ROUNDS then Unwinding else Thinking(s.phase.round + 1)
  {
    said, notes := Answer(FinalText(a.output)), Notes(s.steering);
  }

  // A final reply adds exactly its messages, in order, and saves them.
  lemma FinalReply(s: Session, a: Step) returns (at: seq<nat>, picked: seq<Item>)
    requires a.DoReply? && Allowed(s, a) && s.steering == [] && a.schemaOk
    requires forall i | 0 <= i < |a.output| :: !a.output[i].Call?
    requires exists i :: 0 <= i < |a.output| && a.output[i].Message? && a.output[i].text != ""
    ensures PicksMessages(a.output, at, picked)
    ensures var t := Next(s, a);
      && t.messages == s.messages + picked && t.pending == s.pending && t.reviews == s.reviews
      && t.handed == s.handed && Written(s, t, a.io) && t.phase == Unwinding
  {
    NoCalls(a.output);
    HasText(a.output);
    picked := MessagesOf(a.output);
    at := MessagesPicked(a.output, 0);
    assert a.output[0..] == a.output;
  }

  // A reply without calls and without a usable text ends the turn and changes nothing else.
  lemma NoFinalReply(s: Session, a: Step)
    requires a.DoReply? && Allowed(s, a) && s.steering == []
    requires forall i | 0 <= i < |a.output| :: !a.output[i].Call?
    requires a.schemaOk ==> forall i | 0 <= i < |a.output| && a.output[i].Message? :: a.output[i].text == ""
    ensures Next(s, a) == s.(phase := Unwinding)
  {
    NoCalls(a.output);
    HasText(a.output);
  }

  // A batch whose calls are fine and whose expert calls are prepared enters the history as a
  // whole, its calls are pending in order, and only after that is saved is the first handed on.
  lemma BatchIs(s: Session, a: Step, r: State)
    requires a.DoReply? && Allowed(s, a) && s.steering == [] && CallsOf(a.output) != []
    requires CallsFine(s.messages, CallsOf(a.output), a.tools, a.delegates)
    requires PrepareAll(s.reviews, s.messages, CallsOf(a.output), a.kids, a.source, a.limit) == (r, true)
    ensures var b := s.(reviews := r, messages := s.messages + a.output, pending := IdsOf(CallsOf(a.output)));
      Next(s, a) == if a.io.Raises() then Save(b, a.io).(phase := Unwinding)
        else Hand(Save(b, a.io), s.phase.round, CallsOf(a.output), 0)
  {
  }

  lemma BatchText(s: Session, a: Step) returns (at: seq<nat>)
    requires a.DoReply? && Allowed(s, a) && s.steering == [] && CallsOf(a.output) != []
    requires CallsFine(s.messages, CallsOf(a.output), a.tools, a.delegates)
    requires PrepareAll(s.reviews, s.messages, CallsOf(a.output), a.kids, a.source, a.limit).1
    ensures var t := Next(s, a);
      && t.messages == s.messages + a.output && PicksCalls(a.output, at, t.pending) && at != []
      && Written(s, t, a.io)
      && t.handed == s.handed + if a.io.Raises() then [] else [t.pending[0]]
  {
    at := CallsPicked(a.output, 0);
    assert a.output[0..] == a.output;
    var r := PrepareAll(s.reviews, s.messages, CallsOf(a.output), a.kids, a.source, a.limit).0;
    BatchIs(s, a, r);
    var b := s.(reviews := r, messages := s.messages + a.output, pending := IdsOf(CallsOf(a.output)));
    HandText(Save(b, a.io), s.phase.round, CallsOf(a.output), 0);
  }

  // A batch that is refused leaves the history and the file alone.
  lemma RefusedBatch(s: Session, a: Step)
    requires a.DoReply? && Allowed(s, a) && s.steering == [] && CallsOf(a.output) != []
    requires !CallsFine(s.messages, CallsOf(a.output), a.tools, a.delegates)
      || !PrepareAll(s.reviews, s.messages, CallsOf(a.output), a.kids, a.source, a.limit).1
    ensures var t := Next(s, a);
      t.messages == s.messages && t.pending == s.pending && t.saved == s.saved && t.handed == s.handed
  {
  }

  // What stays when the next call is handed over, or a phase ends.
  predicate SameText(s: Session, t: Session) {
    && t.messages == s.messages && t.pending == s.pending && t.saved == s.saved && t.steering == s.steering
    && t.reviews.records == s.reviews.records
  }

  lemma HandText(s: Session, round: nat, calls: seq<ToolCall>, at: nat)
    requires at <= |calls|
    ensures SameText(s, Hand(s, round, calls, at))
  {
  }

  // A call's result enters the history under its id, as given, and leaves `pending`; its record
  // is dropped and all of that is saved.
  lemma ResultText(s: Session, data: Data, io: Io)
    requires Allowed(s, DoComplete(data, io)) && Distinct(s.pending)
    requires s.phase.calls[s.phase.at].id in s.pending && s.phase.calls[s.phase.at].id !in s.reviews.live
    ensures var t, id := Next(s, DoComplete(data, io)), s.phase.calls[s.phase.at].id;
      && t.messages == s.messages + [Output(id, data)]
      && (forall x :: x in t.pending <==> x in s.pending && x != id)
      && t.reviews.records == (map c | c in s.reviews.records && c != id :: s.reviews.records[c])
      && Written(s, t, io)
  {
    var id := s.phase.calls[s.phase.at].id;
    RemoveFirstElements(s.pending, id);
    var u := s.(messages := s.messages + [Output(id, data)], pending := RemoveFirst(s.pending, id),
                reviews := Finish(s.reviews, id));
    ResultSaved(s, data, io, u);
    HandText(Save(u, io), s.phase.round, s.phase.calls, s.phase.at + 1);
  }

  // The call at `at` was handed over, or the batch is done and the model is asked again, for
  // at most sixteen rounds.
  predicate HandedOn(s: Session, t: Session, round: nat, calls: seq<ToolCall>, at: nat)
    requires at <= |calls|
  {
    if at == |calls| then
      t.handed == s.handed && t.phase == if round + 1 < 16 then Thinking(round + 1) else Unwinding
    else
      && t.handed == s.handed + [calls[at].id]
      && (calls[at].name != DELEGATE ==> t.phase == Calling(round, calls, at))
      && (calls[at].name == DELEGATE ==> t.phase == Reviewing(round, calls, at, false) || t.phase == Unwinding)
  }

  // The next call of the batch is handed over once that was saved.
  lemma NextCall(s: Session, data: Data, io: Io)
    requires Allowed(s, DoComplete(data, io)) && !io.Raises()
    requires s.phase.calls[s.phase.at].id in s.pending && s.phase.calls[s.phase.at].id !in s.reviews.live
    ensures HandedOn(s, Next(s, DoComplete(data, io)), s.phase.round, s.phase.calls, s.phase.at + 1)
  {
    var id := s.phase.calls[s.phase.at].id;
    var u := s.(messages := s.messages + [Output(id, data)], pending := RemoveFirst(s.pending, id),
                reviews := Finish(s.reviews, id));
    ResultSaved(s, data, io, u);
    HandsOn(Save(u, io), s.phase.round, s.phase.calls, s.phase.at + 1);
  }

  lemma HandsOn(s: Session, round: nat, calls: seq<ToolCall>, at: nat)
    requires at <= |calls|
    ensures HandedOn(s, Hand(s, round, calls, at), round, calls, at)
  {
  }

  // Without a successful save nothing is handed over.
  lemma NoNextCall(s: Session, data: Data, io: Io)
    requires Allowed(s, DoComplete(data, io))
    requires io.Raises() || s.phase.calls[s.phase.at].id !in s.pending || s.phase.calls[s.phase.at].id in s.reviews.live
    ensures var t := Next(s, DoComplete(data, io)); t.handed == s.handed && t.phase == Unwinding
  {
  }

  lemma ResultSaved(s: Session, data: Data, io: Io, u: Session)
    requires Allowed(s, DoComplete(data, io))
    requires s.phase.calls[s.phase.at].id in s.pending && s.phase.calls[s.phase.at].id !in s.reviews.live
    requires var id := s.phase.calls[s.phase.at].id;
      u == s.(messages := s.messages + [Output(id, data)], pending := RemoveFirst(s.pending, id),
              reviews := Finish(s.reviews, id))
    ensures Next(s, DoComplete(data, io)) == if io.Raises() then Save(u, io).(phase := Unwinding)
      else Hand(Save(u, io), s.phase.round, s.phase.calls, s.phase.at + 1)
  {
  }

  // ---------------------------------------------------------------- experts and the file

  // A verdict of an expert is in the file as soon as its write lands.
  lemma VerdictWritten(s: Session, a: Step)
    requires Allowed(s, a) && a.DoExpertFinish? && WorkCounts(s.reviews, a.call, a.i)
    ensures var t := Next(s, a);
      && t.messages == s.messages && t.pending == s.pending && Written(s, t, a.io)
      && t.reviews == ExpertReviews.Apply(s.reviews, DoFinishWork(a.call, a.i, a.answer, !a.io.Raises()))
  {
  }

  // So is the outcome of the joint check, before it is announced.
  lemma CheckWritten(s: Session, a: Step)
    requires Allowed(s, a) && a.DoExpertsJudge? && !a.io.Raises()
    ensures var t, j := Next(s, a), ExpertReviews.Apply(s.reviews, DoJudge(Current(s), a.sourceSame));
      && t.messages == s.messages && t.pending == s.pending && Written(s, t, a.io)
      && ExpertReviews.Enabled(j, DoAnnounce(Current(s)))
      && t.reviews == ExpertReviews.Apply(j, DoAnnounce(Current(s)))
      && t.phase == Delivering(s.phase.round, s.phase.calls, s.phase.at)
  {
  }

  // ---------------------------------------------------------------- interrupted calls

  // A child as an interruption leaves it.
  function Stopped(child: Child): Child {
    if child.state.Terminal() then child else Child(child.id, child.expert, Cancelled, None, ProcessInterrupted)
  }

  predicate StoppedRecord(was: Record, now: Record) {
    && now.parentTurn == was.parentTurn && now.source == was.source && |now.children| == |was.children|
    && forall i | 0 <= i < |was.children| :: now.children[i] == Stopped(was.children[i])
  }

  // One result per pending expert call, in the order of `pending`, with its record as the
  // interruption leaves it.
  predicate Interrupts(pending: seq<CallId>, r: Records, at: seq<nat>, results: seq<Item>) {
    && |results| == |at| && Increasing(at)
    && (forall i: nat | i < |pending| :: pending[i] in r <==> i in at)
    && forall k | 0 <= k < |at| ::
      && at[k] < |pending| && pending[at[k]] in r && results[k].Output? && results[k].id == pending[at[k]]
      && results[k].data.Interruption? && StoppedRecord(r[pending[at[k]]], results[k].data.record)
  }

  lemma {:induction false} KeptPicked(pending: seq<CallId>, keys: set<CallId>, from: nat) returns (at: seq<nat>)
    requires from <= |pending|
    ensures |at| == |Kept(pending[from..], keys)| && Increasing(at)
    ensures forall k | 0 <= k < |at| :: from <= at[k] < |pending| && Kept(pending[from..], keys)[k] == pending[at[k]]
    ensures forall i: nat | from <= i < |pending| :: pending[i] in keys <==> i in at
    decreases |pending| - from
  {
    at := [];
    if from < |pending| {
      assert pending[from..][1..] == pending[from + 1..];
      at := KeptPicked(pending, keys, from + 1);
      if pending[from] in keys { at := [from] + at; }
    }
  }

  lemma SettledRecords(s: Session)
    ensures var r := Settled(s).reviews.records;
      && (forall c :: c in r <==> c in s.reviews.records && c in s.pending)
      && forall c | c in r :: StoppedRecord(s.reviews.records[c], r[c])
  {
  }

  // Settling, when no write raises: the results after the history, all of it saved.
  lemma SettledText(s: Session, first: Io, second: Io)
    requires !SettleRaises(first, second)
    ensures var t, r := SettleInterrupted(s, first, second), Settled(s).reviews.records;
      && t.messages == s.messages + Outputs(Kept(s.pending, r.Keys), r)
      && t.reviews.records == map[] && t.phase == s.phase
      && t.saved == Some(Image(t.messages, t.pending, map[]))
  {
  }

  lemma UnwindIs(s: Session, first: Io, second: Io)
    requires s.phase.Unwinding? && s.reviews.records != map[]
    ensures Next(s, DoUnwind(first, second)) == TurnOver(SettleInterrupted(s, first, second))
  {
  }

  lemma EndedText(s: Session)
    ensures SameText(s, TurnOver(s))
  {
  }

  lemma Picked(pending: seq<CallId>, was: Records, r: Records) returns (at: seq<nat>)
    requires forall c :: c in r <==> c in was && c in pending
    requires forall c | c in r :: StoppedRecord(was[c], r[c])
    ensures Interrupts(pending, was, at, Outputs(Kept(pending, r.Keys), r))
  {
    at := KeptPicked(pending, r.Keys, 0);
    assert pending[0..] == pending;
  }

  // When a turn ends with expert calls unfinished, each gets one result that reports its record
  // with every undecided child cancelled, and that is saved.
  lemma InterruptedText(s: Session, first: Io, second: Io) returns (at: seq<nat>, results: seq<Item>)
    requires s.phase.Unwinding? && s.reviews.records != map[] && !SettleRaises(first, second)
    ensures Interrupts(s.pending, s.reviews.records, at, results)
    ensures var t := Next(s, DoUnwind(first, second)); t.messages == s.messages + results && Written(s, t, second)
  {
    UnwindIs(s, first, second);
    EndedText(SettleInterrupted(s, first, second));
    SettledText(s, first, second);
    SettledRecords(s);
    var r := Settled(s).reviews.records;
    at := Picked(s.pending, s.reviews.records, r);
    results := Outputs(Kept(s.pending, r.Keys), r);
  }

  lemma ReopenIs(s: Session, first: Io, second: Io)
    requires s.phase.Down? && s.saved.Some? && Accepted(s.saved.value)
    ensures Next(s, DoReopen(first, second)) == Restored(s, s.saved.value, first, second)
  {
  }

  lemma RestoredIs(s: Session, image: Image, first: Io, second: Io)
    requires !SettleRaises(first, second) && image.records != map[]
    ensures var t, u := Restored(s, image, first, second), SettleInterrupted(Loaded(s, image), first, second);
      t.messages == u.messages && t.phase == u.phase
  {
  }

  lemma RestoredText(s: Session, image: Image, first: Io, second: Io) returns (at: seq<nat>, results: seq<Item>)
    requires !SettleRaises(first, second) && image.records != map[]
    requires forall c | c in image.records :: c in image.pending
    ensures Interrupts(image.pending, image.records, at, results)
    ensures var t := Restored(s, image, first, second); t.messages == image.messages + results && t.phase == Idle
  {
    var u := Loaded(s, image);
    RestoredIs(s, image, first, second);
    SettledText(u, first, second);
    SettledRecords(u);
    var r := Settled(u).reviews.records;
    at := Picked(image.pending, image.records, r);
    results := Outputs(Kept(image.pending, r.Keys), r);
  }

  lemma RecordsPending(image: Image)
    requires Accepted(image)
    ensures forall c | c in image.records :: c in image.pending
  {
    assert forall c | c in image.records :: RecordAccepted(image, c, image.records[c]);
  }

  // A reopened session goes on with the history of the file, its unfinished expert calls
  // answered in the same way.
  lemma ReopenedText(s: Session, image: Image, first: Io, second: Io) returns (at: seq<nat>, results: seq<Item>)
    requires s.phase.Down? && s.saved == Some(image) && Accepted(image) && !SettleRaises(first, second)
    ensures Interrupts(image.pending, image.records, at, results)
    ensures var t := Next(s, DoReopen(first, second)); t.messages == image.messages + results && t.phase == Idle
  {
    ReopenIs(s, first, second);
    if image.records == map[] {
      at, results := [], [];
    } else {
      RecordsPending(image);
      at, results := RestoredText(s, image, first, second);
    }
  }

  // ---------------------------------------------------------------- every run

  // The author's texts in a history.
  function UserTexts(messages: seq<Item>): seq<string> {
    if messages == [] then []
    else
      var last := messages[|messages| - 1];
      UserTexts(messages[..|messages| - 1]) + (if last.Message? && last.role.User? then [last.text] else [])
  }

  // Those in the history and those that wait for the next reply.
  function Texts(s: Session): multiset<string> {
    multiset(UserTexts(s.messages)) + multiset(s.steering)
  }

  // What the author says to a session in one step: the text of a turn that starts, a message
  // that steers it.
  function Said(s: Session, a: Step): multiset<string> {
    match a
    case DoStartTurn(turn, text, _) => if MayBegin(NewTurn(s.reviews, turn)) then multiset{text} else multiset{}
    case DoSteer(text) => multiset{text}
    case _ => multiset{}
  }

  ghost function SaidIn(s: Session, steps: seq<Step>): multiset<string>
    decreases |steps|
  {
    if steps == [] || !Allowed(s, steps[0]) then multiset{}
    else Said(s, steps[0]) + SaidIn(Next(s, steps[0]), steps[1..])
  }

  // The model speaks for itself, and the process lives on.
  predicate Speaks(a: Step) {
    && !a.DoCrash? && !a.DoReopen?
    && (a.DoReply? ==> forall i | 0 <= i < |a.output| && a.output[i].Message? :: a.output[i].role.Assistant?)
  }

  lemma {:induction false} TextsJoin(m: seq<Item>, n: seq<Item>)
    ensures UserTexts(m + n) == UserTexts(m) + UserTexts(n)
    decreases |n|
  {
    if n == [] {
      assert m + n == m;
    } else {
      var init := n[..|n| - 1];
      TextsJoin(m, init);
      assert (m + n)[..|m + n| - 1] == m + init;
    }
  }

  lemma {:induction false} NoTexts(n: seq<Item>)
    requires forall i | 0 <= i < |n| :: !(n[i].Message? && n[i].role.User?)
    ensures UserTexts(n) == []
    decreases |n|
  {
    if n != [] { NoTexts(n[..|n| - 1]); }
  }

  lemma {:induction false} NotesTexts(texts: seq<string>)
    ensures UserTexts(Notes(texts)) == texts
    decreases |texts|
  {
    if texts != [] {
      var init := texts[..|texts| - 1];
      NotesTexts(init);
      assert Notes(texts)[..|texts| - 1] == Notes(init);
      assert texts == init + [texts[|texts| - 1]];
    }
  }

  // New items without an author text.
  lemma QuietText(s: Session, t: Session, more: seq<Item>)
    requires t.messages == s.messages + more && t.steering == s.steering
    requires forall i | 0 <= i < |more| :: !(more[i].Message? && more[i].role.User?)
    ensures Texts(t) == Texts(s)
  {
    TextsJoin(s.messages, more);
    NoTexts(more);
  }

  lemma OneText(text: string)
    ensures UserTexts([Message(User, text, None)]) == [text]
  {
    assert [Message(User, text, None)][..0] == [];
  }

  lemma TurnTexts(s: Session, a: Step)
    requires Allowed(s, a) && a.DoStartTurn?
    ensures Texts(Next(s, a)) == Texts(s) + Said(s, a)
  {
    if MayBegin(NewTurn(s.reviews, a.turn)) {
      TurnText(s, a.turn, a.text, a.io);
      TextsJoin(s.messages, [Message(User, a.text, None)]);
      OneText(a.text);
    } else {
      NoTurnText(s, a);
    }
  }

  lemma NoTurnText(s: Session, a: Step)
    requires Allowed(s, a) && a.DoStartTurn? && !MayBegin(NewTurn(s.reviews, a.turn))
    ensures Next(s, a).messages == s.messages && Next(s, a).steering == s.steering
  {
  }

  lemma SteerTexts(s: Session, a: Step)
    requires Allowed(s, a) && a.DoReply? && s.steering != []
    ensures Texts(Next(s, a)) == Texts(s)
  {
    var said, notes := SteeringText(s, a);
    assert notes == Notes(s.steering);
    NoTexts(said);
    NotesTexts(s.steering);
    TextsJoin(s.messages, said);
    TextsJoin(s.messages + said, notes);
  }

  lemma ReplyTexts(s: Session, a: Step)
    requires Allowed(s, a) && a.DoReply? && Speaks(a)
    ensures Texts(Next(s, a)) == Texts(s)
  {
    if s.steering != [] {
      SteerTexts(s, a);
    } else {
      var more := ReplyAdds(s, a);
      QuietText(s, Next(s, a), more);
    }
  }

  lemma ReplyAdds(s: Session, a: Step) returns (more: seq<Item>)
    requires Allowed(s, a) && a.DoReply? && s.steering == []
    ensures Next(s, a).messages == s.messages + more && Next(s, a).steering == s.steering
    ensures forall i | 0 <= i < |more| :: more[i] in a.output
  {
    more := [];
    var calls := CallsOf(a.output);
    if calls == [] {
      if FinalText(a.output) != "" && a.schemaOk {
        more := MessagesOf(a.output);
        var at := MessagesPicked(a.output, 0);
        assert a.output[0..] == a.output;
      }
    } else if CallsFine(s.messages, calls, a.tools, a.delegates)
      && PrepareAll(s.reviews, s.messages, calls, a.kids, a.source, a.limit).1 {
      var at := BatchText(s, a);
      more := a.output;
      BatchSteering(s, a);
    } else {
      RefusedBatch(s, a);
      BatchSteering(s, a);
    }
  }

  lemma BatchSteering(s: Session, a: Step)
    requires Allowed(s, a) && a.DoReply? && s.steering == [] && CallsOf(a.output) != []
    ensures Next(s, a).steering == []
  {
  }

  // Settling adds results only.
  lemma SettleAdds(s: Session, first: Io, second: Io) returns (more: seq<Item>)
    ensures var t := SettleInterrupted(s, first, second);
      t.messages == s.messages + more && t.steering == s.steering
    ensures forall i | 0 <= i < |more| :: more[i].Output?
  {
    var r := Settled(s).reviews.records;
    more := if first.Raises() then [] else Outputs(Kept(s.pending, r.Keys), r);
  }

  lemma StopTexts(s: Session, a: Step)
    requires Allowed(s, a) && (a.DoInterrupt? || a.DoUnwind? || a.DoExpertsAbort?)
    ensures Texts(Next(s, a)) == Texts(s)
  {
    var more := SettleAdds(s, a.first, a.second);
    var t := Next(s, a);
    if t.messages == s.messages + more { QuietText(s, t, more); } else { QuietText(s, t, []); }
  }

  lemma JudgeTexts(s: Session, a: Step)
    requires Allowed(s, a) && a.DoExpertsJudge?
    ensures Texts(Next(s, a)) == Texts(s)
  {
    var s1 := Save(s.(reviews := Judge(s.reviews, Current(s), a.sourceSame)), a.io);
    var more := SettleAdds(s1, a.first, a.second);
    QuietText(s, Next(s, a), if a.io.Raises() then more else []);
  }

  lemma CompleteTexts(s: Session, a: Step)
    requires Allowed(s, a) && a.DoComplete?
    ensures Texts(Next(s, a)) == Texts(s)
  {
    QuietText(s, Next(s, a), [Output(s.phase.calls[s.phase.at].id, a.data)]);
  }

  lemma WorkTexts(s: Session, a: Step)
    requires Allowed(s, a)
    requires a.DoExpertStart? || a.DoExpertFinish? || a.DoExpertDrop? || a.DoExpertsLeave? || a.DoFail?
    ensures Next(s, a).messages == s.messages && Next(s, a).steering == s.steering
  {
  }

  lemma StepTexts(s: Session, a: Step)
    requires Allowed(s, a) && Speaks(a)
    ensures Texts(Next(s, a)) == Texts(s) + Said(s, a)
  {
    match a {
      case DoStartTurn(_, _, _) => TurnTexts(s, a);
      case DoReply(_, _, _, _, _, _, _, _) => ReplyTexts(s, a);
      case DoComplete(_, _) => CompleteTexts(s, a);
      case DoExpertsJudge(_, _, _, _) => JudgeTexts(s, a);
      case DoSteer(_) =>
      case DoInterrupt(_, _) => StopTexts(s, a);
      case DoUnwind(_, _) => StopTexts(s, a);
      case DoExpertsAbort(_, _) => StopTexts(s, a);
      case _ => WorkTexts(s, a);
    }
  }

  // Over every run of one process, each text of the author is in the history once, or still
  // waits for the next reply; nothing else is in the author's name.
  lemma {:induction false} TextsConserved(s: Session, steps: seq<Step>, t: Session)
    requires Runs(s, steps, t) && forall k | 0 <= k < |steps| :: Speaks(steps[k])
    ensures Texts(t) == Texts(s) + SaidIn(s, steps)
    decreases |steps|
  {
    if steps != [] {
      StepTexts(s, steps[0]);
      assert forall k | 0 <= k < |steps[1..]| :: steps[1..][k] == steps[k + 1];
      TextsConserved(Next(s, steps[0]), steps[1..], t);
    }
  }
}
