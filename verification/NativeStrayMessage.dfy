// The condition of NativeCheckpointSafe.SavedIsAccepted is needed: one reply with a
// message that carries the id of the reply's own expert call is saved, and the strict
// reader refuses that checkpoint for ever.
module NativeStrayMessage {
  import opened Prelude
  import opened ExpertReviews
  import opened Checkpoint
  import opened NativeSession

  const ASKED: ToolCall := ToolCall("c", DELEGATE, ["reader"])
  const REPLY: seq<Item> := [Message(Assistant, "note", Some("c")), Call(ASKED)]
  const OPEN: Step := DoReopen(Stored, Stored)
  const START: Step := DoStartTurn("t", "go", Stored)
  const ANSWER: Step := DoReply(REPLY, true, {}, true, [["k"]], "src", 2, Stored)

  lemma ReplyCalls()
    ensures CallsOf(REPLY) == [ASKED]
  {
    assert REPLY[1..] == [Call(ASKED)] && [Call(ASKED)][1..] == [];
    assert CallsOf([Call(ASKED)]) == [ASKED] + CallsOf([]);
    assert CallsOf(REPLY) == [] + CallsOf([Call(ASKED)]);
  }

  function Started(): Session {
    StartTurn(FIRST.(phase := Idle), "t", "go", Stored)
  }

  // A turn that has just begun.
  ghost predicate Begun(s: Session) {
    && s.phase == Thinking(0) && s.messages == [Message(User, "go", None)] && s.steering == []
    && s.reviews.records == map[] && s.reviews.live == {} && s.reviews.tasks == map[]
    && s.reviews.parent == Some("t")
    && MayPrepare(s.reviews, "c", ["reader"]) && FreshIds(s.reviews, ["reader"], ["k"])
  }

  lemma StartedIs()
    ensures Begun(Started())
  {
    assert Elements(["reader"]) == {"reader"};
  }

  lemma Prepares(r: State, m: seq<Item>)
    requires MayPrepare(r, "c", ["reader"]) && FreshIds(r, ["reader"], ["k"]) && m == [Message(User, "go", None)]
    ensures KidsFresh(r, m, [ASKED], [["k"]], "src")
    ensures PrepareAll(r, m, [ASKED], [["k"]], "src", 2) == (Prepare(r, "c", ["reader"], ["k"], "src"), true)
  {
    assert [ASKED][1..] == [] && [["k"]][1..] == [];
    assert !Mentioned(m, "c");
  }

  // The history after the reply names the call twice.
  lemma NamedTwice(m: seq<Item>)
    requires m == [Message(User, "go", None)] + REPLY
    ensures ItemsOf(m, "c") == REPLY
  {
    assert m[..2] == [Message(User, "go", None), REPLY[0]];
    assert m[..2][..1] == [Message(User, "go", None)];
    assert m[..2][..1][..0] == [];
    assert ItemsOf(m[..2][..1], "c") == [];
    assert ItemsOf(m[..2], "c") == [REPLY[0]];
  }

  // What the reply leaves in the file.
  function Written(s: Session): Image
    requires MayPrepare(s.reviews, "c", ["reader"])
  {
    Image(s.messages + REPLY, IdsOf([ASKED]), Prepare(s.reviews, "c", ["reader"], ["k"], "src").records)
  }

  // A reply with that one call is saved before the call is handed over.
  lemma OneCall(s: Session, output: seq<Item>, r: State)
    requires s.phase == Thinking(0) && s.steering == [] && CallsOf(output) == [ASKED]
    requires CallsFine(s.messages, [ASKED], {}, true)
    requires PrepareAll(s.reviews, s.messages, [ASKED], [["k"]], "src", 2) == (r, true)
    ensures var b := s.(reviews := r, messages := s.messages + output, pending := IdsOf([ASKED]));
      Reply(s, output, true, {}, true, [["k"]], "src", 2, Stored) == Hand(Save(b, Stored), 0, [ASKED], 0)
  {
  }

  lemma AnswerIs(s: Session, r: State)
    requires Begun(s) && r == Prepare(s.reviews, "c", ["reader"], ["k"], "src")
    ensures Allowed(s, ANSWER)
    ensures var b := s.(reviews := r, messages := s.messages + REPLY, pending := IdsOf([ASKED]));
      Next(s, ANSWER) == Hand(Save(b, Stored), 0, [ASKED], 0)
  {
    ReplyCalls();
    Prepares(s.reviews, s.messages);
    OneCall(s, REPLY, r);
  }

  lemma ReplySaves(s: Session)
    requires Begun(s)
    ensures Allowed(s, ANSWER) && Next(s, ANSWER).saved == Some(Written(s))
  {
    AnswerIs(s, Prepare(s.reviews, "c", ["reader"], ["k"], "src"));
  }

  lemma ReplyRefused(s: Session) returns (t: Session)
    requires Begun(s)
    ensures Allowed(s, ANSWER) && t == Next(s, ANSWER)
    ensures t.saved.Some? && !Accepted(t.saved.value)
  {
    ReplySaves(s);
    t := Next(s, ANSWER);
    WrittenRefused(s);
  }

  lemma WrittenRefused(s: Session)
    requires s.messages == [Message(User, "go", None)] && MayPrepare(s.reviews, "c", ["reader"])
    ensures !Accepted(Written(s))
  {
    var image := Written(s);
    NamedTwice(image.messages);
    assert "c" in image.records && !RecordAccepted(image, "c", image.records["c"]);
  }

  lemma StrayRefused() returns (t: Session)
    ensures Runs(FIRST, [OPEN, START, ANSWER], t)
    ensures t.saved.Some? && !Accepted(t.saved.value)
  {
    StartedIs();
    t := ReplyRefused(Started());
    RunsAre(FIRST, OPEN, START, ANSWER, t);
  }

  lemma RunsAre(s: Session, a: Step, b: Step, c: Step, t: Session)
    requires Allowed(s, a) && Allowed(Next(s, a), b) && Allowed(Next(Next(s, a), b), c)
    requires t == Next(Next(Next(s, a), b), c)
    ensures Runs(s, [a, b, c], t)
  {
    assert [a, b, c][1..] == [b, c] && [b, c][1..] == [c] && [c][1..] == [];
    assert Runs(Next(Next(s, a), b), [c], t);
    assert Runs(Next(s, a), [b, c], t);
  }
}
