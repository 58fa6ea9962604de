// What the bounded repair compares and how far it looks (lg_cli/anthropic_bridge.py,
// `_argument_scalars` and `repair_tool_arguments`).
module RepairMeaning {
  import opened Prelude
  import opened Wire
  import opened RepairSearch

  // ---------------------------------------------------------------- scalars

  predicate Punctuation(c: char) {
    c in {' ', '\t', '\r', '\n', '{', '}', '[', ']', ',', ':'}
  }

  // A key or a scalar of a text: its part [start, end) and its value.
  datatype Token = Token(start: nat, end: nat, value: Json)

  predicate OnlyPunctuation(text: string, from: nat, to: nat) {
    from <= to <= |text| && forall k | from <= k < to :: Punctuation(text[k])
  }

  // What the decoder reads at its start, neither a container nor a number that is not finite.
  predicate Genuine(lab: Lab, text: string, token: Token) {
    && token.start < token.end <= |text|
    && !Punctuation(text[token.start])
    && lab.decode(text, token.start) == Some((token.value, token.end))
    && !token.value.Array? && !token.value.Object? && !token.value.NonFinite?
  }

  // The text from an offset on is these tokens, with nothing but punctuation before, between
  // and behind them.
  predicate Consists(lab: Lab, text: string, from: nat, tokens: seq<Token>)
    decreases |tokens|
  {
    if tokens == [] then OnlyPunctuation(text, from, |text|)
    else
      && OnlyPunctuation(text, from, tokens[0].start)
      && Genuine(lab, text, tokens[0])
      && Consists(lab, text, tokens[0].end, tokens[1..])
  }

  ghost predicate Lists(tokens: seq<Token>, values: seq<Json>) {
    |tokens| == |values| && forall k | 0 <= k < |values| :: tokens[k].value == values[k]
  }

  lemma MoreBefore(lab: Lab, text: string, from: nat, tokens: seq<Token>)
    requires from < |text| && Punctuation(text[from])
    ensures Consists(lab, text, from, tokens) <==> Consists(lab, text, from + 1, tokens)
  {
  }

  lemma {:induction false} Found(lab: Lab, text: string, from: nat) returns (tokens: seq<Token>)
    requires from <= |text| && ScalarsFrom(lab, text, from).Some?
    ensures Consists(lab, text, from, tokens) && Lists(tokens, ScalarsFrom(lab, text, from).value)
    decreases |text| - from
  {
    if from == |text| {
      return [];
    }
    if Between(text[from]) {
      tokens := Found(lab, text, from + 1);
      MoreBefore(lab, text, from, tokens);
    } else {
      var (value, end) := lab.decode(text, from).value;
      var rest := Found(lab, text, end);
      tokens := [Token(from, end, value)] + rest;
      assert tokens[1..] == rest;
    }
  }

  lemma {:induction false} OnlyOne(lab: Lab, text: string, from: nat, tokens: seq<Token>)
    requires from <= |text| && Consists(lab, text, from, tokens)
    ensures ScalarsFrom(lab, text, from).Some? && Lists(tokens, ScalarsFrom(lab, text, from).value)
    decreases |text| - from
  {
    if from < |text| {
      if Between(text[from]) {
        MoreBefore(lab, text, from, tokens);
        OnlyOne(lab, text, from + 1, tokens);
      } else {
        OnlyOne(lab, text, tokens[0].end, tokens[1..]);
      }
    }
  }

  // The scalars of a text are those of its tokens, and there are none exactly when the text is
  // too long or does not consist of such tokens.
  lemma ScalarsIff(lab: Lab, text: string, values: seq<Json>)
    ensures Scalars(lab, text) == Some(values) <==>
      |text| <= 1048576 && exists tokens :: Consists(lab, text, 0, tokens) && Lists(tokens, values)
  {
    if Scalars(lab, text) == Some(values) {
      var tokens := Found(lab, text, 0);
    }
    if tokens :| |text| <= 1048576 && Consists(lab, text, 0, tokens) && Lists(tokens, values) {
      OnlyOne(lab, text, 0, tokens);
      assert ScalarsFrom(lab, text, 0).value == values;
    }
  }

  // ---------------------------------------------------------------- edits

  // The text with one character of punctuation put in at an offset.
  predicate PutIn(s: string, at: nat, token: char, t: string) {
    && at <= |s|
    && |t| == |s| + 1
    && token in {',', ':', '{', '}', '[', ']'}
    && t[at] == token
    && t[..at] == s[..at]
    && t[at + 1..] == s[at..]
  }

  // The text without the punctuation at an offset.
  predicate TakenOut(s: string, at: nat, t: string) {
    && at < |s|
    && s[at] in {',', ':', '{', '}', '[', ']'}
    && |t| == |s| - 1
    && t[..at] == s[..at]
    && t[at..] == s[at + 1..]
  }

  // One edit: at the offset of the first error, which a parser gives within the text.
  ghost predicate Edit(lab: Lab, s: string, t: string) {
    && lab.parse(s).Fails?
    && lab.parse(s).at <= |s|
    && (TakenOut(s, lab.parse(s).at, t) || exists token :: PutIn(s, lab.parse(s).at, token, t))
  }

  // A parser reports errors within the text.
  ghost predicate ErrorsInside(lab: Lab) {
    forall s :: lab.parse(s).Fails? ==> lab.parse(s).at <= |s|
  }

  lemma PutsIn(s: string, at: nat, token: char)
    requires at <= |s| && token in {',', ':', '{', '}', '[', ']'}
    ensures PutIn(s, at, token, Inserted(s, at, token))
    ensures forall t :: PutIn(s, at, token, t) ==> t == Inserted(s, at, token)
  {
    forall t | PutIn(s, at, token, t)
      ensures t == Inserted(s, at, token)
    {
      assert t == t[..at] + [t[at]] + t[at + 1..];
    }
  }

  lemma TakesOut(s: string, at: nat)
    requires at < |s| && s[at] in {',', ':', '{', '}', '[', ']'}
    ensures TakenOut(s, at, s[..at] + s[at + 1..])
    ensures forall t :: TakenOut(s, at, t) ==> t == s[..at] + s[at + 1..]
  {
    forall t | TakenOut(s, at, t)
      ensures t == s[..at] + s[at + 1..]
    {
      assert t == t[..at] + t[at..];
    }
  }

  lemma EditsAre(lab: Lab, s: string, t: string)
    requires ErrorsInside(lab)
    ensures t in Next(lab, s) <==> Edit(lab, s, t)
  {
    if lab.parse(s).Fails? {
      var at := lab.parse(s).at;
      var six := seq(6, i requires 0 <= i < 6 => Inserted(s, at, TOKENS[i]));
      if t in six {
        var i :| 0 <= i < 6 && six[i] == t;
        PutsIn(s, at, TOKENS[i]);
      }
      if token :| PutIn(s, at, token, t) {
        PutsIn(s, at, token);
        assert TOKENS[0] == ',' && TOKENS[1] == ':' && TOKENS[2] == '{' && TOKENS[3] == '}';
        assert TOKENS[4] == '[' && TOKENS[5] == ']';
        var i :| 0 <= i < 6 && TOKENS[i] == token;
        assert six[i] == t;
      }
      if at < |s| && s[at] in TOKENS {
        TakesOut(s, at);
      }
    }
  }

  // The search looks at the text itself and at what one or two edits make of it, each at the
  // error then reported.
  lemma ReachIff(lab: Lab, raw: string, c: string)
    requires ErrorsInside(lab)
    ensures c in Reach(lab, raw) <==>
      c == raw || Edit(lab, raw, c) || exists m :: Edit(lab, raw, m) && Edit(lab, m, c)
  {
    EditsAre(lab, raw, c);
    if c in Twice(lab, raw) {
      var m :| m in Once(lab, raw) && c in Next(lab, m);
      EditsAre(lab, raw, m);
      EditsAre(lab, m, c);
    }
    if m :| Edit(lab, raw, m) && Edit(lab, m, c) {
      EditsAre(lab, raw, m);
      EditsAre(lab, m, c);
    }
  }

  // A candidate counts exactly when it parses to an object that fits the schema and whose
  // printed form has the scalars of the broken text.
  lemma AcceptsIff(lab: Lab, raw: string, c: string, value: Json, scalars: seq<Json>)
    requires Scalars(lab, raw) == Some(scalars)
    ensures Accepts(lab, raw, c) == Some(value) <==>
      && lab.parse(c) == Parsed(value)
      && value.Object?
      && lab.fits(value)
      && |lab.dump(value)| <= 1048576
      && exists tokens :: Consists(lab, lab.dump(value), 0, tokens) && Lists(tokens, scalars)
  {
    ScalarsIff(lab, lab.dump(value), scalars);
  }
}
