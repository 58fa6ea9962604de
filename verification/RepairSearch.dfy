// The bounded repair of tool arguments in lg_cli/anthropic_bridge.py,
// `repair_tool_arguments` and `_argument_scalars`. Parsing, printing and schema
// validation of JSON are functions of the laboratory; a parser gives a value or the
// offset of its first error.
module RepairSearch {
  import opened Prelude
  import opened Wire

  datatype Parse = Parsed(value: Json) | Fails(at: nat)

  datatype Lab = Lab(
    parse: string -> Parse,
    // one JSON value at an offset, and the offset after it
    decode: (string, nat) -> Option<(Json, nat)>,
    dump: Json -> string,
    canon: Json -> string,
    fits: Json -> bool
  )

  const RAW_LIMIT := 65536
  const SCALAR_LIMIT := 1024 * 1024
  const TOKENS := ",:{}[]"

  // ---------------------------------------------------------------- scalars

  predicate Between(c: char) {
    c in " \t\r\n{}[],:"
  }

  predicate Scalar(value: Json) {
    !value.Array? && !value.Object? && !value.NonFinite?
  }

  // The keys and scalars from an offset on. A decoder always moves on.
  function ScalarsFrom(lab: Lab, text: string, at: nat): Option<seq<Json>>
    requires at <= |text|
    decreases |text| - at
  {
    if at == |text| then Some([])
    else if Between(text[at]) then ScalarsFrom(lab, text, at + 1)
    else match lab.decode(text, at)
      case None => None
      case Some((value, end)) =>
        if end <= at || end > |text| || !Scalar(value) then None
        else match ScalarsFrom(lab, text, end)
          case None => None
          case Some(rest) => Some([value] + rest)
  }

  function Scalars(lab: Lab, text: string): Option<seq<Json>> {
    if |text| > SCALAR_LIMIT then None else ScalarsFrom(lab, text, 0)
  }

  method ArgumentScalars(lab: Lab, text: string) returns (scalars: Option<seq<Json>>)
    ensures scalars == Scalars(lab, text)
  {
    if |text| > SCALAR_LIMIT {
      return None;
    }
    var result: seq<Json> := [];
    var position := 0;
    ghost var whole := ScalarsFrom(lab, text, 0);
    if whole.Some? { assert [] + whole.value == whole.value; }
    while position < |text|
      invariant position <= |text|
      invariant ScalarsFrom(lab, text, 0) ==
        match ScalarsFrom(lab, text, position) case None => None case Some(rest) => Some(result + rest)
    {
      if Between(text[position]) {
        position := position + 1;
      } else {
        var decoded := lab.decode(text, position);
        if decoded.None? || decoded.value.1 <= position || decoded.value.1 > |text| || !Scalar(decoded.value.0) {
          return None;
        }
        ghost var rest := ScalarsFrom(lab, text, decoded.value.1);
        if rest.Some? { assert result + ([decoded.value.0] + rest.value) == result + [decoded.value.0] + rest.value; }
        result := result + [decoded.value.0];
        position := decoded.value.1;
      }
    }
    assert result + [] == result;
    return Some(result);
  }

  // ---------------------------------------------------------------- candidates

  function Min(a: nat, b: nat): nat {
    if a < b then a else b
  }

  function Inserted(s: string, at: nat, token: char): string {
    s[..Min(at, |s|)] + [token] + s[Min(at, |s|)..]
  }

  // One punctuation token inserted at the error, or the one there removed.
  function Variants(s: string, at: nat): (variants: seq<string>)
    ensures |variants| <= 7
  {
    seq(6, i requires 0 <= i < 6 => Inserted(s, at, TOKENS[i])) +
    (if at < |s| && s[at] in TOKENS then [s[..at] + s[at + 1..]] else [])
  }

  function Next(lab: Lab, s: string): seq<string> {
    match lab.parse(s)
    case Parsed(_) => []
    case Fails(at) => Variants(s, at)
  }

  function Once(lab: Lab, raw: string): set<string> {
    Elements(Next(lab, raw))
  }

  function Twice(lab: Lab, raw: string): set<string> {
    set c, v | c in Once(lab, raw) && v in Next(lab, c) :: v
  }

  // Everything at most two edits away, each edit at the reported error.
  function Reach(lab: Lab, raw: string): set<string> {
    {raw} + Once(lab, raw) + Twice(lab, raw)
  }

  function Accepts(lab: Lab, raw: string, c: string): Option<Json> {
    match lab.parse(c)
    case Fails(_) => None
    case Parsed(v) =>
      if v.Object? && lab.fits(v) && Scalars(lab, lab.dump(v)) == Scalars(lab, raw) then Some(v) else None
  }

  // A value whose printed form has no readable scalars makes the repair fail.
  predicate Readable(lab: Lab, c: string) {
    lab.parse(c).Parsed? ==> Scalars(lab, lab.dump(lab.parse(c).value)).Some?
  }

  lemma {:induction false} ElementsAtMost<T>(s: seq<T>)
    ensures |Elements(s)| <= |s|
  {
    if s != [] {
      var init := s[..|s| - 1];
      ElementsAtMost(init);
      assert Elements(s) == Elements(init) + {s[|s| - 1]};
    }
  }

  function TwiceFrom(lab: Lab, from: set<string>): set<string> {
    set c, v | c in from && v in Next(lab, c) :: v
  }

  lemma {:induction false} TwiceAtMost(lab: Lab, from: set<string>)
    ensures |TwiceFrom(lab, from)| <= 7 * |from|
    decreases from
  {
    if from != {} {
      var c :| c in from;
      TwiceAtMost(lab, from - {c});
      ElementsAtMost(Next(lab, c));
      assert TwiceFrom(lab, from) == TwiceFrom(lab, from - {c}) + Elements(Next(lab, c));
    }
  }

  lemma ReachIsSmall(lab: Lab, raw: string)
    ensures |Reach(lab, raw)| <= 57
  {
    ElementsAtMost(Next(lab, raw));
    TwiceAtMost(lab, Once(lab, raw));
    assert Twice(lab, raw) == TwiceFrom(lab, Once(lab, raw));
  }

  // ---------------------------------------------------------------- the search

  function Strings(pending: seq<(string, nat)>): set<string> {
    set i | 0 <= i < |pending| :: pending[i].0
  }

  ghost predicate Apart(pending: seq<(string, nat)>) {
    forall i, j | 0 <= i < j < |pending| :: pending[i].0 != pending[j].0
  }

  // A pending candidate carries the least number of edits that leads to it.
  ghost predicate Counted(lab: Lab, raw: string, pending: seq<(string, nat)>) {
    forall i | 0 <= i < |pending| ::
      var (c, edits) := pending[i];
      && (edits == 0 ==> c == raw)
      && (edits == 1 ==> c in Once(lab, raw) && c != raw)
      && (edits >= 2 ==> edits == 2 && c in Twice(lab, raw) && c !in Once(lab, raw) && c != raw)
  }

  // Expanding a tried candidate has put everything next to it into `seen`.
  ghost predicate Expanded(lab: Lab, raw: string, tried: set<string>, seen: set<string>) {
    forall c, v | c in tried && (c == raw || c in Once(lab, raw)) && v in Next(lab, c) :: v in seen
  }

  lemma NothingMissed(lab: Lab, raw: string, tried: set<string>)
    requires raw in tried && Expanded(lab, raw, tried, tried)
    ensures Reach(lab, raw) <= tried
  {
    forall v | v in Once(lab, raw)
      ensures v in tried
    {
      assert v in Next(lab, raw);
    }
  }

  ghost predicate Unique(lab: Lab, raw: string, v: Json) {
    && (exists c :: c in Reach(lab, raw) && Accepts(lab, raw, c) == Some(v))
    && forall c | c in Reach(lab, raw) && Accepts(lab, raw, c).Some? ::
       lab.canon(Accepts(lab, raw, c).value) == lab.canon(v)
  }

  // What was accepted among the tried candidates, by canonical text.
  ghost predicate Collected(lab: Lab, raw: string, tried: set<string>, valid: map<string, Json>) {
    && (forall c | c in tried && Accepts(lab, raw, c).Some? :: lab.canon(Accepts(lab, raw, c).value) in valid)
    && forall k | k in valid ::
       k == lab.canon(valid[k]) && exists c :: c in tried && Accepts(lab, raw, c) == Some(valid[k])
  }

  // All new variants are pushed, in order, with one more edit.
  method Push(pending: seq<(string, nat)>, seen: set<string>, variants: seq<string>, edits: nat)
    returns (more: seq<(string, nat)>, known: set<string>)
    requires Apart(pending) && Strings(pending) <= seen
    ensures Apart(more) && known == seen + Elements(variants) && |more| >= |pending| && more[..|pending|] == pending
    ensures forall i | |pending| <= i < |more| :: more[i].0 in variants && more[i].0 !in seen && more[i].1 == edits
    ensures Strings(more) == Strings(pending) + (Elements(variants) - seen)
  {
    more, known := pending, seen;
    for k := 0 to |variants|
      invariant Apart(more) && known == seen + Elements(variants[..k]) && |more| >= |pending|
      invariant more[..|pending|] == pending
      invariant forall i | |pending| <= i < |more| :: more[i].0 in variants && more[i].0 !in seen && more[i].1 == edits
      invariant Strings(more) == Strings(pending) + (Elements(variants[..k]) - seen)
    {
      assert Elements(variants[..k + 1]) == Elements(variants[..k]) + {variants[k]};
      if variants[k] !in known {
        PushOne(more, variants[k], edits);
        known := known + {variants[k]};
        more := more + [(variants[k], edits)];
      }
    }
    assert variants[..|variants|] == variants;
  }

  lemma PushOne(pending: seq<(string, nat)>, c: string, edits: nat)
    ensures Strings(pending + [(c, edits)]) == Strings(pending) + {c}
  {
    var more := pending + [(c, edits)];
    assert forall i | 0 <= i < |pending| :: more[i] == pending[i];
    assert more[|pending|].0 == c;
  }

  // The stack after one candidate was popped.
  lemma Popped(pending: seq<(string, nat)>)
    requires pending != [] && Apart(pending)
    ensures var init, c := pending[..|pending| - 1], pending[|pending| - 1].0;
      Apart(init) && c !in Strings(init) && Strings(pending) == Strings(init) + {c}
  {
    var init := pending[..|pending| - 1];
    assert pending == init + [pending[|pending| - 1]];
    PushOne(init, pending[|pending| - 1].0, pending[|pending| - 1].1);
  }

  // A candidate that parses: kept when it is an object of the schema with the same scalars.
  method Judge(lab: Lab, raw: string, scalars: seq<Json>, candidate: string,
               valid: map<string, Json>, ghost tried: set<string>)
    returns (ok: bool, more: map<string, Json>)
    requires lab.parse(candidate).Parsed? && Scalars(lab, raw) == Some(scalars) && Collected(lab, raw, tried, valid)
    ensures ok <==> Readable(lab, candidate)
    ensures ok ==> Collected(lab, raw, tried + {candidate}, more)
  {
    more := valid;
    var args := lab.parse(candidate).value;
    var same := ArgumentScalars(lab, lab.dump(args));
    if same.None? {
      return false, more;
    }
    if args.Object? && lab.fits(args) && same == Some(scalars) {
      assert Accepts(lab, raw, candidate) == Some(args);
      more := more[lab.canon(args) := args];
    } else {
      assert Accepts(lab, raw, candidate).None?;
    }
    return true, more;
  }

  // What the stack, the seen and the tried strings have to do with each other.
  ghost predicate Searching(lab: Lab, raw: string, pending: seq<(string, nat)>, seen: set<string>, tried: set<string>) {
    && tried <= Reach(lab, raw) && Strings(pending) <= Reach(lab, raw)
    && Apart(pending) && Strings(pending) * tried == {} && seen == Strings(pending) + tried && raw in seen
    && (raw in tried || (pending == [(raw, 0)] && tried == {}))
    && Counted(lab, raw, pending)
    && Expanded(lab, raw, tried, seen)
  }

  // One round: a candidate is taken off the stack; if it fails with edits left, its
  // variants go on.
  method Take(lab: Lab, raw: string, pending: seq<(string, nat)>, seen: set<string>, ghost tried: set<string>)
    returns (candidate: string, more: seq<(string, nat)>, known: set<string>)
    requires Searching(lab, raw, pending, seen, tried) && pending != []
    ensures candidate == pending[|pending| - 1].0 && candidate in Reach(lab, raw) && candidate !in tried
    ensures Searching(lab, raw, more, known, tried + {candidate})
  {
    var edits := pending[|pending| - 1].1;
    candidate := pending[|pending| - 1].0;
    Popped(pending);
    FirstIsRaw(lab, raw, pending, tried);
    more, known := pending[..|pending| - 1], seen;
    if lab.parse(candidate).Fails? && edits != 2 {
      more, known := Expand(lab, raw, more, known, tried + {candidate}, candidate, edits);
    }
  }

  lemma TopInStrings(pending: seq<(string, nat)>)
    requires pending != []
    ensures pending[|pending| - 1].0 in Strings(pending)
  {
  }

  lemma FirstIsRaw(lab: Lab, raw: string, pending: seq<(string, nat)>, tried: set<string>)
    requires pending != [] && Counted(lab, raw, pending) && Strings(pending) * tried == {}
    requires raw in tried || (pending == [(raw, 0)] && tried == {})
    ensures var (c, edits) := pending[|pending| - 1];
      && (edits == 0 <==> raw !in tried)
      && edits <= 2 && (edits == 1 ==> c in Once(lab, raw) && c != raw)
      && (edits == 2 ==> c !in Once(lab, raw) && c != raw)
      && c !in tried
  {
    TopInStrings(pending);
    var (c, edits) := pending[|pending| - 1];
    assert c in tried ==> c in Strings(pending) * tried;
  }

  lemma AllTried(lab: Lab, raw: string, seen: set<string>, tried: set<string>)
    requires Searching(lab, raw, [], seen, tried)
    ensures tried == Reach(lab, raw)
  {
    assert Strings([]) == {};
    NothingMissed(lab, raw, tried);
  }

  lemma FoundUnique(lab: Lab, raw: string, valid: map<string, Json>, key: string)
    requires Collected(lab, raw, Reach(lab, raw), valid) && |valid| == 1 && key in valid
    ensures Unique(lab, raw, valid[key])
  {
    OneKey(valid, key);
  }

  lemma Starts(lab: Lab, raw: string)
    ensures Searching(lab, raw, [(raw, 0)], {raw}, {})
  {
    assert Strings([(raw, 0)]) == {raw} by { assert [(raw, 0)][0].0 == raw; }
  }

  method Repair(lab: Lab, raw: string) returns (result: Option<Json>, ghost tried: set<string>)
    ensures tried <= Reach(lab, raw) && |tried| <= 57
    ensures result.Some? ==> tried == Reach(lab, raw) && Unique(lab, raw, result.value)
    ensures result.Some? <==>
      && |raw| <= RAW_LIMIT && Scalars(lab, raw).Some?
      && (forall c | c in Reach(lab, raw) :: Readable(lab, c))
      && exists v :: Unique(lab, raw, v)
  {
    tried := {};
    if |raw| > RAW_LIMIT {
      return None, tried;
    }
    var scalars := ArgumentScalars(lab, raw);
    if scalars.None? {
      return None, tried;
    }
    ReachIsSmall(lab, raw);
    ghost var all := Reach(lab, raw);
    var pending: seq<(string, nat)> := [(raw, 0)];
    var seen := {raw};
    var valid: map<string, Json> := map[];
    Starts(lab, raw);
    while pending != []
      invariant Searching(lab, raw, pending, seen, tried) && |tried| <= |all|
      invariant forall c | c in tried :: Readable(lab, c)
      invariant Collected(lab, raw, tried, valid)
      decreases |all - tried|
    {
      var candidate: string;
      ghost var before := tried;
      candidate, pending, seen := Take(lab, raw, pending, seen, tried);
      tried := tried + {candidate};
      Smaller(all, before, candidate);
      if lab.parse(candidate).Parsed? {
        var ok;
        ok, valid := Judge(lab, raw, scalars.value, candidate, valid, before);
        if !ok {
          return None, tried;
        }
      }
    }
    AllTried(lab, raw, seen, tried);
    if |valid| != 1 {
      NotUnique(lab, raw, valid);
      return None, tried;
    }
    var key :| key in valid;
    FoundUnique(lab, raw, valid, key);
    return Some(valid[key]), tried;
  }

  lemma Smaller(all: set<string>, before: set<string>, c: string)
    requires c in all && c !in before && before <= all
    ensures |all - (before + {c})| < |all - before| && |before + {c}| <= |all|
  {
    assert all - before == (all - (before + {c})) + {c};
    assert all == (before + {c}) + (all - (before + {c}));
  }

  lemma OneKey(valid: map<string, Json>, key: string)
    requires |valid| == 1 && key in valid
    ensures forall k | k in valid :: k == key
  {
    assert |valid.Keys - {key}| == 0;
    assert valid.Keys == (valid.Keys - {key}) + {key};
  }

  lemma UniqueCounts(lab: Lab, raw: string, valid: map<string, Json>, v: Json)
    requires Collected(lab, raw, Reach(lab, raw), valid) && Unique(lab, raw, v)
    ensures |valid| == 1
  {
    assert valid.Keys == {lab.canon(v)};
    assert |valid| == |valid.Keys|;
  }

  lemma NotUnique(lab: Lab, raw: string, valid: map<string, Json>)
    requires Collected(lab, raw, Reach(lab, raw), valid) && |valid| != 1
    ensures forall v :: !Unique(lab, raw, v)
  {
    forall v
      ensures !Unique(lab, raw, v)
    {
      if Unique(lab, raw, v) {
        UniqueCounts(lab, raw, valid, v);
      }
    }
  }

  // A failing candidate with edits left pushes what is next to it.
  method Expand(lab: Lab, raw: string, pending: seq<(string, nat)>, seen: set<string>, ghost tried: set<string>,
                candidate: string, edits: nat)
    returns (more: seq<(string, nat)>, known: set<string>)
    requires lab.parse(candidate).Fails? && edits < 2 && candidate in tried && candidate in seen
    requires Apart(pending) && Strings(pending) * tried == {} && seen == Strings(pending) + tried
    requires Counted(lab, raw, pending) && Strings(pending) <= Reach(lab, raw) && raw in tried
    requires if edits == 0 then candidate == raw && pending == [] && tried == {raw}
      else candidate in Once(lab, raw) && candidate != raw
    requires Expanded(lab, raw, tried - {candidate}, seen)
    requires edits == 1 ==> raw in tried - {candidate}
    ensures Apart(more) && Strings(more) * tried == {} && known == Strings(more) + tried
    ensures Strings(more) <= Reach(lab, raw)
    ensures Counted(lab, raw, more) && Expanded(lab, raw, tried, known)
  {
    var variants := Variants(candidate, lab.parse(candidate).at);
    assert variants == Next(lab, candidate);
    more, known := Push(pending, seen, variants, edits + 1);
    assert forall i | 0 <= i < |pending| :: more[i] == pending[i] by {
      assert forall i | 0 <= i < |pending| :: more[..|pending|][i] == more[i];
    }
    if edits == 1 {
      assert forall v | v in Once(lab, raw) :: v in Next(lab, raw) && v in seen;
    }
    forall i | |pending| <= i < |more|
      ensures var c := more[i].0; if edits == 0 then c in Once(lab, raw) && c != raw
        else c in Twice(lab, raw) && c !in Once(lab, raw) && c != raw
    {
      assert more[i].0 in Next(lab, candidate);
    }
  }
}
