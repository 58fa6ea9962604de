// The chapter file: lg_cli/chapter_sync.py, `_render` and `_parse`. Document numbers in
// markers are ASCII digits.
module ChapterFile {
  import opened Prelude
  import Decimal

  type DocId = nat

  datatype Doc = Doc(id: DocId, title: string)

  type Contents = map<DocId, string>

  // The text before and after the number in the opening line, and the closing line.
  datatype Marks = Marks(open: string, after: string, close: string) {
    predicate Fine() {
      && open != "" && open[0] != '#' && open[0] != '\n'
      && after != "" && !Decimal.IsDigit(after[0])
      && close != "" && '\n' !in close
    }
  }

  const MARKS: Marks := Marks("<!-- lg:document ", " -->\n", "<!-- /lg:document -->")

  // ---------------------------------------------------------------- printing

  function Numbered(marks: Marks, number: string, content: string): string {
    marks.open + number + marks.after + (content + "\n" + marks.close)
  }

  function Block(marks: Marks, id: DocId, content: string): string {
    Numbered(marks, Decimal.Written(id), content)
  }

  function Newlines(n: nat): string {
    seq(n, _ => '\n')
  }

  // The blocks, each followed by an empty line, the last by `tail` newlines.
  function Body(marks: Marks, docs: seq<Doc>, contents: Contents, tail: nat): string
    requires forall d | d in docs :: d.id in contents
  {
    if docs == [] then ""
    else
      var rest := if |docs| == 1 then Newlines(tail) else "\n\n" + Body(marks, docs[1..], contents, tail);
      Block(marks, docs[0].id, contents[docs[0].id]) + rest
  }

  function Heading(title: string): string {
    "# " + title + "\n\n"
  }

  function Rendered(marks: Marks, docs: seq<Doc>, contents: Contents, tail: nat): string
    requires docs != [] && forall d | d in docs :: d.id in contents
  {
    Heading(docs[0].title) + Body(marks, docs, contents, tail)
  }

  function Render(docs: seq<Doc>, contents: Contents): string
    requires docs != [] && forall d | d in docs :: d.id in contents
  {
    Rendered(MARKS, docs, contents, 2)
  }

  function From(docs: seq<Doc>, contents: Contents, i: nat): string
    requires i <= |docs| && forall d | d in docs :: d.id in contents
  {
    if i == |docs| then "" else Body(MARKS, docs[i..], contents, 2)
  }

  lemma FromNext(docs: seq<Doc>, contents: Contents, i: nat)
    requires i < |docs| && forall d | d in docs :: d.id in contents
    ensures From(docs, contents, i) ==
      Block(MARKS, docs[i].id, contents[docs[i].id]) + "\n\n" + From(docs, contents, i + 1)
  {
    assert docs[i..][1..] == docs[i + 1..];
    assert Newlines(2) == "\n\n";
  }

  // `_render`: the heading, then every document as it is appended.
  method Print(docs: seq<Doc>, contents: Contents) returns (text: string)
    requires docs != [] && forall d | d in docs :: d.id in contents
    ensures text == Render(docs, contents)
  {
    text := Heading(docs[0].title);
    assert docs[0..] == docs;
    for i := 0 to |docs|
      invariant text + From(docs, contents, i) == Render(docs, contents)
    {
      FromNext(docs, contents, i);
      text := text + (Block(MARKS, docs[i].id, contents[docs[i].id]) + "\n\n");
    }
  }

  // ---------------------------------------------------------------- reading

  predicate LineStart(text: string, i: nat)
    requires i <= |text|
  {
    i == 0 || text[i - 1] == '\n'
  }

  predicate At(text: string, i: nat, part: string) {
    i + |part| <= |text| && forall n | 0 <= n < |part| :: text[i + n] == part[n]
  }

  // The closing marker fills the line after position `k`.
  predicate ClosesAt(text: string, k: nat, close: string) {
    At(text, k, "\n" + close) && (k + 1 + |close| == |text| || text[k + 1 + |close|] == '\n')
  }

  function FirstClose(text: string, k: nat, close: string): (found: Option<nat>)
    requires k <= |text|
    ensures found.Some? ==> k <= found.value && ClosesAt(text, found.value, close)
    ensures found.Some? ==> forall j | k <= j < found.value :: !ClosesAt(text, j, close)
    ensures found.None? ==> forall j | k <= j :: !ClosesAt(text, j, close)
    decreases |text| - k
  {
    if k == |text| then None
    else if ClosesAt(text, k, close) then Some(k)
    else FirstClose(text, k + 1, close)
  }

  function DigitsEnd(text: string, i: nat): (j: nat)
    requires i <= |text|
    ensures i <= j <= |text| && (j < |text| ==> !Decimal.IsDigit(text[j]))
    ensures forall k | i <= k < j :: Decimal.IsDigit(text[k])
    decreases |text| - i
  {
    if i < |text| && Decimal.IsDigit(text[i]) then DigitsEnd(text, i + 1) else i
  }

  datatype Match = Match(id: DocId, content: string, end: nat)

  // Where the number of an opening line ends.
  function Opening(marks: Marks, text: string, i: nat): (digits: Option<nat>)
    requires i <= |text|
    ensures digits.Some? ==> i + |marks.open| <= digits.value && digits.value + |marks.after| <= |text|
    ensures digits.Some? ==> forall k | i + |marks.open| <= k < digits.value :: Decimal.IsDigit(text[k])
  {
    if !LineStart(text, i) || !At(text, i, marks.open) then None
    else
      var digits := DigitsEnd(text, i + |marks.open|);
      if digits == i + |marks.open| || !At(text, digits, marks.after) then None else Some(digits)
  }

  function Closing(text: string, number: string, from: nat, close: string): (m: Option<Match>)
    requires from <= |text| && forall k | 0 <= k < |number| :: Decimal.IsDigit(number[k])
    ensures m.Some? ==> from < m.value.end <= |text|
  {
    match FirstClose(text, from, close)
    case None => None
    case Some(k) =>
      var end := k + 1 + |close|;
      Some(Match(Decimal.Value(number), text[from..k], if end < |text| then end + 1 else end))
  }

  // One whole block that starts at the beginning of a line.
  function MatchAt(marks: Marks, text: string, i: nat): (m: Option<Match>)
    requires i <= |text|
    ensures m.Some? ==> i < m.value.end <= |text|
  {
    match Opening(marks, text, i)
    case None => None
    case Some(digits) => Closing(text, text[i + |marks.open|..digits], digits + |marks.after|, marks.close)
  }

  function MatchesFrom(marks: Marks, text: string, i: nat): seq<Match>
    requires i <= |text|
    decreases |text| - i
  {
    if i == |text| then []
    else match MatchAt(marks, text, i)
      case None => MatchesFrom(marks, text, i + 1)
      case Some(m) => [m] + MatchesFrom(marks, text, m.end)
  }

  // Later matches replace earlier ones of the same number.
  function Collect(matches: seq<Match>): (contents: Contents)
    ensures forall m | m in matches :: m.id in contents
    ensures forall id | id in contents :: exists m :: m in matches && m.id == id && m.content == contents[id]
  {
    if matches == [] then map[]
    else
      var last := matches[|matches| - 1];
      Collect(matches[..|matches| - 1])[last.id := last.content]
  }

  function StripNewlines(s: string): string {
    if s != [] && s[|s| - 1] == '\n' then StripNewlines(s[..|s| - 1]) else s
  }

  predicate SameIds(matches: seq<Match>, docs: seq<Doc>) {
    |matches| == |docs| && forall i | 0 <= i < |docs| :: matches[i].id == docs[i].id
  }

  function ParseWith(marks: Marks, text: string, docs: seq<Doc>): Option<Contents>
    requires docs != []
  {
    var matches := MatchesFrom(marks, text, 0);
    if !SameIds(matches, docs) then None
    else
      var contents := Collect(matches);
      if (forall d | d in docs :: d.id in contents)
        && StripNewlines(Rendered(marks, docs, contents, 2)) == StripNewlines(text)
      then Some(contents) else None
  }

  function Parse(text: string, docs: seq<Doc>): Option<Contents>
    requires docs != []
  {
    ParseWith(MARKS, text, docs)
  }

  // ---------------------------------------------------------------- which contents survive

  // No line after the first is the closing marker.
  ghost predicate Clean(content: string, close: string) {
    forall k: nat :: !ClosesAt(content, k, close)
  }

  predicate SingleLine(title: string) {
    '\n' !in title
  }

  ghost predicate IdsApart(docs: seq<Doc>) {
    forall i, j | 0 <= i < j < |docs| :: docs[i].id != docs[j].id
  }

  // Exactly one content per document.
  predicate Covers(docs: seq<Doc>, contents: Contents) {
    (forall d | d in docs :: d.id in contents) && forall id | id in contents :: exists d | d in docs :: d.id == id
  }

  // ---------------------------------------------------------------- finding one block

  lemma PartAt(text: string, i: nat, whole: string, n: nat, part: string)
    requires At(text, i, whole) && At(whole, n, part)
    ensures At(text, i + n, part)
  {
    forall k | 0 <= k < |part|
      ensures text[i + n + k] == part[k]
    {
      assert text[i + (n + k)] == whole[n + k];
    }
  }

  lemma CharAt(text: string, i: nat, part: string, n: nat)
    requires At(text, i, part) && n < |part|
    ensures text[i + n] == part[n]
  {
  }

  lemma CloseInside(text: string, from: nat, content: string, close: string, j: nat)
    requires At(text, from, content + "\n" + close) && '\n' !in close && from <= j < from + |content|
    requires ClosesAt(text, j, close)
    ensures ClosesAt(content, j - from, close)
  {
    var whole, mark, local := content + "\n" + close, "\n" + close, j - from;
    var n := |content| - local;
    CharAt(text, from, whole, |content|);
    if n < |mark| { CharAt(text, j, mark, n); }
    assert n >= |mark|;
    forall k | 0 <= k < |mark|
      ensures content[local + k] == mark[k]
    {
      CharAt(text, j, mark, k);
      CharAt(text, from, whole, local + k);
    }
    if n > |mark| { CharAt(text, from, whole, local + |mark|); }
  }

  // Inside a block the first closing line is the block's own.
  lemma OwnClose(text: string, from: nat, content: string, close: string)
    requires At(text, from, content + "\n" + close) && Clean(content, close) && '\n' !in close
    requires var end := from + |content| + 1 + |close|; end == |text| || text[end] == '\n'
    ensures FirstClose(text, from, close) == Some(from + |content|)
  {
    assert At(content + "\n" + close, |content|, "\n" + close);
    PartAt(text, from, content + "\n" + close, |content|, "\n" + close);
    assert ClosesAt(text, from + |content|, close);
    forall j | from <= j < from + |content|
      ensures !ClosesAt(text, j, close)
    {
      if ClosesAt(text, j, close) {
        CloseInside(text, from, content, close, j);
      }
    }
  }

  predicate AllDigits(w: string) {
    w != "" && forall k | 0 <= k < |w| :: Decimal.IsDigit(w[k])
  }

  lemma NumberRead(text: string, start: nat, w: string, after: string)
    requires At(text, start, w) && At(text, start + |w|, after) && AllDigits(w)
    requires after != "" && !Decimal.IsDigit(after[0])
    ensures DigitsEnd(text, start) == start + |w|
  {
    CharAt(text, start + |w|, after, 0);
    forall k | start <= k < start + |w|
      ensures Decimal.IsDigit(text[k])
    {
      CharAt(text, start, w, k - start);
    }
  }

  lemma JoinAt(text: string, i: nat, a: string, b: string)
    requires At(text, i, a + b)
    ensures At(text, i, a) && At(text, i + |a|, b)
  {
    assert At(a + b, 0, a) && At(a + b, |a|, b);
    PartAt(text, i, a + b, 0, a);
    PartAt(text, i, a + b, |a|, b);
  }

  // Where the parts of a block stand.
  lemma BlockParts(marks: Marks, text: string, i: nat, w: string, content: string)
    requires At(text, i, Numbered(marks, w, content))
    ensures At(text, i, marks.open) && At(text, i + |marks.open|, w) && At(text, i + |marks.open| + |w|, marks.after)
    ensures At(text, i + |marks.open| + |w| + |marks.after|, content + "\n" + marks.close)
    ensures |Numbered(marks, w, content)| == |marks.open| + |w| + |marks.after| + |content| + 1 + |marks.close|
  {
    var last := content + "\n" + marks.close;
    JoinAt(text, i, marks.open + w + marks.after, last);
    JoinAt(text, i, marks.open + w, marks.after);
    JoinAt(text, i, marks.open, w);
  }

  lemma ContentAt(text: string, from: nat, content: string, close: string)
    requires At(text, from, content + "\n" + close)
    ensures text[from..from + |content|] == content
  {
    forall n | 0 <= n < |content|
      ensures text[from + n] == content[n]
    {
      assert (content + "\n" + close)[n] == content[n];
    }
  }

  lemma OpeningRead(marks: Marks, text: string, i: nat, w: string)
    requires marks.Fine() && i <= |text| && LineStart(text, i) && AllDigits(w)
    requires At(text, i, marks.open) && At(text, i + |marks.open|, w) && At(text, i + |marks.open| + |w|, marks.after)
    ensures Opening(marks, text, i) == Some(i + |marks.open| + |w|)
  {
    NumberRead(text, i + |marks.open|, w, marks.after);
  }

  lemma ClosingRead(text: string, number: string, from: nat, content: string, close: string)
    requires At(text, from, content + "\n" + close) && Clean(content, close) && '\n' !in close && AllDigits(number)
    requires var end := from + |content| + 1 + |close|; end == |text| || text[end] == '\n'
    ensures var end := from + |content| + 1 + |close|;
      Closing(text, number, from, close) ==
        Some(Match(Decimal.Value(number), content, if end < |text| then end + 1 else end))
  {
    OwnClose(text, from, content, close);
    ContentAt(text, from, content, close);
  }

  lemma MatchSplits(marks: Marks, text: string, i: nat, w: string, from: nat)
    requires i <= |text| && AllDigits(w) && At(text, i + |marks.open|, w)
    requires from == i + |marks.open| + |w| + |marks.after|
    requires Opening(marks, text, i) == Some(i + |marks.open| + |w|)
    ensures from <= |text| && MatchAt(marks, text, i) == Closing(text, w, from, marks.close)
  {
    assert text[i + |marks.open|..i + |marks.open| + |w|] == w;
  }

  lemma OpeningFound(marks: Marks, text: string, i: nat, w: string, from: nat)
    requires marks.Fine() && i <= |text| && LineStart(text, i) && AllDigits(w)
    requires from == i + |marks.open| + |w| + |marks.after|
    requires At(text, i, marks.open) && At(text, i + |marks.open|, w) && At(text, i + |marks.open| + |w|, marks.after)
    ensures from <= |text| && MatchAt(marks, text, i) == Closing(text, w, from, marks.close)
  {
    OpeningRead(marks, text, i, w);
    MatchSplits(marks, text, i, w, from);
  }

  // A printed block is read back as it was.
  lemma BlockFound(marks: Marks, text: string, i: nat, id: DocId, content: string)
    requires marks.Fine() && At(text, i, Block(marks, id, content)) && LineStart(text, i) && Clean(content, marks.close)
    requires var end := i + |Block(marks, id, content)|; end == |text| || text[end] == '\n'
    ensures var end := i + |Block(marks, id, content)|;
      MatchAt(marks, text, i) == Some(Match(id, content, if end < |text| then end + 1 else end))
  {
    var w := Decimal.Written(id);
    var from := i + |marks.open| + |w| + |marks.after|;
    BlockParts(marks, text, i, w, content);
    WrittenDigits(id);
    Decimal.WrittenValue(id);
    assert MatchAt(marks, text, i) == Closing(text, w, from, marks.close) by {
      OpeningFound(marks, text, i, w, from);
    }
    ClosingRead(text, w, from, content, marks.close);
  }

  lemma WrittenDigits(id: DocId)
    ensures AllDigits(Decimal.Written(id))
  {
    forall k | 0 <= k < |Decimal.Written(id)|
      ensures Decimal.IsDigit(Decimal.Written(id)[k])
    {
      assert Decimal.Written(id)[k] in Decimal.Written(id);
    }
  }

  // ---------------------------------------------------------------- a whole file

  lemma NoBlockAt(marks: Marks, text: string, i: nat)
    requires marks.Fine() && i < |text| && (!LineStart(text, i) || text[i] == '#' || text[i] == '\n')
    ensures MatchAt(marks, text, i).None? && MatchesFrom(marks, text, i) == MatchesFrom(marks, text, i + 1)
  {
    if At(text, i, marks.open) { CharAt(text, i, marks.open, 0); }
  }

  lemma {:induction false} OnlyNewlines(marks: Marks, text: string, i: nat)
    requires marks.Fine() && i <= |text| && forall k | i <= k < |text| :: text[k] == '\n'
    ensures MatchesFrom(marks, text, i) == []
    decreases |text| - i
  {
    if i < |text| {
      NoBlockAt(marks, text, i);
      OnlyNewlines(marks, text, i + 1);
    }
  }

  lemma HeadingChar(text: string, title: string, i: nat)
    requires SingleLine(title) && At(text, 0, Heading(title)) && i < |Heading(title)|
    ensures !LineStart(text, i) || text[i] == '#' || text[i] == '\n'
  {
    var h := Heading(title);
    CharAt(text, 0, h, i);
    if i > 0 { CharAt(text, 0, h, i - 1); }
    assert 2 <= i < 2 + |title| ==> h[i] == title[i - 2];
    assert 3 <= i < 3 + |title| ==> h[i - 1] == title[i - 3];
  }

  // The heading holds no block.
  lemma {:induction false} HeadingSkipped(marks: Marks, text: string, title: string, i: nat)
    requires marks.Fine() && SingleLine(title) && At(text, 0, Heading(title)) && i <= |Heading(title)|
    ensures MatchesFrom(marks, text, i) == MatchesFrom(marks, text, |Heading(title)|)
    decreases |Heading(title)| - i
  {
    if i < |Heading(title)| {
      HeadingChar(text, title, i);
      NoBlockAt(marks, text, i);
      HeadingSkipped(marks, text, title, i + 1);
    }
  }

  ghost predicate ContentsClean(marks: Marks, contents: Contents) {
    forall id | id in contents :: Clean(contents[id], marks.close)
  }

  ghost predicate MatchesAre(matches: seq<Match>, docs: seq<Doc>, contents: Contents) {
    && |matches| == |docs|
    && forall k | 0 <= k < |docs| ::
       docs[k].id in contents && matches[k].id == docs[k].id && matches[k].content == contents[docs[k].id]
  }

  // One block and what follows it, from the next line on.
  lemma BlockThenRest(marks: Marks, text: string, i: nat, id: DocId, content: string, rest: string) returns (next: nat)
    requires marks.Fine() && Clean(content, marks.close) && i <= |text| && LineStart(text, i)
    requires text[i..] == Block(marks, id, content) + rest && (rest == "" || rest[0] == '\n')
    ensures next <= |text| && text[next..] == if rest == "" then "" else rest[1..]
    ensures MatchesFrom(marks, text, i) == [Match(id, content, next)] + MatchesFrom(marks, text, next)
  {
    next := AfterIt(text, i, Block(marks, id, content), rest);
    BlockFound(marks, text, i, id, content);
    FirstMatch(marks, text, i);
  }

  lemma FirstMatch(marks: Marks, text: string, i: nat)
    requires i <= |text| && MatchAt(marks, text, i).Some?
    ensures var m := MatchAt(marks, text, i).value; MatchesFrom(marks, text, i) == [m] + MatchesFrom(marks, text, m.end)
  {
  }

  lemma AfterIt(text: string, i: nat, block: string, rest: string) returns (next: nat)
    requires i <= |text| && text[i..] == block + rest && (rest == "" || rest[0] == '\n')
    ensures At(text, i, block) && (i + |block| == |text| || text[i + |block|] == '\n')
    ensures next == if i + |block| < |text| then i + |block| + 1 else i + |block|
    ensures next <= |text| && text[next..] == if rest == "" then "" else rest[1..]
  {
    BodyStart(text, i, block, rest);
    var end := i + |block|;
    next := if rest == "" then end else end + 1;
    assert rest != "" ==> text[next..] == text[end..][1..];
  }

  lemma LastRead(marks: Marks, text: string, i: nat, id: DocId, content: string, tail: nat) returns (end: nat)
    requires marks.Fine() && Clean(content, marks.close) && i <= |text| && LineStart(text, i)
    requires text[i..] == Block(marks, id, content) + Newlines(tail)
    ensures MatchesFrom(marks, text, i) == [Match(id, content, end)]
  {
    end := BlockThenRest(marks, text, i, id, content, Newlines(tail));
    NewlinesLeft(text, end, tail);
    OnlyNewlines(marks, text, end);
  }

  lemma NewlinesLeft(text: string, end: nat, tail: nat)
    requires end <= |text| && text[end..] == if Newlines(tail) == "" then "" else Newlines(tail)[1..]
    ensures forall k | end <= k < |text| :: text[k] == '\n'
  {
    forall k | end <= k < |text|
      ensures text[k] == '\n'
    {
      assert text[k] == text[end..][k - end];
    }
  }

  lemma InnerRead(marks: Marks, text: string, i: nat, id: DocId, content: string, next: string)
    returns (end: nat, from: nat)
    requires marks.Fine() && Clean(content, marks.close) && i <= |text| && LineStart(text, i) && next != ""
    requires text[i..] == Block(marks, id, content) + ("\n\n" + next)
    ensures from <= |text| && LineStart(text, from) && text[from..] == next
    ensures MatchesFrom(marks, text, i) == [Match(id, content, end)] + MatchesFrom(marks, text, from)
  {
    end := BlockThenRest(marks, text, i, id, content, "\n\n" + next);
    from := end + 1;
    AfterBlock(marks, text, end, next);
  }

  lemma BodyNotEmpty(marks: Marks, docs: seq<Doc>, contents: Contents, tail: nat)
    requires marks.open != "" && docs != [] && forall d | d in docs :: d.id in contents
    ensures Body(marks, docs, contents, tail) != ""
  {
  }

  lemma {:induction false} BodyRead(marks: Marks, text: string, i: nat, docs: seq<Doc>, contents: Contents, tail: nat)
    requires marks.Fine() && (forall d | d in docs :: d.id in contents) && ContentsClean(marks, contents) && docs != []
    requires i <= |text| && LineStart(text, i) && text[i..] == Body(marks, docs, contents, tail)
    ensures MatchesAre(MatchesFrom(marks, text, i), docs, contents)
    decreases |docs|
  {
    var d := docs[0];
    if |docs| == 1 {
      var end := LastRead(marks, text, i, d.id, contents[d.id], tail);
      MatchesCons(Match(d.id, contents[d.id], end), [], docs, contents);
    } else {
      var next := Body(marks, docs[1..], contents, tail);
      BodyNotEmpty(marks, docs[1..], contents, tail);
      var end, from := InnerRead(marks, text, i, d.id, contents[d.id], next);
      BodyRead(marks, text, from, docs[1..], contents, tail);
      MatchesCons(Match(d.id, contents[d.id], end), MatchesFrom(marks, text, from), docs, contents);
    }
  }

  lemma MatchesCons(m: Match, rest: seq<Match>, docs: seq<Doc>, contents: Contents)
    requires docs != [] && docs[0].id in contents && m.id == docs[0].id && m.content == contents[docs[0].id]
    requires MatchesAre(rest, docs[1..], contents)
    ensures MatchesAre([m] + rest, docs, contents)
  {
    forall k | 1 <= k < |docs|
      ensures docs[k].id in contents && ([m] + rest)[k].id == docs[k].id
      ensures ([m] + rest)[k].content == contents[docs[k].id]
    {
      assert docs[1..][k - 1] == docs[k];
    }
  }

  lemma BodyStart(text: string, i: nat, block: string, rest: string)
    requires i <= |text| && text[i..] == block + rest
    ensures At(text, i, block) && text[i + |block|..] == rest && i + |block| + |rest| == |text|
    ensures rest != "" ==> text[i + |block|] == rest[0]
  {
    forall n | 0 <= n < |block|
      ensures text[i + n] == block[n]
    {
      assert text[i..][n] == (block + rest)[n];
    }
    assert text[i + |block|..] == text[i..][|block|..] == (block + rest)[|block|..];
    if rest != "" { assert text[i + |block|..][0] == rest[0]; }
  }

  // Between two blocks there is one empty line.
  lemma AfterBlock(marks: Marks, text: string, end: nat, next: string)
    requires marks.Fine() && end <= |text| && text[end..] == ("\n\n" + next)[1..]
    ensures end < |text| && LineStart(text, end + 1) && text[end + 1..] == next
    ensures MatchesFrom(marks, text, end) == MatchesFrom(marks, text, end + 1)
  {
    assert ("\n\n" + next)[1..] == "\n" + next;
    assert text[end..][0] == '\n';
    assert text[end + 1..] == text[end..][1..];
    NoBlockAt(marks, text, end);
  }

  lemma {:induction false} WholeRead(marks: Marks, text: string, docs: seq<Doc>, contents: Contents, tail: nat)
    requires marks.Fine() && docs != [] && (forall d | d in docs :: d.id in contents) && ContentsClean(marks, contents)
    requires SingleLine(docs[0].title) && text == Rendered(marks, docs, contents, tail)
    ensures MatchesAre(MatchesFrom(marks, text, 0), docs, contents)
  {
    var h, body := Heading(docs[0].title), Body(marks, docs, contents, tail);
    assert At(text, 0, h) && text[|h|..] == body;
    assert h[|h| - 1] == '\n' == text[|h| - 1];
    HeadingSkipped(marks, text, docs[0].title, 0);
    BodyRead(marks, text, |h|, docs, contents, tail);
  }

  // ---------------------------------------------------------------- collecting the matches

  lemma {:induction false} CollectAt(matches: seq<Match>, k: nat)
    requires k < |matches| && forall j | k < j < |matches| :: matches[j].id != matches[k].id
    ensures Collect(matches)[matches[k].id] == matches[k].content
  {
    if k < |matches| - 1 {
      CollectAt(matches[..|matches| - 1], k);
    }
  }

  lemma Collected(matches: seq<Match>, docs: seq<Doc>, contents: Contents)
    requires MatchesAre(matches, docs, contents) && IdsApart(docs) && Covers(docs, contents)
    ensures SameIds(matches, docs) && Collect(matches) == contents
  {
    var got := Collect(matches);
    forall k | 0 <= k < |docs|
      ensures docs[k].id in got && got[docs[k].id] == contents[docs[k].id]
    {
      CollectAt(matches, k);
      assert matches[k] in matches;
    }
    forall id | id in contents
      ensures id in got && got[id] == contents[id]
    {
      var d :| d in docs && d.id == id;
    }
    forall id | id in got
      ensures id in contents
    {
      var m :| m in matches && m.id == id;
    }
  }

  // ---------------------------------------------------------------- newlines at the end

  lemma {:induction false} StripSplits(s: string)
    ensures |StripNewlines(s)| <= |s| && s == StripNewlines(s) + Newlines(|s| - |StripNewlines(s)|)
  {
    if s != [] && s[|s| - 1] == '\n' { StripSplits(s[..|s| - 1]); }
  }

  lemma {:induction false} StripAppended(s: string, n: nat)
    requires s != [] && s[|s| - 1] != '\n'
    ensures StripNewlines(s + Newlines(n)) == s
  {
    if n == 0 {
      assert s + Newlines(0) == s;
    } else {
      StripAppended(s, n - 1);
      assert (s + Newlines(n))[..|s| + n - 1] == s + Newlines(n - 1);
    }
  }

  lemma {:induction false} BodyTail(marks: Marks, docs: seq<Doc>, contents: Contents, tail: nat)
    requires marks.Fine() && docs != [] && forall d | d in docs :: d.id in contents
    ensures var body := Body(marks, docs, contents, 0);
      body != "" && body[|body| - 1] != '\n' && Body(marks, docs, contents, tail) == body + Newlines(tail)
  {
    var block := Block(marks, docs[0].id, contents[docs[0].id]);
    assert block[|block| - 1] == marks.close[|marks.close| - 1];
    if |docs| == 1 {
      assert block + Newlines(0) == block;
    } else {
      BodyTail(marks, docs[1..], contents, tail);
      var last := Body(marks, docs[1..], contents, 0);
      assert block + ("\n\n" + (last + Newlines(tail))) == block + ("\n\n" + last) + Newlines(tail);
    }
  }

  lemma RenderedTail(marks: Marks, docs: seq<Doc>, contents: Contents, tail: nat)
    requires marks.Fine() && docs != [] && forall d | d in docs :: d.id in contents
    ensures StripNewlines(Rendered(marks, docs, contents, tail)) == Rendered(marks, docs, contents, 0)
    ensures Rendered(marks, docs, contents, tail) == Rendered(marks, docs, contents, 0) + Newlines(tail)
  {
    BodyTail(marks, docs, contents, tail);
    var h, body, whole := Heading(docs[0].title), Body(marks, docs, contents, 0), Rendered(marks, docs, contents, 0);
    assert h + (body + Newlines(tail)) == whole + Newlines(tail);
    StripAppended(whole, tail);
  }

  // A file with the same text up to newlines at its end is a rendering.
  lemma SameUpToNewlines(marks: Marks, text: string, docs: seq<Doc>, contents: Contents)
    requires marks.Fine() && docs != [] && forall d | d in docs :: d.id in contents
    requires StripNewlines(Rendered(marks, docs, contents, 2)) == StripNewlines(text)
    ensures exists tail: nat :: text == Rendered(marks, docs, contents, tail)
  {
    RenderedTail(marks, docs, contents, 2);
    StripSplits(text);
    var tail := |text| - |StripNewlines(text)|;
    RenderedTail(marks, docs, contents, tail);
    assert text == Rendered(marks, docs, contents, tail);
  }

  // ---------------------------------------------------------------- what was read is clean

  lemma FirstIsClean(text: string, from: nat, close: string)
    requires from <= |text| && FirstClose(text, from, close).Some?
    ensures Clean(text[from..FirstClose(text, from, close).value], close)
  {
    var k := FirstClose(text, from, close).value;
    var content, mark := text[from..k], "\n" + close;
    forall j: nat | ClosesAt(content, j, close)
      ensures false
    {
      forall n | 0 <= n < |mark|
        ensures text[from + j + n] == mark[n]
      {
        CharAt(content, j, mark, n);
      }
      CharAt(text, k, mark, 0);
      assert ClosesAt(text, from + j, close);
    }
  }

  lemma MatchIsClean(marks: Marks, text: string, i: nat)
    requires i <= |text| && MatchAt(marks, text, i).Some?
    ensures Clean(MatchAt(marks, text, i).value.content, marks.close)
  {
    FirstIsClean(text, Opening(marks, text, i).value + |marks.after|, marks.close);
  }

  lemma {:induction false} ReadIsClean(marks: Marks, text: string, i: nat)
    requires i <= |text|
    ensures forall m | m in MatchesFrom(marks, text, i) :: Clean(m.content, marks.close)
    decreases |text| - i
  {
    if i < |text| {
      match MatchAt(marks, text, i)
      case None => ReadIsClean(marks, text, i + 1);
      case Some(m) =>
        MatchIsClean(marks, text, i);
        ReadIsClean(marks, text, m.end);
    }
  }

  // ---------------------------------------------------------------- the two directions

  lemma ReadBack(marks: Marks, text: string, docs: seq<Doc>, contents: Contents, tail: nat)
    requires marks.Fine() && docs != [] && Covers(docs, contents) && ContentsClean(marks, contents)
    requires SingleLine(docs[0].title) && IdsApart(docs) && text == Rendered(marks, docs, contents, tail)
    ensures ParseWith(marks, text, docs) == Some(contents)
  {
    WholeRead(marks, text, docs, contents, tail);
    Collected(MatchesFrom(marks, text, 0), docs, contents);
    RenderedTail(marks, docs, contents, tail);
    RenderedTail(marks, docs, contents, 2);
  }

  lemma ReadMeans(marks: Marks, text: string, docs: seq<Doc>)
    requires docs != [] && ParseWith(marks, text, docs).Some?
    ensures var contents := ParseWith(marks, text, docs).value;
      && Covers(docs, contents) && ContentsClean(marks, contents)
      && StripNewlines(Rendered(marks, docs, contents, 2)) == StripNewlines(text)
  {
    var matches := MatchesFrom(marks, text, 0);
    var contents := Collect(matches);
    ReadIsClean(marks, text, 0);
    forall id | id in contents
      ensures Clean(contents[id], marks.close) && exists d | d in docs :: d.id == id
    {
      var m :| m in matches && m.id == id && m.content == contents[id];
      var k :| 0 <= k < |matches| && matches[k] == m;
      assert docs[k] in docs;
    }
  }

  lemma MarksFine()
    ensures MARKS.Fine()
  {
    assert MARKS.open[0] == '<' && MARKS.after[0] == ' ';
  }

  ghost predicate AllClean(contents: Contents) {
    ContentsClean(MARKS, contents)
  }

  // Exactly which files are accepted, and what they mean: a file is accepted with the given
  // contents when it renders them, up to newlines at its end, and no content holds a closing
  // line after its first line.
  lemma ParseIff(text: string, docs: seq<Doc>, contents: Contents)
    requires docs != [] && SingleLine(docs[0].title) && IdsApart(docs)
    ensures Parse(text, docs) == Some(contents) <==>
      && Covers(docs, contents) && AllClean(contents)
      && StripNewlines(Render(docs, contents)) == StripNewlines(text)
  {
    MarksFine();
    if Covers(docs, contents) && AllClean(contents) && StripNewlines(Render(docs, contents)) == StripNewlines(text) {
      SameUpToNewlines(MARKS, text, docs, contents);
      var tail: nat :| text == Rendered(MARKS, docs, contents, tail);
      ReadBack(MARKS, text, docs, contents, tail);
    } else if Parse(text, docs) == Some(contents) {
      ReadMeans(MARKS, text, docs);
    }
  }

  // Printing and reading gives the contents back exactly when no content holds a closing line
  // after its first line.
  lemma RoundTripIff(docs: seq<Doc>, contents: Contents)
    requires docs != [] && SingleLine(docs[0].title) && IdsApart(docs) && Covers(docs, contents)
    ensures Parse(Render(docs, contents), docs) == Some(contents) <==> AllClean(contents)
  {
    ParseIff(Render(docs, contents), docs, contents);
  }

  // Whatever was accepted survives being printed and read again.
  lemma AcceptedSurvives(text: string, docs: seq<Doc>)
    requires docs != [] && SingleLine(docs[0].title) && IdsApart(docs) && Parse(text, docs).Some?
    ensures var contents := Parse(text, docs).value;
      Covers(docs, contents) && AllClean(contents) && Parse(Render(docs, contents), docs) == Some(contents)
  {
    var contents := Parse(text, docs).value;
    ParseIff(text, docs, contents);
    RoundTripIff(docs, contents);
  }

  // ---------------------------------------------------------------- a file read as something else

  // The opening line of a document without its newline.
  function OpeningLine(id: DocId): string {
    MARKS.open + Decimal.Written(id) + " -->"
  }

  // What a first content may hold after its own text to bring the second block forward.
  function Swallowed(b: string, id: DocId): string {
    b + ("\n" + MARKS.close + "\n\n" + OpeningLine(id))
  }

  // What is then read as the second content.
  function Displaced(id: DocId, y: string): string {
    MARKS.close + ("\n\n" + OpeningLine(id) + ("\n" + y))
  }

  lemma OpeningSplits(id: DocId)
    ensures MARKS.open + Decimal.Written(id) + MARKS.after == OpeningLine(id) + "\n"
  {
    assert MARKS.after == " -->" + "\n";
  }

  // Moving the boundary between two pieces of one text.
  lemma SameText(o1: string, b: string, close: string, o2: string, y: string)
    ensures (o1 + "\n" + ((b + ("\n" + close + "\n\n" + o2)) + "\n" + close))
      + ("\n\n" + (o2 + "\n" + (y + "\n" + close)))
      == (o1 + "\n" + (b + "\n" + close))
        + ("\n\n" + (o2 + "\n" + ((close + ("\n\n" + o2 + ("\n" + y))) + "\n" + close)))
  {
  }

  lemma NotHere(text: string, k: nat, close: string, n: nat)
    requires n <= |close| && (k + n < |text| ==> text[k + n] != ("\n" + close)[n])
    ensures !ClosesAt(text, k, close)
  {
    if At(text, k, "\n" + close) { CharAt(text, k, "\n" + close, n); }
  }

  lemma DisplacedClean(id: DocId, y: string)
    requires SingleLine(y) && y != MARKS.close
    ensures Clean(Displaced(id, y), MARKS.close)
  {
    var close, line := MARKS.close, OpeningLine(id);
    assert close[5] == '/' && line[5] == 'l';
    forall n | 0 <= n < |line|
      ensures line[n] != '\n'
    {
      OneLine(id, n);
    }
    assert "\n\n" + line + ("\n" + y) == "\n\n" + line + "\n" + y;
    FourLinesClean(close, line, y, Displaced(id, y));
  }

  lemma FourLinesClean(close: string, line: string, y: string, text: string)
    requires text == close + ("\n\n" + line + "\n" + y)
    requires '\n' !in close && '\n' !in line && SingleLine(y) && y != close
    requires |close| > 5 && |line| > 5 && close[5] != line[5]
    ensures Clean(text, close)
  {
    var last := |close| + 2 + |line|;
    forall k: nat
      ensures !ClosesAt(text, k, close)
    {
      if k == |close| {
        NotHere(text, k, close, 1);
      } else if k == |close| + 1 {
        assert text[k + 6] == line[5];
        NotHere(text, k, close, 6);
      } else if k == last {
        LastLine(text, k, y, close);
      } else {
        assert k < |close| ==> text[k] == close[k];
        assert |close| + 2 <= k < last ==> text[k] == line[k - |close| - 2];
        assert last < k < |text| ==> text[k] == y[k - last - 1];
        NotHere(text, k, close, 0);
      }
    }
  }

  lemma LastLine(text: string, k: nat, y: string, close: string)
    requires k < |text| && text[k + 1..] == y && SingleLine(y) && y != close
    ensures !ClosesAt(text, k, close)
  {
    if At(text, k, "\n" + close) {
      forall n | 0 <= n < |close|
        ensures y[n] == close[n]
      {
        CharAt(text, k, "\n" + close, n + 1);
        assert text[k + 1..][n] == text[k + 1 + n];
      }
      assert |y| > |close|;
      assert y[|close|] == text[k + 1 + |close|];
    }
  }

  lemma OneLine(id: DocId, n: nat)
    requires n < |OpeningLine(id)|
    ensures OpeningLine(id)[n] != '\n'
  {
    var w := Decimal.Written(id);
    if |MARKS.open| <= n < |MARKS.open| + |w| {
      assert OpeningLine(id)[n] == w[n - |MARKS.open|];
      WrittenDigits(id);
    }
  }

  // Two contents that are not both clean can be read back as other contents, without an error:
  // the closing line and the next opening line inside the first content are taken for the real
  // ones.
  lemma SilentMisread(title: string, one: DocId, two: DocId, b: string, y: string)
    requires SingleLine(title) && one != two && Clean(b, MARKS.close) && SingleLine(y) && y != MARKS.close
    ensures var docs := [Doc(one, title), Doc(two, title)];
      Parse(Render(docs, map[one := Swallowed(b, two), two := y]), docs) ==
        Some(map[one := b, two := Displaced(two, y)])
  {
    var docs := [Doc(one, title), Doc(two, title)];
    var written: Contents := map[one := Swallowed(b, two), two := y];
    var read: Contents := map[one := b, two := Displaced(two, y)];
    DisplacedClean(two, y);
    OpeningSplits(one);
    OpeningSplits(two);
    SameText(OpeningLine(one), b, MARKS.close, OpeningLine(two), y);
    TwoBlocks(docs, written);
    TwoBlocks(docs, read);
    assert docs[0] in docs && docs[1] in docs;
    ParseIff(Render(docs, written), docs, read);
  }

  lemma TwoBlocks(docs: seq<Doc>, contents: Contents)
    requires |docs| == 2 && docs[0].id in contents && docs[1].id in contents
    ensures var o1, o2, c1, c2 :=
      OpeningLine(docs[0].id), OpeningLine(docs[1].id), contents[docs[0].id], contents[docs[1].id];
      Render(docs, contents) == Heading(docs[0].title)
        + ((o1 + "\n" + (c1 + "\n" + MARKS.close)) + ("\n\n" + (o2 + "\n" + (c2 + "\n" + MARKS.close))) + Newlines(2))
  {
    OpeningSplits(docs[0].id);
    OpeningSplits(docs[1].id);
    var b1, b2 := Block(MARKS, docs[0].id, contents[docs[0].id]), Block(MARKS, docs[1].id, contents[docs[1].id]);
    assert docs[1..] == [docs[1]];
    assert Body(MARKS, docs[1..], contents, 2) == b2 + Newlines(2);
    assert Body(MARKS, docs, contents, 2) == b1 + ("\n\n" + (b2 + Newlines(2)));
    assert b1 + ("\n\n" + (b2 + Newlines(2))) == b1 + ("\n\n" + b2) + Newlines(2);
  }
}
