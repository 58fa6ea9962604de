// Which parts of a content can be quoted (lg_cli/book_analysis.py, `source_spans`): exactly
// the numbered pieces of its trimmed sentences.
module EvidenceQuotes {
  import opened Prelude
  import opened Evidence
  import Text

  // ---------------------------------------------------------------- sentences

  predicate Closes(c: char) {
    c in {'\n', '\U{3002}', '\U{FF01}', '\U{FF1F}'}
  }

  // A run of text that cannot be made longer.
  predicate Run(s: string, a: int, j: int) {
    && 0 <= a < j <= |s|
    && (forall k | a <= k < j :: !Closes(s[k]))
    && (a > 0 ==> Closes(s[a - 1]))
    && (j < |s| ==> Closes(s[j]))
  }

  // A run with its closing mark, if it has one; a line end is not part of it.
  ghost predicate Sentence(s: string, a: int, b: int) {
    exists j :: Run(s, a, j) && b == if j < |s| && s[j] != '\n' then j + 1 else j
  }

  predicate Starts(s: string, i: int) {
    0 <= i <= |s| && (i == 0 || Closes(s[i - 1]) || i == |s| || Closes(s[i]))
  }

  lemma RunOnce(s: string, a: int, j: int, k: int)
    requires Run(s, a, j) && Run(s, a, k)
    ensures j == k
  {
  }

  lemma RunApart(s: string, a: int, j: int, c: int, k: int)
    requires Run(s, a, j) && Run(s, c, k) && a < c
    ensures j < c
  {
    assert Closes(s[c - 1]);
  }

  lemma NextSentence(s: string, i: nat) returns (j: nat, end: nat)
    requires i < |s| && Starts(s, i) && !Ends(s[i])
    ensures Run(s, i, j) && j == RunEnd(s, i) && Starts(s, end) && Sentence(s, i, end)
    ensures end == if j < |s| && IsMark(s[j]) then j + 1 else j
  {
    j := RunEnd(s, i);
    end := if j < |s| && IsMark(s[j]) then j + 1 else j;
    assert forall k | 0 <= k < |s| :: Closes(s[k]) <==> Ends(s[k]);
  }

  // The matches from a boundary on are the sentences that start there or later.
  lemma {:induction false} SentencesAre(s: string, i: nat, span: Span)
    requires Starts(s, i)
    ensures span in SentencesFrom(s, i) <==> i <= span.start && Sentence(s, span.start, span.end)
    decreases |s| - i
  {
    if i == |s| {
    } else if Ends(s[i]) {
      SentencesAre(s, i + 1, span);
      assert !Sentence(s, i, span.end);
    } else {
      var j, end := NextSentence(s, i);
      SentencesAre(s, end, span);
      SentenceFirst(s, i, j, end, span);
    }
  }

  // After the first sentence come those that start behind it.
  lemma SentenceFirst(s: string, i: nat, j: nat, end: nat, span: Span)
    requires Run(s, i, j) && end == if j < |s| && IsMark(s[j]) then j + 1 else j
    ensures i <= span.start && Sentence(s, span.start, span.end) <==>
      span == Span(i, end) || (end <= span.start && Sentence(s, span.start, span.end))
  {
    assert j < |s| ==> (IsMark(s[j]) <==> s[j] != '\n');
    assert Sentence(s, i, end);
    if i <= span.start && Sentence(s, span.start, span.end) {
      var k :| Run(s, span.start, k) && span.end == if k < |s| && s[k] != '\n' then k + 1 else k;
      if span.start == i {
        RunOnce(s, i, j, k);
      } else {
        RunApart(s, i, j, span.start, k);
      }
    }
  }

  // ---------------------------------------------------------------- trimming

  // What is left of a part without the blanks at its ends.
  predicate TrimsTo(s: string, a: int, b: int, t: int, u: int) {
    && 0 <= a <= t <= u <= b <= |s|
    && (forall k | a <= k < t :: Text.IsSpace(s[k]))
    && (forall k | u <= k < b :: Text.IsSpace(s[k]))
    && (t < u ==> !Text.IsSpace(s[t]) && !Text.IsSpace(s[u - 1]))
  }

  lemma TrimmedIs(s: string, span: Span)
    requires span.start <= span.end <= |s|
    ensures var t := Trimmed(s, span); TrimsTo(s, span.start, span.end, t.start, t.end)
  {
    var part := s[span.start..span.end];
    var i, j := PartTrimmed(part);
    Moved(s, span, i, j);
  }

  lemma PartTrimmed(part: string) returns (i: nat, j: nat)
    ensures TrimsTo(part, 0, |part|, i, j)
    ensures |Text.StripLeft(part)| == |part| - i && |Text.Strip(part)| == j - i
  {
    i := Text.LeftCut(part);
    var rest := part[i..];
    var k := Text.RightCut(rest);
    j := i + k;
    assert forall m | 0 <= m < i :: part[m] in part[..i];
    forall m | j <= m < |part|
      ensures Text.IsSpace(part[m])
    {
      assert rest[k..][m - j] == part[m];
    }
    if i < j {
      assert rest[0] == part[i] && Text.StripRight(rest)[k - 1] == part[j - 1];
    }
  }

  lemma Moved(s: string, span: Span, i: nat, j: nat)
    requires span.start <= span.end <= |s| && TrimsTo(s[span.start..span.end], 0, span.end - span.start, i, j)
    ensures TrimsTo(s, span.start, span.end, span.start + i, span.start + j)
  {
    var part := s[span.start..span.end];
    assert forall m | span.start <= m < span.end :: s[m] == part[m - span.start];
  }

  lemma TrimsOnce(s: string, a: int, b: int, t: int, u: int, v: int, w: int)
    requires TrimsTo(s, a, b, t, u) && TrimsTo(s, a, b, v, w) && t < u
    ensures t == v && u == w
  {
  }

  // ---------------------------------------------------------------- pieces

  // The i-th piece of 240 characters of the part [t, u); the last may be shorter.
  predicate Piece(t: int, u: int, i: int, span: Span) {
    && i >= 0
    && span.start == t + 240 * i
    && span.start < u
    && span.end == if span.start + 240 < u then span.start + 240 else u
  }

  ghost predicate APiece(t: int, u: int, span: Span) {
    exists i :: Piece(t, u, i, span)
  }

  lemma PieceNext(t: nat, u: nat, span: Span)
    requires t < u
    ensures var first := Span(t, if t + 240 < u then t + 240 else u);
      APiece(t, u, span) <==> span == first || (t + 240 < u && APiece(t + 240, u, span))
  {
    if i :| Piece(t, u, i, span) {
      if i > 0 {
        assert Piece(t + 240, u, i - 1, span);
      }
    }
    var next := t + 240;
    if i :| Piece(next, u, i, span) {
      assert Piece(t, u, i + 1, span);
    }
    if span == Span(t, if t + 240 < u then t + 240 else u) {
      assert Piece(t, u, 0, span);
    }
  }

  lemma {:induction false} PiecesAre(part: Span, span: Span)
    requires part.start <= part.end
    ensures span in Pieces(part) <==> APiece(part.start, part.end, span) && span.end - span.start >= 4
    decreases part.end - part.start
  {
    if part.start < part.end {
      var end := PieceEnd(part);
      PiecesAre(Span(end, part.end), span);
      PieceNext(part.start, part.end, span);
    }
  }

  // ---------------------------------------------------------------- quotes

  ghost predicate Quotable(s: string, a: int, b: int, span: Span) {
    exists t, u :: TrimsTo(s, a, b, t, u) && APiece(t, u, span)
  }

  lemma QuotableIs(s: string, sentence: Span, span: Span)
    requires sentence.start <= sentence.end <= |s|
    ensures var t := Trimmed(s, sentence);
      Quotable(s, sentence.start, sentence.end, span) <==> APiece(t.start, t.end, span)
  {
    var t := Trimmed(s, sentence);
    TrimmedIs(s, sentence);
    if v, w :| TrimsTo(s, sentence.start, sentence.end, v, w) && APiece(v, w, span) {
      var i :| Piece(v, w, i, span);
      TrimsOnce(s, sentence.start, sentence.end, v, w, t.start, t.end);
    }
  }

  lemma {:induction false} QuotesAre(s: string, sentences: seq<Span>, span: Span)
    requires forall k | 0 <= k < |sentences| :: sentences[k].start <= sentences[k].end <= |s|
    ensures span in QuotesOf(s, sentences) <==>
      span.end - span.start >= 4 && exists x :: x in sentences && Quotable(s, x.start, x.end, span)
  {
    if sentences != [] {
      var n := |sentences| - 1;
      var last := sentences[n];
      QuotesAre(s, sentences[..n], span);
      TrimmedText(s, last);
      PiecesAre(Trimmed(s, last), span);
      QuotableIs(s, last, span);
      assert sentences == sentences[..n] + [last];
    }
  }

  // A part of a content can be quoted exactly when it is one of the pieces of 240 characters,
  // the last one shorter, of a trimmed sentence, and has at least four characters.
  lemma QuotesIff(s: string, span: Span)
    ensures span in Quotes(s) <==>
      span.end - span.start >= 4 && exists a, b :: Sentence(s, a, b) && Quotable(s, a, b, span)
  {
    SentencesOrdered(s, 0);
    QuotesAre(s, SentencesFrom(s, 0), span);
    if x :| x in SentencesFrom(s, 0) && Quotable(s, x.start, x.end, span) {
      SentencesAre(s, 0, x);
    }
    if a, b :| Sentence(s, a, b) && Quotable(s, a, b, span) {
      SentencesAre(s, 0, Span(a, b));
    }
  }

  // ---------------------------------------------------------------- evidence

  // The part of this content that is quoted.
  ghost predicate Quoted(source: Source, span: Span) {
    && span.start + 4 <= span.end <= |source.content|
    && exists a, b :: Sentence(source.content, a, b) && Quotable(source.content, a, b, span)
  }

  lemma TextsAre(s: string)
    ensures |TextsOf(s)| == |Quotes(s)|
    ensures forall k | 0 <= k < |Quotes(s)| ::
      Quotes(s)[k].start <= Quotes(s)[k].end <= |s| && TextsOf(s)[k] == s[Quotes(s)[k].start..Quotes(s)[k].end]
  {
    QuotesApart(s);
  }

  // Every part of a source that can be quoted has a key of that source, its document and its
  // version, under which the dictionary holds exactly that text.
  lemma EveryQuoteKnown(sources: seq<Source>, i: nat, span: Span) returns (number: nat)
    requires i < |sources| && Quoted(sources[i], span)
    ensures var source := sources[i];
      Numbered(AllCut(sources), Key(source.prefix, source.id, source.version, number),
        Quote(source.id, source.version, source.content[span.start..span.end]))
    ensures 1 <= number <= |Quotes(sources[i].content)| && Quotes(sources[i].content)[number - 1] == span
  {
    var source := sources[i];
    QuotesIff(source.content, span);
    TextsAre(source.content);
    var k :| 0 <= k < |Quotes(source.content)| && Quotes(source.content)[k] == span;
    number := k + 1;
    var cut := AllCut(sources)[i];
    assert Key(source.prefix, source.id, source.version, number) == KeyOf(cut, k);
    assert Quote(source.id, source.version, source.content[span.start..span.end]) == QuoteOf(cut, k);
  }

  // And every quote the dictionary holds is such a part.
  lemma OnlyQuotesKnown(sources: seq<Source>, key: string, quote: Quote) returns (i: nat, span: Span)
    requires Numbered(AllCut(sources), key, quote)
    ensures i < |sources| && Quoted(sources[i], span)
    ensures quote == Quote(sources[i].id, sources[i].version, sources[i].content[span.start..span.end])
  {
    var cuts := AllCut(sources);
    var j, k :| 0 <= j < |cuts| && 0 <= k < |cuts[j].texts| && key == KeyOf(cuts[j], k) && quote == QuoteOf(cuts[j], k);
    i := j;
    TextsAre(sources[i].content);
    span := Quotes(sources[i].content)[k];
    QuotesIff(sources[i].content, span);
  }
}
