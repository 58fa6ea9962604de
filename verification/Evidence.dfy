// Numbered quotes of a chapter snapshot: lg_cli/book_analysis.py, `source_spans`,
// `resolve_evidence` and the substring check of `_validate_report`.
module Evidence {
  import opened Prelude
  import Decimal
  import Text

  const CHUNK := 240
  const SHORTEST := 4

  datatype Prefix = Manuscript | Plan

  // A document of the snapshot, or the chosen text of a decision.
  datatype Source = Source(prefix: Prefix, id: nat, version: Option<nat>, content: string)

  // The part [start, end) of a content.
  datatype Span = Span(start: nat, end: nat)

  datatype Quote = Quote(document: nat, version: Option<nat>, text: string)

  // ---------------------------------------------------------------- sentences

  predicate IsMark(c: char) {
    c == '\U{3002}' || c == '\U{FF01}' || c == '\U{FF1F}'
  }

  predicate Ends(c: char) {
    c == '\n' || IsMark(c)
  }

  function RunEnd(s: string, i: nat): (j: nat)
    requires i <= |s|
    ensures i <= j <= |s| && (j < |s| ==> Ends(s[j])) && forall k | i <= k < j :: !Ends(s[k])
    decreases |s| - i
  {
    if i < |s| && !Ends(s[i]) then RunEnd(s, i + 1) else i
  }

  // The matches of a run of text with its closing mark, from left to right.
  function SentencesFrom(s: string, i: nat): (spans: seq<Span>)
    requires i <= |s|
    decreases |s| - i
  {
    if i == |s| then []
    else if Ends(s[i]) then SentencesFrom(s, i + 1)
    else
      var j := RunEnd(s, i);
      var end := if j < |s| && IsMark(s[j]) then j + 1 else j;
      [Span(i, end)] + SentencesFrom(s, end)
  }

  function Trimmed(s: string, span: Span): Span
    requires span.start <= span.end <= |s|
  {
    var part := s[span.start..span.end];
    var left := |part| - |Text.StripLeft(part)|;
    StripLeftShorter(part);
    var right := |Text.Strip(part)|;
    Span(span.start + left, span.start + left + right)
  }

  lemma {:induction false} StripLeftShorter(s: string)
    ensures |Text.StripLeft(s)| <= |s| && Text.StripLeft(s) == s[|s| - |Text.StripLeft(s)|..]
  {
    if s != [] && Text.IsSpace(s[0]) {
      StripLeftShorter(s[1..]);
    }
  }

  // A trimmed span holds the stripped text.
  lemma StripInside(part: string)
    ensures var left, n := |part| - |Text.StripLeft(part)|, |Text.Strip(part)|;
      0 <= left && left + n <= |part| && part[left..left + n] == Text.Strip(part)
  {
    StripLeftShorter(part);
    var left, rest, stripped := |part| - |Text.StripLeft(part)|, Text.StripLeft(part), Text.Strip(part);
    assert stripped <= rest && stripped == rest[..|stripped|];
    assert part[left..left + |stripped|] == part[left..][..|stripped|];
  }

  lemma SliceOfSlice(s: string, lo: nat, hi: nat, from: nat, to: nat)
    requires lo <= hi <= |s| && from <= to <= hi - lo
    ensures s[lo..hi][from..to] == s[lo + from..lo + to]
  {
    forall i | 0 <= i < to - from
      ensures s[lo..hi][from..to][i] == s[lo + from..lo + to][i]
    {
      assert s[lo..hi][from..to][i] == s[lo..hi][from + i];
    }
  }

  lemma TrimmedText(s: string, span: Span)
    requires span.start <= span.end <= |s|
    ensures var t := Trimmed(s, span);
      span.start <= t.start <= t.end <= span.end && s[t.start..t.end] == Text.Strip(s[span.start..span.end])
  {
    var part := s[span.start..span.end];
    StripInside(part);
    var left := |part| - |Text.StripLeft(part)|;
    SliceOfSlice(s, span.start, span.end, left, left + |Text.Strip(part)|);
  }

  function PieceEnd(span: Span): (end: nat)
    requires span.start < span.end
    ensures span.start < end <= span.end && end - span.start <= CHUNK
  {
    if span.end - span.start < CHUNK then span.end else span.start + CHUNK
  }

  // Pieces of at most CHUNK characters, those that are long enough.
  function Pieces(span: Span): (pieces: seq<Span>)
    requires span.start <= span.end
    decreases span.end - span.start
  {
    if span.start == span.end then []
    else
      var end := PieceEnd(span);
      (if end - span.start < SHORTEST then [] else [Span(span.start, end)]) + Pieces(Span(end, span.end))
  }

  // Quotes that lie in [lo, hi), long enough, short enough, in order and apart.
  ghost predicate InOrder(spans: seq<Span>, lo: nat, hi: nat) {
    && (forall k | 0 <= k < |spans| :: lo <= spans[k].start <= spans[k].end <= hi)
    && forall j, k | 0 <= j < k < |spans| :: spans[j].end <= spans[k].start
  }

  ghost predicate Sized(spans: seq<Span>) {
    forall k | 0 <= k < |spans| :: SHORTEST <= spans[k].end - spans[k].start <= CHUNK
  }

  lemma Joined(a: seq<Span>, b: seq<Span>, lo: nat, mid: nat, hi: nat)
    requires lo <= mid <= hi && InOrder(a, lo, mid) && InOrder(b, mid, hi)
    ensures InOrder(a + b, lo, hi)
    ensures Sized(a) && Sized(b) ==> Sized(a + b)
  {
  }

  lemma OnePiece(start: nat, end: nat)
    requires start < end && end - start <= CHUNK
    ensures var first := if end - start < SHORTEST then [] else [Span(start, end)];
      InOrder(first, start, end) && Sized(first)
  {
  }

  lemma {:induction false} PiecesOrdered(span: Span)
    requires span.start <= span.end
    ensures InOrder(Pieces(span), span.start, span.end) && Sized(Pieces(span))
    decreases span.end - span.start
  {
    if span.start < span.end {
      var end := PieceEnd(span);
      var first := if end - span.start < SHORTEST then [] else [Span(span.start, end)];
      var rest := Pieces(Span(end, span.end));
      PiecesOrdered(Span(end, span.end));
      OnePiece(span.start, end);
      Joined(first, rest, span.start, end, span.end);
      assert Pieces(span) == first + rest;
    }
  }

  // All quotes of the sentences, in order.
  function QuotesOf(s: string, sentences: seq<Span>): seq<Span>
    requires forall k | 0 <= k < |sentences| :: sentences[k].start <= sentences[k].end <= |s|
  {
    if sentences == [] then []
    else
      var init, last := sentences[..|sentences| - 1], sentences[|sentences| - 1];
      TrimmedText(s, last);
      QuotesOf(s, init) + Pieces(Trimmed(s, last))
  }

  lemma {:induction false} SentencesOrdered(s: string, i: nat)
    requires i <= |s|
    ensures InOrder(SentencesFrom(s, i), i, |s|)
    ensures forall k | 0 <= k < |SentencesFrom(s, i)| :: SentencesFrom(s, i)[k].start < SentencesFrom(s, i)[k].end
    decreases |s| - i
  {
    if i < |s| {
      if Ends(s[i]) {
        SentencesOrdered(s, i + 1);
      } else {
        var j := RunEnd(s, i);
        var end := if j < |s| && IsMark(s[j]) then j + 1 else j;
        SentencesOrdered(s, end);
        Joined([Span(i, end)], SentencesFrom(s, end), i, end, |s|);
      }
    }
  }

  lemma {:induction false} QuotesOrdered(s: string, sentences: seq<Span>, hi: nat)
    requires InOrder(sentences, 0, hi) && hi <= |s|
    ensures InOrder(QuotesOf(s, sentences), 0, hi) && Sized(QuotesOf(s, sentences))
  {
    if sentences != [] {
      var init, last := sentences[..|sentences| - 1], sentences[|sentences| - 1];
      QuotesOrdered(s, init, last.start);
      TrimmedText(s, last);
      PiecesOrdered(Trimmed(s, last));
      Joined(QuotesOf(s, init), Pieces(Trimmed(s, last)), 0, last.start, hi);
    }
  }

  function Quotes(s: string): (spans: seq<Span>)
  {
    SentencesOrdered(s, 0);
    QuotesOf(s, SentencesFrom(s, 0))
  }

  // The quotes of a content are 4 to 240 characters long, in order and apart.
  lemma QuotesApart(s: string)
    ensures InOrder(Quotes(s), 0, |s|) && Sized(Quotes(s))
  {
    SentencesOrdered(s, 0);
    QuotesOrdered(s, SentencesFrom(s, 0), |s|);
  }

  // ---------------------------------------------------------------- keys

  function Letter(prefix: Prefix): char {
    match prefix case Manuscript => 'd' case Plan => 'p'
  }

  function VersionText(version: Option<nat>): string {
    match version case None => "None" case Some(v) => Decimal.Written(v)
  }

  function Key(prefix: Prefix, id: nat, version: Option<nat>, number: nat): string {
    [Letter(prefix)] + Decimal.Written(id) + "v" + VersionText(version) + "s" + Decimal.Written(number)
  }

  lemma FirstAt(a: string, x: string, c: char)
    requires c !in a
    ensures var s := a + [c] + x; s[|a|] == c && forall i | 0 <= i < |a| :: s[i] != c
  {
  }

  // A prefix without the separator ends where the separator stands.
  lemma SplitAt(a: string, b: string, x: string, y: string, c: char)
    requires a + [c] + x == b + [c] + y && c !in a && c !in b
    ensures a == b && x == y
  {
    var s := a + [c] + x;
    FirstAt(a, x, c);
    FirstAt(b, y, c);
    assert |a| == |b|;
    assert a == s[..|a|] && b == s[..|b|];
    assert x == s[|a| + 1..] && y == s[|b| + 1..];
  }

  lemma VersionsDistinct(a: Option<nat>, b: Option<nat>)
    requires VersionText(a) == VersionText(b)
    ensures a == b
  {
    assert a.Some? <==> Decimal.IsDigit(VersionText(a)[0]);
    assert b.Some? <==> Decimal.IsDigit(VersionText(b)[0]);
    if a.Some? {
      Decimal.WrittenDistinct(a.value, b.value);
    }
  }

  lemma NoLetters(n: nat, version: Option<nat>)
    ensures 'v' !in Decimal.Written(n) && 's' !in VersionText(version)
  {
    assert forall c | c in Decimal.Written(n) :: Decimal.IsDigit(c);
    if version.Some? {
      assert forall c | c in Decimal.Written(version.value) :: Decimal.IsDigit(c);
    }
  }

  lemma TailsDistinct(version: Option<nat>, n: nat, wersion: Option<nat>, m: nat)
    requires VersionText(version) + "s" + Decimal.Written(n) == VersionText(wersion) + "s" + Decimal.Written(m)
    ensures version == wersion && n == m
  {
    NoLetters(n, version);
    NoLetters(m, wersion);
    SplitAt(VersionText(version), VersionText(wersion), Decimal.Written(n), Decimal.Written(m), 's');
    VersionsDistinct(version, wersion);
    Decimal.WrittenDistinct(n, m);
  }

  // A key tells its prefix, document, version and number.
  lemma KeysDistinct(p: Prefix, id: nat, version: Option<nat>, n: nat, q: Prefix, jd: nat, wersion: Option<nat>, m: nat)
    requires Key(p, id, version, n) == Key(q, jd, wersion, m)
    ensures p == q && id == jd && version == wersion && n == m
  {
    var x, y := VersionText(version) + "s" + Decimal.Written(n), VersionText(wersion) + "s" + Decimal.Written(m);
    KeyParts(p, id, version, n, x);
    KeyParts(q, jd, wersion, m, y);
    NoLetters(id, version);
    NoLetters(jd, wersion);
    SplitAt(Decimal.Written(id), Decimal.Written(jd), x, y, 'v');
    Decimal.WrittenDistinct(id, jd);
    TailsDistinct(version, n, wersion, m);
  }

  lemma KeyParts(p: Prefix, id: nat, version: Option<nat>, n: nat, x: string)
    requires x == VersionText(version) + "s" + Decimal.Written(n)
    ensures var k := Key(p, id, version, n); k[0] == Letter(p) && k[1..] == Decimal.Written(id) + ['v'] + x
  {
  }

  // ---------------------------------------------------------------- the dictionary of quotes

  // A source cut into its quotes, numbered from one.
  datatype Cut = Cut(prefix: Prefix, id: nat, version: Option<nat>, texts: seq<string>)

  function TextsOf(s: string): (texts: seq<string>)
  {
    QuotesApart(s);
    var spans := Quotes(s);
    seq(|spans|, k requires 0 <= k < |spans| => s[spans[k].start..spans[k].end])
  }

  function CutUp(source: Source): Cut {
    Cut(source.prefix, source.id, source.version, TextsOf(source.content))
  }

  function AllCut(sources: seq<Source>): (cuts: seq<Cut>)
    ensures |cuts| == |sources| && forall i | 0 <= i < |sources| :: cuts[i] == CutUp(sources[i])
  {
    seq(|sources|, i requires 0 <= i < |sources| => CutUp(sources[i]))
  }

  function KeyOf(cut: Cut, k: nat): string {
    Key(cut.prefix, cut.id, cut.version, k + 1)
  }

  function QuoteOf(cut: Cut, k: nat): Quote
    requires k < |cut.texts|
  {
    Quote(cut.id, cut.version, cut.texts[k])
  }

  // No document appears twice with one prefix.
  ghost predicate Apart(cuts: seq<Cut>) {
    forall i, j | 0 <= i < j < |cuts| :: cuts[i].prefix != cuts[j].prefix || cuts[i].id != cuts[j].id
  }

  // The quote is one of the numbered quotes, under this key.
  ghost predicate Numbered(cuts: seq<Cut>, key: string, quote: Quote) {
    exists i, k ::
      0 <= i < |cuts| && 0 <= k < |cuts[i].texts| && key == KeyOf(cuts[i], k) && quote == QuoteOf(cuts[i], k)
  }

  ghost predicate Known(cuts: seq<Cut>, key: string) {
    exists quote :: Numbered(cuts, key, quote)
  }

  // The dictionary holds every quote of every source under its own key, and nothing else.
  ghost predicate Holds(cuts: seq<Cut>, spans: map<string, Quote>) {
    && (forall i, k | 0 <= i < |cuts| && 0 <= k < |cuts[i].texts| ::
          KeyOf(cuts[i], k) in spans && spans[KeyOf(cuts[i], k)] == QuoteOf(cuts[i], k))
    && forall key | key in spans :: Numbered(cuts, key, spans[key])
  }

  // What a source adds to the quotes of the sources before it.
  ghost predicate Adds(cut: Cut, before: map<string, Quote>, n: nat, spans: map<string, Quote>)
    requires n <= |cut.texts|
  {
    && (forall key :: key in spans <==> key in before || exists k :: 0 <= k < n && key == KeyOf(cut, k))
    && (forall k | 0 <= k < n :: KeyOf(cut, k) in spans && spans[KeyOf(cut, k)] == QuoteOf(cut, k))
    && forall key | key in before :: key in spans && spans[key] == before[key]
  }

  // One source: its sentences, trimmed, cut and numbered.
  method AddSource(cut: Cut, before: map<string, Quote>, ghost earlier: seq<Cut>) returns (spans: map<string, Quote>)
    requires Holds(earlier, before) && Apart(earlier + [cut])
    ensures Holds(earlier + [cut], spans)
  {
    spans := before;
    var number := 0;
    while number < |cut.texts|
      invariant number <= |cut.texts| && Adds(cut, before, number, spans)
    {
      NewKey(cut, earlier, before, number);
      OwnKeys(cut, number);
      spans := spans[KeyOf(cut, number) := QuoteOf(cut, number)];
      number := number + 1;
    }
    AddsAll(cut, before, earlier, spans);
  }

  lemma OwnKeys(cut: Cut, k: nat)
    ensures forall n: nat | n != k :: KeyOf(cut, n) != KeyOf(cut, k)
  {
    forall n: nat | KeyOf(cut, n) == KeyOf(cut, k)
      ensures n == k
    {
      KeysDistinct(cut.prefix, cut.id, cut.version, n + 1, cut.prefix, cut.id, cut.version, k + 1);
    }
  }

  lemma AddsAll(cut: Cut, before: map<string, Quote>, earlier: seq<Cut>, spans: map<string, Quote>)
    requires Holds(earlier, before) && Adds(cut, before, |cut.texts|, spans)
    ensures Holds(earlier + [cut], spans)
  {
    var all := earlier + [cut];
    assert all[|earlier|] == cut && forall i | 0 <= i < |earlier| :: all[i] == earlier[i];
    forall i, k | 0 <= i < |all| && 0 <= k < |all[i].texts|
      ensures KeyOf(all[i], k) in spans && spans[KeyOf(all[i], k)] == QuoteOf(all[i], k)
    {
      if i < |earlier| {
        assert KeyOf(earlier[i], k) in before;
      }
    }
    forall key | key in spans
      ensures Numbered(all, key, spans[key])
    {
      if key in before {
        var i, k :| 0 <= i < |earlier| && 0 <= k < |earlier[i].texts| && key == KeyOf(earlier[i], k)
          && spans[key] == QuoteOf(earlier[i], k);
        assert key == KeyOf(all[i], k);
      } else {
        var n :| 0 <= n < |cut.texts| && key == KeyOf(cut, n);
        assert key == KeyOf(all[|earlier|], n);
      }
    }
  }

  lemma NewKey(cut: Cut, earlier: seq<Cut>, before: map<string, Quote>, k: nat)
    requires Holds(earlier, before) && Apart(earlier + [cut])
    ensures KeyOf(cut, k) !in before
  {
    var all := earlier + [cut];
    forall i, n: nat | 0 <= i < |earlier|
      ensures KeyOf(cut, k) != KeyOf(earlier[i], n)
    {
      var e := all[i];
      assert e == earlier[i] && all[|earlier|] == cut;
      assert e.prefix != cut.prefix || e.id != cut.id;
      if KeyOf(cut, k) == KeyOf(e, n) {
        KeysDistinct(cut.prefix, cut.id, cut.version, k + 1, e.prefix, e.id, e.version, n + 1);
      }
    }
  }

  method SourceSpans(sources: seq<Source>) returns (spans: map<string, Quote>)
    requires Apart(AllCut(sources))
    ensures Holds(AllCut(sources), spans)
  {
    spans := map[];
    ghost var cuts := AllCut(sources);
    for i := 0 to |sources|
      invariant Holds(cuts[..i], spans)
    {
      assert cuts[..i] + [CutUp(sources[i])] == cuts[..i + 1];
      assert Apart(cuts[..i + 1]);
      spans := AddSource(CutUp(sources[i]), spans, cuts[..i]);
    }
    assert cuts[..|sources|] == cuts;
  }

  // ---------------------------------------------------------------- evidence

  ghost predicate OccursAt(content: string, quote: string, i: nat) {
    i + |quote| <= |content| && content[i..i + |quote|] == quote
  }

  ghost predicate Contains(content: string, quote: string) {
    exists i :: OccursAt(content, quote, i)
  }

  // The check of a report: the quoted document and version exist and hold the quote. The
  // last source with that identity counts.
  function Lookup(sources: seq<Source>, document: nat, version: Option<nat>): Option<string> {
    if sources == [] then None
    else
      var last := sources[|sources| - 1];
      if last.id == document && last.version == version then Some(last.content)
      else Lookup(sources[..|sources| - 1], document, version)
  }

  ghost predicate Passes(sources: seq<Source>, quote: Quote) {
    var content := Lookup(sources, quote.document, quote.version);
    content.Some? && Contains(content.value, quote.text)
  }

  method LookUpAll(spans: map<string, Quote>, keys: seq<string>) returns (quotes: Option<seq<Quote>>)
    ensures quotes.Some? <==> forall n | 0 <= n < |keys| :: keys[n] in spans
    ensures quotes.Some? ==> |quotes.value| == |keys| && forall n | 0 <= n < |keys| :: quotes.value[n] == spans[keys[n]]
  {
    var resolved: seq<Quote> := [];
    for n := 0 to |keys|
      invariant |resolved| == n
      invariant forall m | 0 <= m < n :: keys[m] in spans && resolved[m] == spans[keys[m]]
    {
      if keys[n] !in spans {
        return None;
      }
      resolved := resolved + [spans[keys[n]]];
    }
    return Some(resolved);
  }

  // Every key of the report is looked up; an unknown one refuses the whole report.
  method ResolveEvidence(sources: seq<Source>, keys: seq<string>) returns (quotes: Option<seq<Quote>>)
    requires Apart(AllCut(sources))
    ensures quotes.Some? <==> forall n | 0 <= n < |keys| :: Known(AllCut(sources), keys[n])
    ensures quotes.Some? ==>
      |quotes.value| == |keys| && forall n | 0 <= n < |keys| :: Numbered(AllCut(sources), keys[n], quotes.value[n])
  {
    var spans := SourceSpans(sources);
    quotes := LookUpAll(spans, keys);
    forall n | 0 <= n < |keys|
      ensures keys[n] in spans <==> Known(AllCut(sources), keys[n])
      ensures keys[n] in spans ==> Numbered(AllCut(sources), keys[n], spans[keys[n]])
    {
      HeldIsNumbered(AllCut(sources), spans, keys[n]);
    }
  }

  lemma HeldIsNumbered(cuts: seq<Cut>, spans: map<string, Quote>, key: string)
    requires Holds(cuts, spans)
    ensures key in spans <==> Known(cuts, key)
    ensures key in spans ==> Numbered(cuts, key, spans[key])
  {
  }

  // Documents are rows of one table: no identity appears twice among all sources.
  ghost predicate OneTable(sources: seq<Source>) {
    forall i, j | 0 <= i < j < |sources| :: sources[i].id != sources[j].id
  }

  lemma {:induction false} LookupFinds(sources: seq<Source>, i: nat)
    requires OneTable(sources) && i < |sources|
    ensures Lookup(sources, sources[i].id, sources[i].version) == Some(sources[i].content)
  {
    var init := sources[..|sources| - 1];
    if i < |init| {
      LookupFinds(init, i);
    }
  }

  lemma TextsOccur(s: string, k: nat)
    requires k < |TextsOf(s)|
    ensures Contains(s, TextsOf(s)[k]) && SHORTEST <= |TextsOf(s)[k]| <= CHUNK
  {
    QuotesApart(s);
    assert OccursAt(s, TextsOf(s)[k], Quotes(s)[k].start);
  }

  // All evidence that was resolved passes the check.
  lemma ResolvedPasses(sources: seq<Source>, key: string, quote: Quote)
    requires OneTable(sources) && Numbered(AllCut(sources), key, quote)
    ensures Passes(sources, quote) && SHORTEST <= |quote.text| <= CHUNK
  {
    var cuts := AllCut(sources);
    var i, k :| 0 <= i < |cuts| && 0 <= k < |cuts[i].texts| && key == KeyOf(cuts[i], k) && quote == QuoteOf(cuts[i], k);
    LookupFinds(sources, i);
    TextsOccur(sources[i].content, k);
  }
}
