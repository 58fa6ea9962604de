// What a chapter file looks like, letter by letter: lg_cli/chapter_sync.py, `_render`.
module ChapterLooks {
  import Decimal
  import opened ChapterFile

  // A document between its two lines.
  function Entry(id: DocId, content: string): string {
    "<!-- lg:document " + Decimal.Written(id) + " -->\n" + content + "\n<!-- /lg:document -->\n\n"
  }

  // One document after the other.
  function Listed(docs: seq<Doc>, contents: Contents): string
    requires forall d | d in docs :: d.id in contents
  {
    if docs == [] then "" else Entry(docs[0].id, contents[docs[0].id]) + Listed(docs[1..], contents)
  }

  lemma Regrouped(front: string, content: string, line: string, close: string, gap: string)
    ensures front + (content + line + close) + gap == front + content + (line + close + gap)
  {
    assert content + line + close + gap == content + (line + close + gap);
  }

  lemma BlockIs(id: DocId, content: string)
    ensures Block(MARKS, id, content) + "\n\n" == Entry(id, content)
  {
    var front := MARKS.open + Decimal.Written(id) + MARKS.after;
    Regrouped(front, content, "\n", MARKS.close, "\n\n");
    assert "\n" + MARKS.close + "\n\n" == "\n<!-- /lg:document -->\n\n";
  }

  lemma BodyStep(docs: seq<Doc>, contents: Contents, block: string, rest: string)
    requires docs != [] && forall d | d in docs :: d.id in contents
    requires block == Block(MARKS, docs[0].id, contents[docs[0].id]) && rest == Body(MARKS, docs[1..], contents, 2)
    ensures Body(MARKS, docs, contents, 2) == block + "\n\n" + rest
  {
    if |docs| == 1 {
      assert docs[1..] == [] && Newlines(2) == "\n\n";
    } else {
      Grouped(block, "\n\n", rest);
    }
  }

  lemma Grouped(a: string, b: string, c: string)
    ensures a + (b + c) == a + b + c
  {
  }

  lemma {:induction false} BodyListed(docs: seq<Doc>, contents: Contents)
    requires forall d | d in docs :: d.id in contents
    ensures Body(MARKS, docs, contents, 2) == Listed(docs, contents)
  {
    if docs != [] {
      var block := Block(MARKS, docs[0].id, contents[docs[0].id]);
      BodyStep(docs, contents, block, Body(MARKS, docs[1..], contents, 2));
      BlockIs(docs[0].id, contents[docs[0].id]);
      BodyListed(docs[1..], contents);
    }
  }

  // The file is the title of the chapter and then its documents in their order.
  lemma FileLooks(docs: seq<Doc>, contents: Contents)
    requires docs != [] && forall d | d in docs :: d.id in contents
    ensures Render(docs, contents) == "# " + docs[0].title + "\n\n" + Listed(docs, contents)
  {
    BodyListed(docs, contents);
  }
}
