// Documents from the extractor's test table, as the parser shapes them (an
// `html` element holding `head` and `body`), run through the model, and an
// ordered list with whitespace between its items. The block-tag set is a
// stand-in holding the tags these documents need.

module ExtractorExamples {
  import opened Dom
  import opened HtmlExtractor

  const Blocks: set<string> := {"p", "div", "h1", "h2", "li", "ul", "ol"}

  /** The tree the parser builds around a body fragment. */
  function Document(body: seq<Node>): Node
  {
    Other([Element("html", [Element("head", []), Element("body", body)])])
  }

  const Top := Context(Unknown, false)

  lemma BodyOfBreak()
    ensures Extracted(Blocks, Element("body", [Text("a"), Element("br", []), Text("b")]), Top, false, 0) == "a\nb"
  {
    var body := Element("body", [Text("a"), Element("br", []), Text("b")]);
    assert "body" !in Blocks;
    assert "" !in Blocks;
    assert Extracted(Blocks, Text("a"), Top, true, 0) == "a";
    assert Extracted(Blocks, Element("br", []), Top, false, 0) == "\n";
    assert Extracted(Blocks, Text("b"), Top, false, 0) == "b";
    assert ExtractedChildren(Blocks, body, 1, Top) == "a";
    assert ExtractedChildren(Blocks, body, 2, Top) == "a\n";
    assert ExtractedChildren(Blocks, body, 3, Top) == "a\nb";
  }

  /** `html`, `head` and `body` are not block tags here, so the document
      writes what its body writes. */
  lemma DocumentText(body: seq<Node>, text: string)
    requires Extracted(Blocks, Element("body", body), Top, false, 0) == text
    ensures ExtractedDocument(Blocks, Document(body)) == text
  {
    var html := Element("html", [Element("head", []), Element("body", body)]);
    assert "html" !in Blocks && "head" !in Blocks && "" !in Blocks;
    assert Extracted(Blocks, Element("head", []), Top, true, 0) == "";
    assert ExtractedChildren(Blocks, html, 1, Top) == "";
    assert ExtractedChildren(Blocks, html, 2, Top) == text;
    assert Extracted(Blocks, html, Top, true, 0) == text;
    assert ExtractedChildren(Blocks, Document(body), 1, Top) == text;
  }

  /** `a<br>b` reads "a\nb". */
  lemma BreakExample()
    ensures PlainTextOf(Extractor(Blocks), Document([Text("a"), Element("br", []), Text("b")])) == "a\nb"
  {
    BodyOfBreak();
    DocumentText([Text("a"), Element("br", []), Text("b")], "a\nb");
    Whitespace.CollapseFixesCollapsed("a\nb");
  }

  lemma LinkHasNoMarkup()
    ensures NoMarkup(Blocks, Document([Element("a", [Text("link")])]))
  {
    var a := Element("a", [Text("link")]);
    var body := Element("body", [a]);
    var html := Element("html", [Element("head", []), body]);
    assert "" !in Blocks && "a" !in Blocks;
    assert NoMarkup(Blocks, Text("link"));
    assert NoMarkup(Blocks, a);
    assert "body" !in Blocks && "head" !in Blocks && "html" !in Blocks;
    assert NoMarkup(Blocks, body);
    assert NoMarkup(Blocks, Element("head", []));
    assert NoMarkup(Blocks, html);
  }

  lemma LinkTextContent()
    ensures TextContent(Document([Element("a", [Text("link")])])) == "link"
  {
    var a := Element("a", [Text("link")]);
    var body := Element("body", [a]);
    var html := Element("html", [Element("head", []), body]);
    assert TextContent(a) == "link";
    assert ChildrenContent(body, 1) == "link";
    assert TextContent(body) == "link";
    assert ChildrenContent(html, 1) == "";
    assert ChildrenContent(html, 2) == "link";
    assert TextContent(html) == "link";
    assert ChildrenContent(Document([a]), 1) == "link";
  }

  /** `<a href="https://example.com">link</a>` reads "link": the tag and its
      attribute contribute nothing. */
  lemma LinkExample(e: Extractor)
    requires e.blockTags == Blocks
    ensures PlainTextOf(e, Document([Element("a", [Text("link")])])) == "link"
  {
    var doc := Document([Element("a", [Text("link")])]);
    LinkHasNoMarkup();
    PlainDocumentText(e, doc);
    LinkTextContent();
    LinkNormalized();
  }

  lemma LinkNormalized()
    ensures Whitespace.Normalize("link") == "link"
  {
    Whitespace.NormalizeWithoutSpace("link");
  }

  /** A list item holding one text that starts with a visible character. */
  lemma OrderedItemText(text: string, first: bool, n: nat)
    requires text != [] && !Whitespace.IsSpace(text[0])
    ensures Extracted(Blocks, Element("li", [Text(text)]), Context(OrderedListItem, false), first, n)
      == Decimal(n) + ". " + text + "\n"
  {
    var ctx := Context(OrderedListItem, false);
    var li := Element("li", [Text(text)]);
    var inner := Context(OrderedListItem, true);
    assert "" !in Blocks && "li" in Blocks;
    ListItemTextStripped(Blocks, text, inner, true, 0);
    assert ExtractedChildren(Blocks, li, 1, ctx) == text;
    ListItemMarker(Blocks, [Text(text)], ctx, first, n);
  }

  /** A text that is not the first child of a list item writes itself. */
  lemma TextWritesItself(w: string, ctx: Context, first: bool, n: nat)
    requires !ctx.parentIsListItem
    ensures Extracted(Blocks, Text(w), ctx, first, n) == w
  {
    assert "" !in Blocks;
    PlainTreeIsTextContent(Blocks, Text(w), ctx, first, n);
  }

  lemma Numeral(n: nat, digit: char)
    requires n < 10 && digit == "0123456789"[n]
    ensures Decimal(n) + ". " == [digit, '.', ' ']
  {
  }

  lemma EmptyFirst(s: string)
    ensures "" + s == s
  {
  }

  /** `<ol>` holding two one-text items, each preceded by a whitespace
      text, as the parser builds `<ol>\n<li>x</li>\n<li>y</li></ol>`. */
  function SpacedList(w1: string, x: string, w2: string, y: string): Node
  {
    Element("ol", [Text(w1), Element("li", [Text(x)]), Text(w2), Element("li", [Text(y)])])
  }

  lemma SpacedListFirstItem(w1: string, x: string, w2: string, y: string)
    requires x != [] && !Whitespace.IsSpace(x[0])
    ensures ExtractedChildren(Blocks, SpacedList(w1, x, w2, y), 2, Top) == w1 + ("2. " + x + "\n")
  {
    var ol := SpacedList(w1, x, w2, y);
    var items := Context(OrderedListItem, false);
    assert ChildContext(Top, "ol") == items;
    TextWritesItself(w1, items, true, 1);
    ExtractedChildrenStep(Blocks, ol, 0, Top);
    EmptyFirst(w1);
    OrderedItemText(x, false, 2);
    Numeral(2, '2');
    ExtractedChildrenStep(Blocks, ol, 1, Top);
  }

  lemma SpacedListSecondItem(w1: string, x: string, w2: string, y: string)
    requires x != [] && !Whitespace.IsSpace(x[0]) && y != [] && !Whitespace.IsSpace(y[0])
    ensures ExtractedChildren(Blocks, SpacedList(w1, x, w2, y), 4, Top)
      == ((w1 + ("2. " + x + "\n")) + w2) + ("4. " + y + "\n")
  {
    var ol := SpacedList(w1, x, w2, y);
    var items := Context(OrderedListItem, false);
    assert ChildContext(Top, "ol") == items;
    SpacedListFirstItem(w1, x, w2, y);
    TextWritesItself(w2, items, false, 3);
    ExtractedChildrenStep(Blocks, ol, 2, Top);
    OrderedItemText(y, false, 4);
    Numeral(4, '4');
    ExtractedChildrenStep(Blocks, ol, 3, Top);
  }

  /** The counter of an `ol` also counts the whitespace texts between its
      items, so these two items are numbered 2 and 4. */
  lemma SpacedOrderedList(w1: string, x: string, w2: string, y: string, first: bool, n: nat)
    requires x != [] && !Whitespace.IsSpace(x[0]) && y != [] && !Whitespace.IsSpace(y[0])
    ensures Extracted(Blocks, SpacedList(w1, x, w2, y), Top, first, n)
      == (((w1 + ("2. " + x + "\n")) + w2) + ("4. " + y + "\n")) + "\n"
  {
    SpacedListSecondItem(w1, x, w2, y);
    assert "ol" in Blocks;
    BlockElementText(Blocks, "ol", SpacedList(w1, x, w2, y).children, Top, first, n);
  }
}
