// The HTML plain-text extractor: the block-tag set it is built with, the
// recursive walk that fills a string builder, and `PlainText`, which
// normalizes the walk's output.

module HtmlExtractor {
  import opened Whitespace
  import opened Dom

  /** What the HTML parser reports when it cannot build a tree. */
  datatype ParseError = ParseError(message: string)

  datatype Result<T> = Success(value: T) | Failure(error: ParseError)

  /** An extractor is its set of block tags, fixed at construction. */
  datatype Extractor = Extractor(blockTags: set<string>)

  /** `NewExtractor`: the union of the default block tags (a constant of the
      library) and the caller's extra ones, filled in two loops. */
  method NewExtractor(defaults: seq<string>, otherBlockTags: seq<string>) returns (e: Extractor)
    ensures forall t :: t in e.blockTags <==> t in defaults || t in otherBlockTags
  {
    var unique: set<string> := {};
    for k := 0 to |defaults|
      invariant unique == set t | t in defaults[..k]
    {
      assert defaults[..k + 1] == defaults[..k] + [defaults[k]];
      unique := unique + {defaults[k]};
    }
    assert defaults[..|defaults|] == defaults;
    for k := 0 to |otherBlockTags|
      invariant unique == (set t | t in defaults) + (set t | t in otherBlockTags[..k])
    {
      assert otherBlockTags[..k + 1] == otherBlockTags[..k] + [otherBlockTags[k]];
      unique := unique + {otherBlockTags[k]};
    }
    assert otherBlockTags[..|otherBlockTags|] == otherBlockTags;
    e := Extractor(unique);
  }

  /** The marker written before a list item's content. */
  function Marker(t: ListItemType, idx: nat): string
  {
    match t
    case OrderedListItem => Decimal(idx) + ". "
    case UnorderedListItem => "- "
    case Unknown => ""
  }

  /** The text `extractText` appends for `node`. `ctx` is what the walk
      knows of the ancestors (ContextOf of the ancestors' tags, nearest
      first); `isFirstChild` says whether the node is its parent's first
      child; `idx` is the counter its parent passed. */
  function Extracted(tags: set<string>, node: Node, ctx: Context, isFirstChild: bool, idx: nat): string
    decreases node, 1, 0
  {
    var atom := Atom(node);
    Marker(if atom == "li" then ctx.listAbove else Unknown, idx)
    + (if !node.Text? then ""
       else if ctx.parentIsListItem && isFirstChild then TrimLeft(node.data)
       else node.data)
    + (if atom == "br" then "\n"
       else ExtractedChildren(tags, node, |Children(node)|, ctx) + (if atom in tags then "\n" else ""))
  }

  /** The text of the first `k` children of `parent` (whose own context is
      `ctx`), visited in order; the children of a `ul`/`ol` receive their
      1-based position, all others 0. */
  function ExtractedChildren(tags: set<string>, parent: Node, k: nat, ctx: Context): string
    requires k <= |Children(parent)|
    decreases parent, 0, k
  {
    if k == 0 then ""
    else
      ExtractedChildren(tags, parent, k - 1, ctx)
      + Extracted(tags, Children(parent)[k - 1], ChildContext(ctx, Atom(parent)), k == 1,
                  if IsList(Atom(parent)) then k else 0)
  }

  lemma ExtractedChildrenStep(tags: set<string>, parent: Node, k: nat, ctx: Context)
    requires k < |Children(parent)|
    ensures ExtractedChildren(tags, parent, k + 1, ctx)
      == ExtractedChildren(tags, parent, k, ctx)
         + Extracted(tags, Children(parent)[k], ChildContext(ctx, Atom(parent)), k == 0,
                     if IsList(Atom(parent)) then k + 1 else 0)
  {
  }

  /** The raw buffer for a whole document: the root has no ancestors and
      counter 0. */
  function ExtractedDocument(tags: set<string>, doc: Node): string
  {
    Extracted(tags, doc, ContextOf([]), false, 0)
  }

  /** The result of `PlainText` for a parsed document. */
  function PlainTextOf(e: Extractor, doc: Node): string
  {
    Normalize(ExtractedDocument(e.blockTags, doc))
  }

  /** The `strings.Builder` the walk appends to. */
  class Builder {
    var buf: string

    constructor ()
      ensures buf == []
    {
      buf := [];
    }

    method WriteString(s: string)
      modifies this
      ensures buf == old(buf) + s
    {
      buf := buf + s;
    }
  }

  /** The branch of `extractText` that strips the leading IsSpace run of a
      list item's first text; `data[0]` makes it demand a non-empty text. */
  method ListItemText(data: string) returns (r: string)
    requires data != []
    ensures r == TrimLeft(data)
  {
    if IsSpace(data[0]) {
      var i := 1;
      while i < |data|
        invariant 1 <= i <= |data|
        invariant TrimLeft(data[i..]) == TrimLeft(data)
      {
        if !IsSpace(data[i]) {
          break;
        }
        assert data[i..][1..] == data[i + 1..];
        i := i + 1;
      }
      r := data[i..];
    } else {
      r := data;
    }
  }

  /** `extractText`: appends the text of `node` to the builder. The parent
      links are the `ancestors` (their tags, nearest first), which the list
      classification walks; `ctx` is what they determine. */
  method ExtractText(e: Extractor, b: Builder, node: Node, ancestors: seq<string>, ghost ctx: Context,
                     isFirstChild: bool, idx: nat)
    requires NonEmptyTexts(node) && ctx == ContextOf(ancestors)
    modifies b
    ensures b.buf == old(b.buf) + Extracted(e.blockTags, node, ctx, isFirstChild, idx)
    decreases node, 1
  {
    ghost var start := b.buf;
    var atom := Atom(node);
    ghost var marker := Marker(if atom == "li" then ctx.listAbove else Unknown, idx);
    var liType := ComputeListItemType(atom, ancestors);
    if liType == OrderedListItem {
      b.WriteString(Decimal(idx) + ". ");
    } else if liType == UnorderedListItem {
      b.WriteString("- ");
    }
    assert b.buf == start + marker;

    ghost var text := if !node.Text? then ""
      else if ctx.parentIsListItem && isFirstChild then TrimLeft(node.data)
      else node.data;
    if node.Text? {
      if !IsListItemTextFirstChild(node, ancestors, isFirstChild) {
        b.WriteString(node.data);
      } else {
        var listItemText := ListItemText(node.data);
        b.WriteString(listItemText);
      }
    }
    assert b.buf == (start + marker) + text;
    AppendAssoc(start, marker, text);
    ghost var head := marker + text;
    if atom == "br" {
      b.WriteString("\n");
      AppendAssoc(start, head, "\n");
      assert Extracted(e.blockTags, node, ctx, isFirstChild, idx) == head + "\n";
      return;
    }

    ExtractChildren(e, b, node, ancestors, ctx);
    ghost var childText := ExtractedChildren(e.blockTags, node, |Children(node)|, ctx);
    AppendAssoc(start, head, childText);
    ghost var blockBreak := if atom in e.blockTags then "\n" else "";
    if atom in e.blockTags {
      b.WriteString("\n");
    }
    assert b.buf == start + (head + childText) + blockBreak;
    AppendAssoc(start, head + childText, blockBreak);
    AppendAssoc(head, childText, blockBreak);
    assert Extracted(e.blockTags, node, ctx, isFirstChild, idx) == head + (childText + blockBreak);
  }

  /** The loop of `extractText` over the children of `node`, with the
      counter `i` that only a `ul`/`ol` advances. */
  method ExtractChildren(e: Extractor, b: Builder, node: Node, ancestors: seq<string>, ghost ctx: Context)
    requires NonEmptyTexts(node) && ctx == ContextOf(ancestors)
    modifies b
    ensures b.buf == old(b.buf) + ExtractedChildren(e.blockTags, node, |Children(node)|, ctx)
    decreases node, 0
  {
    var atom := Atom(node);
    var children := Children(node);
    var i := 0;
    var isList := IsList(atom);
    ChildContextOf(ancestors, atom);
    for k := 0 to |children|
      invariant i == if isList then k else 0
      invariant b.buf == old(b.buf) + ExtractedChildren(e.blockTags, node, k, ctx)
    {
      if isList {
        i := i + 1;
      }
      assert children[k] in node.children;
      ExtractText(e, b, children[k], [atom] + ancestors, ChildContext(ctx, atom), k == 0, i);
      ChildAppended(e.blockTags, node, k, ctx, old(b.buf), b.buf);
    }
  }

  /** One turn of the children loop: appending child `k`'s text extends the
      text of the first `k` children to the first `k + 1`. */
  lemma ChildAppended(tags: set<string>, p: Node, k: nat, ctx: Context, start: string, buf: string)
    requires k < |Children(p)|
    requires buf == (start + ExtractedChildren(tags, p, k, ctx))
      + Extracted(tags, Children(p)[k], ChildContext(ctx, Atom(p)), k == 0, if IsList(Atom(p)) then k + 1 else 0)
    ensures buf == start + ExtractedChildren(tags, p, k + 1, ctx)
  {
    ExtractedChildrenStep(tags, p, k, ctx);
    AppendAssoc(start, ExtractedChildren(tags, p, k, ctx),
      Extracted(tags, Children(p)[k], ChildContext(ctx, Atom(p)), k == 0, if IsList(Atom(p)) then k + 1 else 0));
  }

  /** `PlainText` on the parser's result: the parse error is passed on
      unchanged, otherwise the walk's buffer is normalized. */
  method PlainText(e: Extractor, parsed: Result<Node>) returns (r: Result<string>)
    requires parsed.Success? ==> NonEmptyTexts(parsed.value)
    ensures parsed.Failure? ==> r == Failure(parsed.error)
    ensures parsed.Success? ==> r == Success(PlainTextOf(e, parsed.value))
  {
    if parsed.Failure? {
      return Failure(parsed.error);
    }
    var b := new Builder();
    ExtractText(e, b, parsed.value, [], ContextOf([]), false, 0);
    var output := b.buf;
    assert output == ExtractedDocument(e.blockTags, parsed.value);
    var i := TrimIndex(output);
    output := output[i..];
    output := Collapse(output);
    return Success(output);
  }

  // ---------------------------------------------------------------------
  // Properties of the walk

  /** The text content of a tree: its text nodes' data in document order. */
  function TextContent(n: Node): string
    decreases n, 1
  {
    if n.Text? then n.data else ChildrenContent(n, |n.children|)
  }

  function ChildrenContent(p: Node, k: nat): string
    requires !p.Text? && k <= |p.children|
    decreases p, 0, k
  {
    if k == 0 then "" else ChildrenContent(p, k - 1) + TextContent(p.children[k - 1])
  }

  /** No `li`, no `br` and no block tag anywhere in the tree (the atom of
      text and other nodes is "", so "" must not be a block tag either). */
  predicate NoMarkup(tags: set<string>, n: Node)
  {
    Atom(n) != "li" && Atom(n) != "br" && Atom(n) !in tags &&
    (n.Text? || forall c | c in n.children :: NoMarkup(tags, c))
  }

  /** Without list items, line breaks and block tags the walk writes exactly
      the text content: tags and their attributes contribute nothing. */
  lemma {:induction false} PlainTreeIsTextContent(tags: set<string>, n: Node, ctx: Context, isFirstChild: bool, idx: nat)
    requires NoMarkup(tags, n) && !ctx.parentIsListItem
    ensures Extracted(tags, n, ctx, isFirstChild, idx) == TextContent(n)
    decreases n, 1
  {
    if n.Text? {
      assert Extracted(tags, n, ctx, isFirstChild, idx) == ("" + n.data) + ("" + "");
      EmptyAround(n.data);
    } else {
      PlainChildrenAreTextContent(tags, n, |n.children|, ctx);
      var inner := ExtractedChildren(tags, n, |n.children|, ctx);
      assert Extracted(tags, n, ctx, isFirstChild, idx) == ("" + "") + (inner + "");
      EmptyAround(inner);
    }
  }

  lemma EmptyAround(s: string)
    ensures ("" + s) + ("" + "") == s && ("" + "") + (s + "") == s
  {
  }

  lemma {:induction false} PlainChildrenAreTextContent(tags: set<string>, p: Node, k: nat, ctx: Context)
    requires !p.Text? && k <= |p.children| && NoMarkup(tags, p)
    ensures ExtractedChildren(tags, p, k, ctx) == ChildrenContent(p, k)
    decreases p, 0, k, 1
  {
    if k > 0 {
      PlainChildrenAreTextContent(tags, p, k - 1, ctx);
      PlainChildIsTextContent(tags, p, k, ctx);
    }
  }

  /** Child `k - 1` adds its text content to both sides. */
  lemma {:induction false} PlainChildIsTextContent(tags: set<string>, p: Node, k: nat, ctx: Context)
    requires !p.Text? && 0 < k <= |p.children| && NoMarkup(tags, p)
    ensures ExtractedChildren(tags, p, k, ctx) == ExtractedChildren(tags, p, k - 1, ctx) + TextContent(p.children[k - 1])
    decreases p, 0, k, 0
  {
    var child := p.children[k - 1];
    assert child in p.children;
    PlainTreeIsTextContent(tags, child, ChildContext(ctx, Atom(p)), k == 1, if IsList(Atom(p)) then k else 0);
  }

  /** A `br` writes one "\n" and nothing of its children or block break. */
  lemma BreakWritesNewline(tags: set<string>, children: seq<Node>, ctx: Context, isFirstChild: bool, idx: nat)
    ensures Extracted(tags, Element("br", children), ctx, isFirstChild, idx) == "\n"
  {
  }

  /** An element other than `br` and `li` writes its children's text, then
      one "\n" exactly when its tag is a block tag. */
  lemma BlockElementText(tags: set<string>, atom: string, children: seq<Node>, ctx: Context, isFirstChild: bool, idx: nat)
    requires atom != "br" && atom != "li"
    ensures var n := Element(atom, children);
      var inner := ExtractedChildren(tags, n, |children|, ctx);
      Extracted(tags, n, ctx, isFirstChild, idx) == if atom in tags then inner + "\n" else inner
  {
  }

  /** The first text child of a list item loses its leading IsSpace run
      (TrimLeftOfSpaces: an all-space text writes nothing); any other text
      is written as it is. */
  lemma ListItemTextStripped(tags: set<string>, data: string, ctx: Context, isFirstChild: bool, idx: nat)
    requires ctx.parentIsListItem
    ensures Extracted(tags, Text(data), ctx, isFirstChild, idx)
      == (if isFirstChild then TrimLeft(data) else data) + (if "" in tags then "\n" else "")
  {
  }

  /** An `li` starts with the marker of the nearest list above it (see
      NearestListCharacterized for which one that is), then the text of its
      children, then its block break. */
  lemma ListItemMarker(tags: set<string>, children: seq<Node>, ctx: Context, isFirstChild: bool, idx: nat)
    ensures var n := Element("li", children);
      var inner := ExtractedChildren(tags, n, |children|, ctx);
      var brk := if "li" in tags then "\n" else "";
      Extracted(tags, n, ctx, isFirstChild, idx) == Marker(ctx.listAbove, idx) + (inner + brk)
  {
    var n := Element("li", children);
    var marker := Marker(ctx.listAbove, idx);
    var rest := ExtractedChildren(tags, n, |children|, ctx) + (if "li" in tags then "\n" else "");
    assert Extracted(tags, n, ctx, isFirstChild, idx) == (marker + "") + rest;
    AppendEmpty(marker);
  }

  /** The text of the `li` child `j` is its marker followed by the rest. */
  lemma ItemTextAfterMarker(tags: set<string>, p: Node, j: nat, ctx: Context, marker: string) returns (rest: string)
    requires j < |Children(p)|
    requires Children(p)[j].Element? && Children(p)[j].atom == "li"
    requires marker == Marker(ChildContext(ctx, Atom(p)).listAbove, if IsList(Atom(p)) then j + 1 else 0)
    ensures ExtractedChildren(tags, p, j + 1, ctx) == ExtractedChildren(tags, p, j, ctx) + (marker + rest)
  {
    var child := Children(p)[j];
    var cctx := ChildContext(ctx, Atom(p));
    var number := if IsList(Atom(p)) then j + 1 else 0;
    assert child == Element("li", child.children);
    ListItemMarker(tags, child.children, cctx, j == 0, number);
    rest := ExtractedChildren(tags, child, |child.children|, cctx) + (if "li" in tags then "\n" else "");
    ExtractedChildrenStep(tags, p, j, ctx);
  }

  /** The shared step: the text of the `li` child `j` starts with the
      marker, right after the text of the earlier siblings. */
  lemma ItemMarkerAt(tags: set<string>, p: Node, j: nat, ctx: Context, marker: string)
    requires j < |Children(p)|
    requires Children(p)[j].Element? && Children(p)[j].atom == "li"
    requires marker == Marker(ChildContext(ctx, Atom(p)).listAbove, if IsList(Atom(p)) then j + 1 else 0)
    ensures ExtractedChildren(tags, p, j, ctx) + marker <= ExtractedChildren(tags, p, j + 1, ctx)
  {
    var rest := ItemTextAfterMarker(tags, p, j, ctx, marker);
    var before := ExtractedChildren(tags, p, j, ctx);
    AppendAssoc(before, marker, rest);
    PrefixOfAppend(before + marker, rest);
  }

  /** The number written for the `li` at position `j` (from 0) among ALL the
      children of its parent, whitespace text included, is j + 1 when the
      parent is a `ul`/`ol` and 0 otherwise; it follows the text of the
      earlier siblings. A nested list counts from 1 again. */
  lemma ItemNumberIsPosition(tags: set<string>, p: Node, j: nat, ctx: Context)
    requires j < |Children(p)|
    requires Children(p)[j].Element? && Children(p)[j].atom == "li"
    requires ChildContext(ctx, Atom(p)).listAbove == OrderedListItem
    ensures var before := ExtractedChildren(tags, p, j, ctx);
      var number := if IsList(Atom(p)) then j + 1 else 0;
      before + (Decimal(number) + ". ") <= ExtractedChildren(tags, p, j + 1, ctx)
  {
    var number := if IsList(Atom(p)) then j + 1 else 0;
    ItemMarkerAt(tags, p, j, ctx, Decimal(number) + ". ");
  }

  /** The same under a `ul`: the marker is "- ". */
  lemma UnorderedItemMarker(tags: set<string>, p: Node, j: nat, ctx: Context)
    requires j < |Children(p)|
    requires Children(p)[j].Element? && Children(p)[j].atom == "li"
    requires ChildContext(ctx, Atom(p)).listAbove == UnorderedListItem
    ensures ExtractedChildren(tags, p, j, ctx) + "- " <= ExtractedChildren(tags, p, j + 1, ctx)
  {
    ItemMarkerAt(tags, p, j, ctx, "- ");
  }

  /** What `PlainText` returns is normalized: no leading IsSpace character,
      every "\n" free of neighbouring whitespace, a fixed point of the
      normalization, and the walk's output with only whitespace removed. */
  lemma PlainTextIsNormalized(e: Extractor, doc: Node)
    ensures var out := PlainTextOf(e, doc);
      (out == [] || !IsSpace(out[0])) && Collapsed(out) && Normalize(out) == out
    ensures Visible(PlainTextOf(e, doc)) == Visible(ExtractedDocument(e.blockTags, doc))
  {
    var raw := ExtractedDocument(e.blockTags, doc);
    NormalizeStartsVisible(raw);
    NormalizeIsCollapsed(raw);
    NormalizeIdempotent(raw);
    NormalizeKeepsVisible(raw);
  }

  /** A document without list items, line breaks and block tags comes out
      as its normalized text content. */
  lemma PlainDocumentText(e: Extractor, doc: Node)
    requires NoMarkup(e.blockTags, doc)
    ensures PlainTextOf(e, doc) == Normalize(TextContent(doc))
  {
    PlainTreeIsTextContent(e.blockTags, doc, ContextOf([]), false, 0);
  }
}
