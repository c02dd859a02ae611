# HTML plain-text extractor, modelled in Dafny

This project models the HTML extractor of plaintext-extractor (`html/extractor.go`). The extractor works in three steps:

1. It builds a set of block tags from a default list plus the caller's extra tags.
2. It walks the parsed HTML tree in document order and appends to a string builder:
   - list-item markers (`"N. "` under an `ol`, `"- "` under a `ul`);
   - text data, where the first text child of a list item loses its leading whitespace;
   - `"\n"` for `br`;
   - a trailing `"\n"` after each element whose tag is a block tag.
3. It normalizes the buffer. Leading `isSpace` characters are trimmed. Then every match of the RE2 pattern `\s*\n+\s*` becomes one `"\n"`.

Modules:

- `Whitespace` (`whitespace.dfy`) holds the normalizer.
  - `IsSpace` is the `isSpace` class, which includes `\v`.
  - `IsRegexSpace` is RE2's `\s`, which is `[\t\n\f\r ]` without `\v`.
  - `TrimLeft`, the imperative `TrimIndex`, and `Collapse` model the trim and the regex step. Because a match always spans a whole maximal `\s` run containing a line break, `Collapse` replaces each such run by `"\n"` and keeps every other character.
- `Dom` (`dom.dfy`) holds the parsed tree and the list classification.
  - The tree is a datatype `Element(atom, children) | Text(data) | Other(children)`.
  - `Atom` plays `DataAtom.String()`, which is `""` for text, comment and document nodes.
  - The parent walk of `listItemType` is `ComputeListItemType` over the ancestors' tags (nearest first), specified by `NearestList`.
  - `Context` is what the walk needs to know of the ancestors. `ChildContextOf` proves that passing it down equals walking the parents again.
- `HtmlExtractor` (`extractor.dfy`) holds the extractor.
  - `NewExtractor` builds the block-tag set.
  - `Extracted` and `ExtractedChildren` specify the text the walk appends.
  - `ExtractText` and `ExtractChildren` are the imperative walk. They append to a `Builder` class (the `strings.Builder`) with the sibling loop and its counter, and are proved to append exactly `Extracted`.
  - `PlainText` takes the parser's result, passes a parse error through, and normalizes the walk's output.
  - Lemmas state the walk's and the normalizer's properties.
- `ExtractorExamples` (`examples.dfy`) runs documents through the model:
  - two documents from the test table;
  - an ordered list with whitespace text between its items.

  The block-tag set there is a stand-in, because the library's default list is not part of this model.

As in the source, the counter of a `ul`/`ol` counts every direct child, including whitespace text nodes. So `<ol>\n<li>a</li>\n<li>b</li></ol>` numbers its items 2 and 4 (`ExtractorExamples.SpacedOrderedList`). An `li` whose nearest list is an `ol` but whose parent is not a list gets index 0.

## Model

| member | source | states |
|---|---|---|
| HtmlExtractor.NewExtractor | html/extractor.go:18-28 | a tag is a block tag exactly when it is among the defaults or the extra tags |
| HtmlExtractor.PlainText | html/extractor.go:31-52 | a parse error is returned unchanged; otherwise the result is the normalized output of the walk from the root (no ancestors, counter 0) |
| HtmlExtractor.ExtractText | html/extractor.go:59-118 | the walk appends to the builder exactly `Extracted` for the node, its ancestors' context, its first-child flag and its counter, and leaves the earlier contents in place |
| HtmlExtractor.ExtractChildren | html/extractor.go:107-114 | the sibling loop appends the children's texts in order, each child getting its 1-based position under `ul`/`ol` and 0 elsewhere |
| HtmlExtractor.ListItemText | html/extractor.go:87-98 | the loop that skips a list item's leading spaces yields the text without its leading `isSpace` run |
| Whitespace.TrimIndex | html/extractor.go:40-49 | the index loop stops at the first non-`isSpace` character: the suffix from there is `TrimLeft` |
| Whitespace.TrimLeft | html/extractor.go:42-49 | the result is a suffix of the input, everything removed is `isSpace`, and the result is empty or starts with a non-`isSpace` character |
| Whitespace.TrimLeftOfSpaces | html/extractor.go:88-95 | a text made only of `isSpace` characters trims to the empty string |
| Whitespace.RunLength | html/extractor.go:50 | the length of the maximal leading run of `\s` characters: all before it are `\s`, the one at it is not |
| Whitespace.Collapse | html/extractor.go:50 | the replacement never lengthens the text and keeps a leading non-whitespace character |
| Whitespace.CollapseWithoutNewline | html/extractor.go:50 | a text without a line break is left unchanged, so runs of spaces and tabs survive |
| Whitespace.CollapseAppend | html/extractor.go:50 | collapsing is local: a text split right after a non-whitespace character collapses piece by piece |
| Whitespace.RunLengthOfAppend | html/extractor.go:50 | a run that stops inside a text is not lengthened by what follows it |
| Whitespace.CollapseIsCollapsed | html/extractor.go:50 | in the output no line break has a `\s` neighbour |
| Whitespace.CollapseFixesCollapsed | html/extractor.go:50 | a text in which no line break has a `\s` neighbour is a fixed point of the replacement |
| Whitespace.CollapseIdempotent | html/extractor.go:50 | replacing twice is replacing once |
| Whitespace.CollapseKeepsVisible | html/extractor.go:50 | the replacement removes only whitespace: the non-`isSpace` characters are kept, in order |
| Whitespace.NormalizeStartsVisible | html/extractor.go:42-50 | the normalized text is empty or starts with a non-`isSpace` character |
| Whitespace.NormalizeIsCollapsed | html/extractor.go:42-50 | in the normalized text no line break has a `\s` neighbour |
| Whitespace.NormalizeIdempotent | html/extractor.go:42-50 | normalizing a normalized text changes nothing |
| Whitespace.NormalizeKeepsVisible | html/extractor.go:42-50 | trim and replacement together remove only whitespace |
| Whitespace.NormalizeWithoutSpace | html/extractor.go:42-50 | a text without whitespace is normalized to itself |
| Dom.ComputeListItemType | html/extractor.go:128-143 | the parent-walk loop returns `ListItemTypeOf`: Unknown for a non-`li`, otherwise the kind of the nearest `ul`/`ol` ancestor |
| Dom.NearestListCharacterized | html/extractor.go:133-142 | ordered exactly when the nearest list ancestor is an `ol`, unordered exactly when it is a `ul`, and Unknown exactly when no ancestor is a list |
| Dom.ChildContextOf | html/extractor.go:133-147 | the context handed to a child equals the one computed from the child's own ancestors: nearest list and whether the parent is a list item |
| Dom.Decimal | html/extractor.go:62 | the numeral is non-empty, all digits, and has no leading zero unless the number is 0 |
| Dom.DecimalRoundTrip | html/extractor.go:62 | reading the numeral back gives the number |
| HtmlExtractor.PlainTreeIsTextContent | html/extractor.go:59-118 | without `li`, `br` and block tags the walk writes exactly the text nodes' data in document order; tags and attributes add nothing |
| HtmlExtractor.PlainChildrenAreTextContent | html/extractor.go:107-114 | the same for the first k children of a node |
| HtmlExtractor.PlainChildIsTextContent | html/extractor.go:107-114 | each such child adds exactly its text content |
| HtmlExtractor.PlainDocumentText | html/extractor.go:31-52 | for such a document `PlainText` returns the normalized text content |
| HtmlExtractor.BreakWritesNewline | html/extractor.go:102-105 | a `br` writes exactly `"\n"`, whatever its children |
| HtmlExtractor.BlockElementText | html/extractor.go:107-117 | an element other than `br`/`li` writes its children's text and then one `"\n"` exactly when its tag is a block tag |
| HtmlExtractor.ListItemTextStripped | html/extractor.go:67-100 | under a list item, the first text child loses its leading `isSpace` run and any later text is written verbatim |
| HtmlExtractor.ListItemMarker | html/extractor.go:60-65 | an `li` writes the marker of the nearest list above it, then its children, then its block break |
| HtmlExtractor.ItemTextAfterMarker | html/extractor.go:59-114 | the text of the `li` at position j begins with its marker |
| HtmlExtractor.ItemMarkerAt | html/extractor.go:59-114 | that marker follows the text of the earlier siblings |
| HtmlExtractor.ItemNumberIsPosition | html/extractor.go:59-114 | under an `ol`, the `li` at position j among all children is numbered j + 1, right after the earlier siblings' text; a non-list parent gives 0 |
| HtmlExtractor.UnorderedItemMarker | html/extractor.go:59-114 | under a `ul`, the `li` at position j writes `"- "` right after the earlier siblings' text |
| HtmlExtractor.PlainTextIsNormalized | html/extractor.go:40-51 | the returned text does not start with `isSpace`, has no line break with a `\s` neighbour, is a fixed point of normalization, and keeps all non-whitespace of the walk's output |
| ExtractorExamples.BreakExample | html/extractor_test.go:66 | `a<br>b` reads `"a\nb"` |
| ExtractorExamples.LinkExample | html/extractor_test.go:68 | `<a href=…>link</a>` reads `"link"` |
| ExtractorExamples.SpacedOrderedList | html/extractor.go:107-114 | an `ol` with whitespace text before each item numbers its items 2 and 4 |

## Left out

- `html.Parse` is an external HTML parser. `PlainText` takes the parse result instead: a tree, or an opaque `ParseError` that is passed through.
- The default block-tag list is defined in a file that is not part of this model. `NewExtractor` takes it as the parameter `defaults`.
- `log.Printf` at line 68 is a debug side effect. It is not modelled.
- The `regexp` engine is not modelled. `Collapse` states its effect on the pattern `\s*\n+\s*` directly.
- `fmt.Sprintf("%d. ", idx)` is modelled by `Decimal` for the non-negative counters the walk passes.
- Go strings are byte sequences; the model uses characters. Both whitespace classes are ASCII, and no byte of a multi-byte UTF-8 character is ASCII, so the classes select the same positions.
- Parent, sibling and first-child links are replaced by the list of ancestor tags and a first-child flag. The builder's buffer is a `string` field. The block-tag map is a `set<string>`.
- The package-level composition (`plaintext.NewExtractor`) and the markdown extractor are not part of this model.
- HtmlExtractor.ExtractText: requires every text node to be non-empty. The source indexes `node.Data[0]` and would panic on an empty text, and the parser never builds one.
- HtmlExtractor.PlainText: requires non-empty text nodes in the parsed tree, for the same reason.
- HtmlExtractor.ItemNumberIsPosition: states the marker as a prefix of the first j + 1 children's text, not of the whole document's output.
- HtmlExtractor.UnorderedItemMarker: states the marker as a prefix of the first j + 1 children's text, not of the whole document's output.
