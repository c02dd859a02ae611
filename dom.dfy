// The parsed HTML tree as the extractor sees it, and the list-item
// classification that walks a node's ancestors.

module Dom {

  /** A node of the parsed document. The parser's parent and sibling links
      are replaced by the children sequences (document order) and by context
      the extractor passes down. `atom` is the parser's atom name of the tag,
      "" for a tag name the parser has no atom for; attributes such as `href`
      play no part in extraction and are not kept. */
  datatype Node =
    | Element(atom: string, children: seq<Node>)
    | Text(data: string)
    | Other(children: seq<Node>)   // the document, comments, doctypes

  /** `node.DataAtom.String()`: "" for every node that is not an element
      with a known tag. */
  function Atom(n: Node): string
  {
    if n.Element? then n.atom else ""
  }

  /** The children in document order; a text node has none. */
  function Children(n: Node): seq<Node>
  {
    if n.Text? then [] else n.children
  }

  /** Every text node holds at least one character, as the parser builds
      them. */
  predicate NonEmptyTexts(n: Node)
  {
    match n
    case Text(data) => data != []
    case Element(_, cs) => forall c | c in cs :: NonEmptyTexts(c)
    case Other(cs) => forall c | c in cs :: NonEmptyTexts(c)
  }

  datatype ListItemType = Unknown | UnorderedListItem | OrderedListItem

  predicate IsList(atom: string)
  {
    atom == "ul" || atom == "ol"
  }

  /** The kind of the nearest list among `ancestors` (nearest first). */
  function NearestList(ancestors: seq<string>): ListItemType
  {
    if ancestors == [] then Unknown
    else if ancestors[0] == "ul" then UnorderedListItem
    else if ancestors[0] == "ol" then OrderedListItem
    else NearestList(ancestors[1..])
  }

  /** `listItemType`: a node is a list item when its tag is `li`; its kind
      comes from the nearest `ul`/`ol` ancestor, other ancestors skipped. */
  function ListItemTypeOf(atom: string, ancestors: seq<string>): ListItemType
  {
    if atom != "li" then Unknown else NearestList(ancestors)
  }

  /** `ancestors[j]` is the nearest list ancestor. */
  predicate NearestListAt(ancestors: seq<string>, j: int)
  {
    0 <= j < |ancestors| && IsList(ancestors[j]) &&
    forall i :: 0 <= i < j ==> !IsList(ancestors[i])
  }

  /** The loop of `listItemType` that follows the parent links. */
  method ComputeListItemType(atom: string, ancestors: seq<string>) returns (t: ListItemType)
    ensures t == ListItemTypeOf(atom, ancestors)
  {
    if atom != "li" {
      return Unknown;
    }
    var p := 0;
    while p < |ancestors|
      invariant p <= |ancestors|
      invariant NearestList(ancestors[p..]) == NearestList(ancestors)
    {
      if ancestors[p] == "ul" {
        return UnorderedListItem;
      }
      if ancestors[p] == "ol" {
        return OrderedListItem;
      }
      assert ancestors[p..][1..] == ancestors[p + 1..];
      p := p + 1;
    }
    return Unknown;
  }

  /** An `li` is ordered exactly when its nearest list ancestor is an `ol`,
      unordered exactly when it is a `ul`, and no list item without one. */
  lemma {:induction false} NearestListCharacterized(ancestors: seq<string>)
    ensures NearestList(ancestors) == OrderedListItem <==>
      exists j :: NearestListAt(ancestors, j) && ancestors[j] == "ol"
    ensures NearestList(ancestors) == UnorderedListItem <==>
      exists j :: NearestListAt(ancestors, j) && ancestors[j] == "ul"
    ensures NearestList(ancestors) == Unknown <==>
      forall i :: 0 <= i < |ancestors| ==> !IsList(ancestors[i])
  {
    if ancestors == [] {
    } else if IsList(ancestors[0]) {
      assert NearestListAt(ancestors, 0);
      forall j | NearestListAt(ancestors, j) ensures j == 0 {
      }
    } else {
      var rest := ancestors[1..];
      NearestListCharacterized(rest);
      forall j | NearestListAt(ancestors, j) ensures j >= 1 && NearestListAt(rest, j - 1) {
        assert rest[j - 1] == ancestors[j];
      }
      forall j | NearestListAt(rest, j) ensures NearestListAt(ancestors, j + 1) {
        assert ancestors[j + 1] == rest[j];
      }
      if forall i :: 0 <= i < |rest| ==> !IsList(rest[i]) {
        forall i | 0 <= i < |ancestors| ensures !IsList(ancestors[i]) {
          if i > 0 {
            assert ancestors[i] == rest[i - 1];
          }
        }
      } else {
        var i :| 0 <= i < |rest| && IsList(rest[i]);
        assert ancestors[i + 1] == rest[i];
      }
    }
  }

  /** `isListItemTextFirstChild`: a text node that is the first child of a
      list item. `ancestors[0]` is the parent; the root has no parent. */
  predicate IsListItemTextFirstChild(node: Node, ancestors: seq<string>, isFirstChild: bool)
  {
    node.Text? && ancestors != [] &&
    ListItemTypeOf(ancestors[0], ancestors[1..]) != Unknown && isFirstChild
  }

  /** What the walk needs to know of a node's ancestors: the kind of the
      nearest list above it, and whether its parent is a list item (an `li`
      with a list above it). */
  datatype Context = Context(listAbove: ListItemType, parentIsListItem: bool)

  function ContextOf(ancestors: seq<string>): Context
  {
    Context(NearestList(ancestors),
            ancestors != [] && ListItemTypeOf(ancestors[0], ancestors[1..]) != Unknown)
  }

  /** The context of the children of a node with tag `atom`. */
  function ChildContext(ctx: Context, atom: string): Context
  {
    Context(if atom == "ul" then UnorderedListItem
            else if atom == "ol" then OrderedListItem
            else ctx.listAbove,
            atom == "li" && ctx.listAbove != Unknown)
  }

  /** Passing the context down is the same as walking the parents again. */
  lemma ChildContextOf(ancestors: seq<string>, atom: string)
    ensures ContextOf([atom] + ancestors) == ChildContext(ContextOf(ancestors), atom)
  {
    assert ([atom] + ancestors)[1..] == ancestors;
  }

  /** The decimal numeral of `fmt.Sprintf("%d", n)` for n >= 0. */
  function Decimal(n: nat): (r: string)
    ensures r != [] && (r[0] == '0' ==> n == 0)
    ensures forall i :: 0 <= i < |r| ==> '0' <= r[i] <= '9'
  {
    if n < 10 then [Digit(n)] else Decimal(n / 10) + [Digit(n % 10)]
  }

  function Digit(d: nat): (c: char)
    requires d < 10
  {
    "0123456789"[d]
  }

  /** The value of a numeral, the inverse of Decimal. */
  function DecimalValue(s: string): nat
  {
    if s == [] then 0
    else 10 * DecimalValue(s[..|s| - 1]) + (if '0' <= s[|s| - 1] <= '9' then (s[|s| - 1] - '0') as nat else 0)
  }

  lemma {:induction false} DecimalRoundTrip(n: nat)
    ensures DecimalValue(Decimal(n)) == n
  {
    var r := Decimal(n);
    if n < 10 {
      DigitValue(n);
      assert r[..0] == [];
    } else {
      DecimalRoundTrip(n / 10);
      DigitValue(n % 10);
      assert r[..|r| - 1] == Decimal(n / 10);
      assert r[|r| - 1] == Digit(n % 10);
    }
  }

  lemma DigitValue(d: nat)
    requires d < 10
    ensures '0' <= Digit(d) <= '9' && (Digit(d) - '0') as nat == d
  {
  }
}
