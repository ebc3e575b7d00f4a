/** A model of an Elasticsearch query builder: a tree of query parts built by
    small constructor functions, a root `Query` object whose list of top-level
    parts is appended to, and a depth-first renderer that turns the tree into
    the text of a request body by plain string concatenation (no escaping).
 */
module EsQuery {

  /** The child list of a part. `Nil` is an absent (nil) list, whose body is
      not rendered at all; `Slice([])` is a present but empty list, rendered
      as an empty bracket pair. */
  datatype Children = Nil | Slice(items: seq<Part>)

  /** One node of the query tree: a clause label such as "bool", "must",
      "term" or a field name, a scalar value ("" when there is none), the
      array-framing flag chosen by the builder, and the children. */
  datatype Part = Part(descriptor: string, value: string, isArray: bool, children: Children)

  /** Number of children; a nil list has none. */
  function Count(children: Children): nat
  {
    match children
    case Nil => 0
    case Slice(cs) => |cs|
  }

  // ---------------------------------------------------------------------------
  // Builders
  // ---------------------------------------------------------------------------

  /** A scalar leaf: a field name with its value and no children. */
  function LeafPart(descriptor: string, value: string): (r: Part)
    ensures r.descriptor == descriptor && r.value == value
    ensures !r.isArray && r.children == Nil
  {
    Part(descriptor, value, false, Nil)
  }

  /** Replaces the children of `parent` by a fresh one-element list holding
      the leaf `descriptor`/`value`; nothing else of `parent` changes. */
  function SetNestedQueryPart(parent: Part, descriptor: string, value: string): (r: Part)
    ensures r.descriptor == parent.descriptor && r.value == parent.value
    ensures r.isArray == parent.isArray
    ensures r.children.Slice? && |r.children.items| == 1
    ensures r.children.items[0] == LeafPart(descriptor, value)
  {
    var nested := [];
    var nested' := nested + [LeafPart(descriptor, value)];
    parent.(children := Slice(nested'))
  }

  /** The shared shape of a connective that keeps its children as given. */
  function Connective(descriptor: string, isArray: bool, children: Children): Part
  {
    Part(descriptor, "", isArray, children)
  }

  /** A "bool" clause: its children form one flat object, whatever their number. */
  function Bool(children: Children): (r: Part)
    ensures r.descriptor == "bool" && r.value == ""
    ensures r.children == children
    ensures !r.isArray
  {
    Connective("bool", false, children)
  }

  /** A "should" clause: array framing exactly when there is more than one child. */
  function Should(children: Children): (r: Part)
    ensures r.descriptor == "should" && r.value == ""
    ensures r.children == children
    ensures r.isArray <==> Count(children) > 1
  {
    Connective("should", Count(children) > 1, children)
  }

  /** A "must" clause: array framing exactly when there is more than one child. */
  function Must(children: Children): (r: Part)
    ensures r.descriptor == "must" && r.value == ""
    ensures r.children == children
    ensures r.isArray <==> Count(children) > 1
  {
    Connective("must", Count(children) > 1, children)
  }

  /** A "must_not" clause: array framing exactly when there is more than one child. */
  function MustNot(children: Children): (r: Part)
    ensures r.descriptor == "must_not" && r.value == ""
    ensures r.children == children
    ensures r.isArray <==> Count(children) > 1
  {
    Connective("must_not", Count(children) > 1, children)
  }

  /** A "filter" clause: array framing exactly when there is more than one child. */
  function Filter(children: Children): (r: Part)
    ensures r.descriptor == "filter" && r.value == ""
    ensures r.children == children
    ensures r.isArray <==> Count(children) > 1
  {
    Connective("filter", Count(children) > 1, children)
  }

  /** A "term" clause on one field: a node whose only child is the field leaf. */
  function Term(field: string, value: string): (r: Part)
    ensures r.descriptor == "term" && r.value == "" && !r.isArray
    ensures r.children.Slice? && |r.children.items| == 1
    ensures var leaf := r.children.items[0];
      leaf.descriptor == field && leaf.value == value && !leaf.isArray && leaf.children == Nil
  {
    SetNestedQueryPart(Part("term", "", false, Nil), field, value)
  }

  /** A "match" clause on one field: a node whose only child is the field leaf. */
  function Match(field: string, value: string): (r: Part)
    ensures r.descriptor == "match" && r.value == "" && !r.isArray
    ensures r.children.Slice? && |r.children.items| == 1
    ensures var leaf := r.children.items[0];
      leaf.descriptor == field && leaf.value == value && !leaf.isArray && leaf.children == Nil
  {
    SetNestedQueryPart(Part("match", "", false, Nil), field, value)
  }

  // ---------------------------------------------------------------------------
  // Renderer, as functions
  // ---------------------------------------------------------------------------

  /** The quoted label and colon that open every part's text. */
  function Header(descriptor: string): string
  {
    "\"" + descriptor + "\"" + " : "
  }

  /** The text of a sequence of sibling parts whose parent asked for array
      framing (`parentArray`) or not: one fragment per part, in order, with a
      single comma between neighbours. The empty sequence gives "". */
  function Render(parts: seq<Part>, parentArray: bool): (r: string)
    decreases parts, 2
  {
    if parts == [] then ""
    else if |parts| == 1 then Fragment(parts[0], parentArray)
    else Fragment(parts[0], parentArray) + "," + Render(parts[1..], parentArray)
  }

  /** The text of one part. Inside an array each part is wrapped in its own
      " { " ... " } "; the value is written only when non-empty; a present
      child list is written between " [ " ... " ] " when the part itself is
      array-framed and " { " ... " } " otherwise. */
  function Fragment(part: Part, parentArray: bool): (r: string)
    decreases part, 1
  {
    Open(parentArray) + Header(part.descriptor) + ValueText(part.value) + Body(part) + Close(parentArray)
  }

  /** " { " when the parent is an array, else nothing. */
  function Open(parentArray: bool): string
  {
    if parentArray then " { " else ""
  }

  /** " } " when the parent is an array, else nothing. */
  function Close(parentArray: bool): string
  {
    if parentArray then " } " else ""
  }

  /** The quoted value, or nothing when the value is empty. */
  function ValueText(value: string): string
  {
    if value != "" then "\"" + value + "\"" else ""
  }

  /** The framed children of a part, or nothing when its list is nil. */
  function Body(part: Part): (r: string)
    decreases part, 0
  {
    match part.children
    case Nil => ""
    case Slice(cs) =>
      Opener(part.isArray) + Render(cs, part.isArray) + Closer(part.isArray)
  }

  /** The bracket that opens a child list: " [ " for array framing, else " { ". */
  function Opener(isArray: bool): string
  {
    if isArray then " [ " else " { "
  }

  /** The bracket that closes a child list. */
  function Closer(isArray: bool): string
  {
    if isArray then " ] " else " } "
  }

  lemma Assoc4(a: string, b: string, c: string, d: string)
    ensures a + b + c + d == a + (b + c + d)
  {
  }

  lemma Assoc6(a: string, b: string, c: string, d: string, e: string, f: string)
    ensures a + b + c + d + e + f == a + (b + c + d + e + f)
  {
  }

  /** The whole request body: the root parts inside the fixed envelope. */
  function QueryString(parts: seq<Part>): string
  {
    "{ \"query\" : " + " { " + Render(parts, false) + " } " + " } "
  }

  // ---------------------------------------------------------------------------
  // Laws of the renderer
  // ---------------------------------------------------------------------------

  /** A lone part renders as its own fragment, with no separator. */
  lemma RenderSingle(part: Part, parentArray: bool)
    ensures Render([part], parentArray) == Fragment(part, parentArray)
  {
  }

  /** A list of more than one part is its first fragment, a comma, and the rest. */
  lemma RenderUnfold(parts: seq<Part>, parentArray: bool)
    requires |parts| > 1
    ensures Render(parts, parentArray)
      == Fragment(parts[0], parentArray) + "," + Render(parts[1..], parentArray)
  {
  }

  /** Splitting the head off a concatenation of sibling lists. */
  lemma HeadOfConcat(a: seq<Part>, b: seq<Part>)
    requires a != []
    ensures (a + b)[0] == a[0] && (a + b)[1..] == a[1..] + b
  {
  }

  /** Rendering distributes over concatenation of sibling lists: the two
      halves are joined by exactly one comma. */
  lemma {:induction false} RenderConcat(a: seq<Part>, b: seq<Part>, parentArray: bool)
    requires a != [] && b != []
    ensures Render(a + b, parentArray) == Render(a, parentArray) + "," + Render(b, parentArray)
    decreases |a|
  {
    if |a| == 1 {
      ConcatOne(a, b, parentArray);
    } else {
      RenderConcat(a[1..], b, parentArray);
      ConcatStep(a, b, parentArray);
    }
  }

  /** The base case of RenderConcat: one part in front. */
  lemma ConcatOne(a: seq<Part>, b: seq<Part>, parentArray: bool)
    requires |a| == 1 && b != []
    ensures Render(a + b, parentArray) == Render(a, parentArray) + "," + Render(b, parentArray)
  {
    HeadOfConcat(a, b);
    RenderUnfold(a + b, parentArray);
    assert a[1..] + b == b;
  }

  /** The inductive step of RenderConcat: a law for the tail gives it for the
      whole list. */
  lemma ConcatStep(a: seq<Part>, b: seq<Part>, parentArray: bool)
    requires |a| > 1 && b != []
    requires Render(a[1..] + b, parentArray)
      == Render(a[1..], parentArray) + "," + Render(b, parentArray)
    ensures Render(a + b, parentArray) == Render(a, parentArray) + "," + Render(b, parentArray)
  {
    var f := Fragment(a[0], parentArray);
    var x, y := Render(a + b, parentArray), Render(a[1..] + b, parentArray);
    assert x == f + "," + y by {
      HeadOfConcat(a, b);
      RenderUnfold(a + b, parentArray);
    }
    RenderUnfold(a, parentArray);
    CommaRegroup(x, y, f, Render(a[1..], parentArray), Render(b, parentArray));
  }

  lemma CommaRegroup(x: string, y: string, f: string, ra: string, rb: string)
    requires x == f + "," + y && y == ra + "," + rb
    ensures x == (f + "," + ra) + "," + rb
  {
  }

  /** Every fragment is non-empty, starts with the wrapping space inside an
      array and with the opening quote of its label otherwise, and ends with a
      space or a quote, never with a comma. */
  lemma FragmentEdges(part: Part, parentArray: bool)
    ensures var f := Fragment(part, parentArray);
      |f| > 0 && f[0] == (if parentArray then ' ' else '"')
      && (f[|f| - 1] == ' ' || f[|f| - 1] == '"')
  {
    var head := Open(parentArray) + Header(part.descriptor);
    var f := Fragment(part, parentArray);
    assert f == head + ValueText(part.value) + Body(part) + Close(parentArray);
    assert f[0] == head[0];
    if Close(parentArray) == "" && Body(part) == "" && ValueText(part.value) == "" {
      assert f == head;
    }
  }

  /** A rendered sibling list is empty exactly when the list is, and never
      starts or ends with a separator. */
  lemma {:induction false} RenderEdges(parts: seq<Part>, parentArray: bool)
    ensures Render(parts, parentArray) == "" <==> parts == []
    ensures var r := Render(parts, parentArray);
      r != "" ==> r[0] != ',' && r[|r| - 1] != ','
    decreases |parts|
  {
    if parts != [] {
      FragmentEdges(parts[0], parentArray);
      if |parts| > 1 {
        RenderEdges(parts[1..], parentArray);
        var f := Fragment(parts[0], parentArray);
        var rest := Render(parts[1..], parentArray);
        assert Render(parts, parentArray) == f + "," + rest;
        assert (f + "," + rest)[0] == f[0];
      }
    }
  }

  /** Joins strings with a separator between neighbours. */
  function Join(xs: seq<string>, sep: string): string
  {
    if xs == [] then "" else if |xs| == 1 then xs[0] else xs[0] + sep + Join(xs[1..], sep)
  }

  /** The per-part fragments of a sibling list, in order. */
  function Fragments(parts: seq<Part>, parentArray: bool): (r: seq<string>)
    ensures |r| == |parts|
    ensures forall i :: 0 <= i < |parts| ==> r[i] == Fragment(parts[i], parentArray)
  {
    seq(|parts|, i requires 0 <= i < |parts| => Fragment(parts[i], parentArray))
  }

  /** The rendered text is the ordered fragments joined by single commas. */
  lemma {:induction false} RenderIsJoin(parts: seq<Part>, parentArray: bool)
    ensures Render(parts, parentArray) == Join(Fragments(parts, parentArray), ",")
    decreases |parts|
  {
    if |parts| > 1 {
      var fs := Fragments(parts, parentArray);
      assert fs[1..] == Fragments(parts[1..], parentArray);
      RenderIsJoin(parts[1..], parentArray);
    }
  }

  /** Array framing of the parent wraps each fragment in its own braces. */
  lemma FragmentWrap(part: Part)
    ensures Fragment(part, true) == " { " + Fragment(part, false) + " } "
  {
  }

  /** A part without children writes its header and, when non-empty, its
      quoted value; nothing more. */
  lemma LeafFragment(part: Part)
    requires part.children == Nil
    ensures part.value == "" ==> Fragment(part, false) == Header(part.descriptor)
    ensures part.value != "" ==>
      Fragment(part, false) == Header(part.descriptor) + "\"" + part.value + "\""
  {
  }

  /** A part without a value writes its header and then its framed children. */
  lemma ClauseFragment(c: Part)
    requires c.value == ""
    ensures Fragment(c, false) == Header(c.descriptor) + Body(c)
  {
    assert Open(false) == "" && ValueText(c.value) == "" && Close(false) == "";
  }

  /** A value-less node given one leaf by SetNestedQueryPart renders as its own
      label followed by the leaf inside object braces. */
  lemma NestedLeafText(parent: Part, field: string, value: string)
    requires parent.value == "" && !parent.isArray
    ensures Fragment(SetNestedQueryPart(parent, field, value), false)
      == Header(parent.descriptor) + " { " + Header(field) + ValueText(value) + " } "
  {
    var leaf := LeafPart(field, value);
    assert Fragment(leaf, false) == Header(field) + ValueText(value) by {
      assert Open(false) == "" && Close(false) == "" && Body(leaf) == "";
    }
    var t := SetNestedQueryPart(parent, field, value);
    assert t.children.items == [leaf];
    assert Render(t.children.items, false) == Fragment(leaf, false);
    ClauseFragment(t);
  }

  /** A "term" or "match" node renders as the clause name followed by the
      field leaf inside object braces. */
  lemma TermAndMatchText(field: string, value: string)
    ensures Fragment(Term(field, value), false)
      == Header("term") + " { " + Header(field) + ValueText(value) + " } "
    ensures Fragment(Match(field, value), false)
      == Header("match") + " { " + Header(field) + ValueText(value) + " } "
  {
    NestedLeafText(Part("term", "", false, Nil), field, value);
    NestedLeafText(Part("match", "", false, Nil), field, value);
  }

  /** The framing rule for a value-less node whose array flag is the
      "more than one child" threshold: more than one child gives an array of
      individually wrapped fragments, one child or none a plain object, and a
      nil list no body at all. */
  lemma ThresholdFraming(c: Part)
    requires c.value == "" && (c.isArray <==> Count(c.children) > 1)
    ensures c.children.Nil? ==> Fragment(c, false) == Header(c.descriptor)
    ensures c.children.Slice? && |c.children.items| > 1 ==>
      Fragment(c, false) == Header(c.descriptor) + " [ " + Render(c.children.items, true) + " ] "
    ensures c.children.Slice? && |c.children.items| <= 1 ==>
      Fragment(c, false) == Header(c.descriptor) + " { " + Render(c.children.items, false) + " } "
  {
    ClauseFragment(c);
  }

  /** Must, should, must_not and filter all follow the threshold framing rule. */
  lemma ConnectiveFraming(c: Part, children: Children)
    requires c == Must(children) || c == Should(children)
          || c == MustNot(children) || c == Filter(children)
    ensures children.Nil? ==> Fragment(c, false) == Header(c.descriptor)
    ensures children.Slice? && |children.items| > 1 ==>
      Fragment(c, false) == Header(c.descriptor) + " [ " + Render(children.items, true) + " ] "
    ensures children.Slice? && |children.items| <= 1 ==>
      Fragment(c, false) == Header(c.descriptor) + " { " + Render(children.items, false) + " } "
  {
    assert c.value == "" && c.children == children && (c.isArray <==> Count(children) > 1);
    ThresholdFraming(c);
  }

  /** A bool clause always frames its children as one object. */
  lemma BoolFraming(cs: seq<Part>)
    ensures Fragment(Bool(Slice(cs)), false) == Header("bool") + " { " + Render(cs, false) + " } "
  {
    ClauseFragment(Bool(Slice(cs)));
  }

  /** A connective given an empty (non-nil) list renders an empty object. */
  lemma EmptyConnective(c: Part)
    requires c == Must(Slice([])) || c == Should(Slice([])) || c == MustNot(Slice([]))
          || c == Filter(Slice([])) || c == Bool(Slice([]))
    ensures Fragment(c, false) == "\"" + c.descriptor + "\" :  {  } "
  {
  }

  // ---------------------------------------------------------------------------
  // Renderer, as the source writes it: a loop appending to a buffer
  // ---------------------------------------------------------------------------

  /** Walks `parts` left to right, appending each part's text and a comma
      after every part but the last. */
  method GetQuery(parts: seq<Part>, isParentArray: bool) returns (s: string)
    ensures s == Render(parts, isParentArray)
    decreases parts, 1
  {
    var sb := "";
    var totalParts := |parts|;
    for ind := 0 to totalParts
      invariant sb == Render(parts[..ind], isParentArray) + (if 0 < ind < totalParts then "," else "")
    {
      var part := parts[ind];
      sb := WritePart(sb, part, isParentArray);
      PrefixStep(parts, ind, isParentArray);
      if ind != totalParts - 1 {
        sb := sb + ",";
      }
    }
    assert parts[..totalParts] == parts;
    s := sb;
  }

  /** Rendering one more part of a prefix: the part's fragment follows the
      rendered prefix and, unless the prefix is empty, a comma. */
  lemma PrefixStep(parts: seq<Part>, ind: nat, parentArray: bool)
    requires ind < |parts|
    ensures Render(parts[..ind + 1], parentArray)
      == Render(parts[..ind], parentArray) + (if 0 < ind then "," else "") + Fragment(parts[ind], parentArray)
  {
    assert parts[..ind + 1] == parts[..ind] + [parts[ind]];
    if ind > 0 {
      RenderConcat(parts[..ind], [parts[ind]], parentArray);
    }
  }

  /** One pass of the loop in GetQuery: appends the text of `part` to `sb`,
      piece by piece, recursing into a present child list. */
  method WritePart(sb: string, part: Part, isParentArray: bool) returns (out: string)
    ensures out == sb + Fragment(part, isParentArray)
    decreases part, 0
  {
    out := sb;
    if isParentArray {
      out := out + " { ";
    }
    out := out + "\"" + part.descriptor + "\"" + " : ";
    if part.value != "" {
      out := out + "\"" + part.value + "\"";
    }
    assert out == sb + Open(isParentArray) + Header(part.descriptor) + ValueText(part.value);
    ghost var beforeBody := out;
    if part.children.Slice? {
      if part.isArray {
        out := out + " [ ";
      } else {
        out := out + " { ";
      }
      var nested := GetQuery(part.children.items, part.isArray);
      out := out + nested;
      if part.isArray {
        out := out + " ] ";
      } else {
        out := out + " } ";
      }
      Assoc4(beforeBody, Opener(part.isArray), nested, Closer(part.isArray));
    }
    assert out == beforeBody + Body(part);
    if isParentArray {
      out := out + " } ";
    }
    Assoc6(sb, Open(isParentArray), Header(part.descriptor), ValueText(part.value), Body(part), Close(isParentArray));
  }

  // ---------------------------------------------------------------------------
  // The root of a query
  // ---------------------------------------------------------------------------

  /** The root of a query: an ordered list of top-level parts. */
  class Query {
    var parts: seq<Part>

    /** A new query has no parts. */
    constructor ()
      ensures parts == []
    {
      parts := [];
    }

    /** Appends one part at the end; earlier parts are kept as they were. */
    method AddPart(part: Part)
      modifies this
      ensures parts == old(parts) + [part]
    {
      parts := parts + [part];
    }

    /** Appends a list of parts at the end, in their order. */
    method AddParts(more: seq<Part>)
      modifies this
      ensures parts == old(parts) + more
    {
      parts := parts + more;
    }

    /** The request body for the current parts; reads the tree, changes nothing. */
    method Text() returns (s: string)
      ensures s == QueryString(parts)
    {
      var sb := "{ \"query\" : ";
      sb := sb + " { ";
      var body := GetQuery(parts, false);
      sb := sb + body;
      sb := sb + " } ";
      sb := sb + " } ";
      s := sb;
    }
  }
}
