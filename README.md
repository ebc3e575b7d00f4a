# esquery in Dafny

esquery is a small Go library that builds Elasticsearch query bodies. A query
is a tree of query parts. Each part has:

- a descriptor such as `bool`, `must`, `term` or a field name;
- an optional scalar value;
- an `isArray` framing flag;
- an optional ordered list of nested parts.

Builder functions create the parts: `Bool`, `Should`, `Must`, `MustNot`,
`Filter`, `Term` and `Match`. A `Query` object collects the top-level parts
through `AddPart` and `AddParts`. `query()` renders the tree depth-first into
request-body text by plain string concatenation.

This project models that core and proves the following properties:

- what each builder produces;
- the laws the renderer obeys:
  - sibling fragments are joined by single commas, in order;
  - each node frames its children by its own flag;
  - inside an array, each element is wrapped in its own braces;
  - a nil child list renders nothing, while an empty list renders an empty bracket pair;
- that the loop-and-buffer renderer computes the recursive definition;
- that the brackets of the output nest correctly whenever the labels and
  values contain no bracket characters, counted by a scan that does not skip
  quoted text, and that a single brace in a field name breaks that count;
- the request bodies that the repository's test scenarios pin.

Files:

- `esquery.dfy` (module `EsQuery`) contains:
  - the `Part` datatype, where `Children = Nil | Slice(items)` keeps Go's
    difference between a nil slice and an empty slice;
  - the builders, as functions;
  - the renderer in two forms: the functions `Render`, `Fragment`, `Body` and
    `QueryString`, and the methods `GetQuery` and `WritePart`, which follow
    the source's loop over a `strings.Builder`;
  - the `Query` class, whose `parts` field its methods append to.
- `brackets.dfy` (module `Brackets`): a bracket scanner, and the nesting
  results stated with it.
- `scenarios.dfy` (module `Scenarios`): the test scenarios of
  `esquery_test.go`, one lemma each, plus some of them built through a query object.
  Field names and values are parameters. The lemmas use literal templates
  (`Envelope`, `ObjectClause`, `PairArray`, `FieldText`) that nest the way
  the tests' expected strings do. `TermClauseLiteral` and `MustClauseLiteral`
  spell out two bodies byte for byte, with the tests' own fields and values.
- `literals.dfy` (module `Literals`): equalities between string literals,
  each joining one piece onto a longer literal. They are the steps of the two
  byte-for-byte bodies.

## Model

| member | source | states |
|---|---|---|
| EsQuery.LeafPart | esquery.go:140-142 | `getQueryPart` gives a leaf with the given descriptor and value, no array flag and a nil child list |
| EsQuery.SetNestedQueryPart | esquery.go:135-138 | the parent's children become a one-element list holding the leaf; its descriptor, value and flag are kept |
| EsQuery.Bool | esquery.go:87-91 | descriptor "bool", empty value, the given children unchanged, and never array framing, whatever the count |
| EsQuery.Should | esquery.go:94-98 | descriptor "should", empty value, the given children unchanged, and array framing exactly when there is more than one child |
| EsQuery.Must | esquery.go:101-105 | descriptor "must", empty value, the given children unchanged, and array framing exactly when there is more than one child |
| EsQuery.MustNot | esquery.go:108-112 | descriptor "must_not", empty value, the given children unchanged, and array framing exactly when there is more than one child |
| EsQuery.Filter | esquery.go:115-119 | descriptor "filter", empty value, the given children unchanged, and array framing exactly when there is more than one child |
| EsQuery.Term | esquery.go:122-126 | descriptor "term", empty value, no array flag, exactly one child, which is a leaf with the field, the value, no flag and no children |
| EsQuery.Match | esquery.go:129-133 | descriptor "match", and the same shape as Term |
| EsQuery.RenderSingle | esquery.go:38-73 | one part renders as its own fragment, with no separator |
| EsQuery.RenderConcat | esquery.go:70-72 | rendering two non-empty sibling lists joined together gives their texts joined by exactly one comma |
| EsQuery.RenderEdges | esquery.go:34-76 | the rendered list is empty exactly when the list is; otherwise it never starts or ends with a comma |
| EsQuery.RenderIsJoin | esquery.go:38-73 | the rendered list is the per-part fragments, in input order, joined by single commas |
| EsQuery.FragmentEdges | esquery.go:40-68 | a fragment is never empty; it starts with a space inside an array and with the label's quote otherwise; it ends with a space or a quote |
| EsQuery.FragmentWrap | esquery.go:40-42 | inside an array a fragment is the plain fragment wrapped in ` { ` and ` } ` |
| EsQuery.LeafFragment | esquery.go:44-48 | a part with a nil child list writes its header, then the quoted value only when the value is non-empty |
| EsQuery.ClauseFragment | esquery.go:44-64 | a value-less part outside an array writes its header, then its framed children |
| EsQuery.ThresholdFraming | esquery.go:49-64 | when a node's flag is the more-than-one rule: a nil list gives no body, more than one child gives ` [ `…` ] ` with each child wrapped, and at most one gives ` { `…` } ` |
| EsQuery.ConnectiveFraming | esquery.go:94-119 | must, should, must_not and filter render by that threshold framing |
| EsQuery.BoolFraming | esquery.go:87-91 | bool always frames its children as one object |
| EsQuery.EmptyConnective | esquery.go:49-64 | a connective given an empty, non-nil list renders an empty object, not nothing |
| EsQuery.NestedLeafText | esquery.go:135-142 | a value-less node given a leaf renders its label followed by the leaf in object braces |
| EsQuery.TermAndMatchText | esquery.go:122-133 | the exact text of a term or match node, in terms of the field and value |
| EsQuery.GetQuery | esquery.go:34-76 | the loop over the parts, writing a comma after every part but the last, returns exactly the recursive rendering |
| EsQuery.WritePart | esquery.go:40-68 | one loop iteration appends exactly the part's fragment to the buffer |
| EsQuery.Query.constructor | esquery.go:20-22 | a new query has no parts |
| EsQuery.Query.AddPart | esquery.go:78-80 | the parts become the old parts followed by the new one |
| EsQuery.Query.AddParts | esquery.go:82-84 | the parts become the old parts followed by the given list, in order |
| EsQuery.Query.Text | esquery.go:24-32 | the body is the fixed envelope around the rendering of the parts; it changes nothing, so asking twice gives the same text |
| Brackets.RenderKeepsStack | esquery.go:34-76 | rendering plain parts leaves the bracket stack as it found it, never closing something it did not open |
| Brackets.QueryStringBalanced | esquery.go:24-76 | the brackets of the request body nest correctly, counted without skipping quoted text, whenever every descriptor and value is free of brackets |
| Brackets.BraceInFieldUnbalances | esquery.go:44-47 | a term whose field name is `}` gives a request body whose brackets, counted without skipping quoted text, do not nest; the label is copied into the body character for character |
| Scenarios.OneRoot | esquery.go:24-32 | a single root part is rendered inside the envelope with nothing else |
| Scenarios.SingleClause | esquery_test.go:125-127 | a connective around one term gives an object, not an array |
| Scenarios.PairClause | esquery.go:94-119 | a connective around two terms gives an array of two wrapped term objects |
| Scenarios.TermClauseText | esquery_test.go:7-23 | the term scenario's body |
| Scenarios.TermClauseLiteral | esquery_test.go:18 | the term scenario's body, byte for byte, with the test's own field and value |
| Scenarios.MustClauseLiteral | esquery_test.go:60 | the two-term must scenario's body, byte for byte, with the test's own fields and values |
| Scenarios.MatchClauseText | esquery_test.go:25-41 | the match scenario's body |
| Scenarios.MustClauseText | esquery_test.go:43-65 | the two-term must scenario's body |
| Scenarios.ShouldClauseText | esquery_test.go:67-88 | the two-term should scenario's body |
| Scenarios.BoolClauseText | esquery_test.go:90-115 | the bool-around-should scenario's body |
| Scenarios.BoolWithMustShouldMustNotClausesText | esquery_test.go:117-145 | the bool scenario with one-term must, one-term must_not and two-term should |
| Scenarios.FilterClauseText | esquery_test.go:147-169 | the two-term filter scenario's body |
| Scenarios.BoolWithFilterClauseText | esquery_test.go:171-195 | the bool scenario with a two-term must and a two-term filter |
| Scenarios.TermScenario | esquery_test.go:7-23 | the term scenario, built through a new query object as the test does |
| Scenarios.BoolWithMustShouldMustNotScenario | esquery_test.go:117-145 | the mixed bool scenario, built through a new query object as the test does |
| Scenarios.AddPartsScenario | esquery.go:78-84 | adding two parts one at a time and as one list gives the same body; asking for the body twice gives the same text |

## Left out

- esclient.go is not part of this model. It covers the network transport through the go-elasticsearch client, the process-global client handle, JSON decoding of responses and process exits. These are I/O and foreign library calls.
- example/main.go is not part of this model. It is demo wiring that needs a live server and prints results.
- Pointer aliasing and sharing are not modelled. Parts are immutable values. The builders store the caller's slice without copying it, and a part may sit under several parents; rendering only reads the tree, so sharing does not change the text.
- SetNestedQueryPart: modelled as a function that returns the updated part instead of changing it in place. The only callers are Term and Match, and they call it on a node they have just created, before anyone else can see it.
- A nil `*QueryPart` inside a list is not modelled. Go would panic there; the model has no null part.
- The Go receiver `q` of the builders is never used by them. The builders are module-level functions here.
- Strings are sequences of characters, while Go strings are bytes. The renderer only concatenates, so the difference does not affect any stated property.
- No JSON escaping and no JSON validity are claimed. Labels and values are copied verbatim, as in the source. The bracket results in `Brackets` count every bracket, including those inside quoted labels and values, so they say nothing about JSON string syntax. A `"` inside a label, which would break the JSON, is not modelled by them.
- The scenario lemmas take the field names and values as parameters and require the values to be non-empty. `TermClauseLiteral` and `MustClauseLiteral` state two scenarios against the tests' own literals (esquery_test.go:18 and :60). The other literals are stated only as the templates filled in; literal equalities that long are beyond what the solver settles within the resource limit.
- The exported `Parts` field of the Go `Query` struct can be reassigned directly by clients. In this model only the constructor, AddPart and AddParts assign `parts`.
