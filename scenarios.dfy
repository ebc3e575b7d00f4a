/** The request bodies of the repository's test scenarios, derived from the
    builders and the renderer. The field names and values of the scenarios
    are parameters here; every other byte is the one the scenario pins.
    The expected bodies are written with a few literal templates that nest
    the way the scenarios' literals do. */
module Scenarios {
  import opened EsQuery
  import opened Literals

  /** `{ "query" :  { <root> }  } ` */
  function Envelope(root: string): string
  {
    "{ \"query\" :  { " + root + " }  } "
  }

  /** `"<d>" :  { <inner> } ` */
  function ObjectClause(d: string, inner: string): string
  {
    "\"" + d + "\" :  { " + inner + " } "
  }

  /** `"<d>" :  [  { <a> } , { <b> }  ] ` */
  function PairArray(d: string, a: string, b: string): string
  {
    "\"" + d + "\" :  [  { " + a + " } , { " + b + " }  ] "
  }

  /** `"<field>" : "<value>"` */
  function FieldText(field: string, value: string): string
  {
    "\"" + field + "\" : \"" + value + "\""
  }

  /** The text of a term with a non-empty value. */
  function TermText(field: string, value: string): string
  {
    ObjectClause("term", FieldText(field, value))
  }

  /** The text of a match with a non-empty value. */
  function MatchText(field: string, value: string): string
  {
    ObjectClause("match", FieldText(field, value))
  }

  /** The envelope around a single root part. */
  lemma OneRoot(part: Part)
    ensures QueryString([part]) == Envelope(Fragment(part, false))
  {
    RenderSingle(part, false);
  }

  /** Two siblings, joined by one comma. */
  lemma Render2(a: Part, b: Part, parentArray: bool)
    ensures Render([a, b], parentArray) == Fragment(a, parentArray) + "," + Fragment(b, parentArray)
  {
    assert [a] + [b] == [a, b];
    RenderConcat([a], [b], parentArray);
    RenderSingle(a, parentArray);
    RenderSingle(b, parentArray);
  }

  /** Three siblings, joined by two commas. */
  lemma Render3(a: Part, b: Part, c: Part, parentArray: bool)
    ensures Render([a, b, c], parentArray)
      == Fragment(a, parentArray) + "," + Fragment(b, parentArray) + "," + Fragment(c, parentArray)
  {
    assert [a] + [b, c] == [a, b, c];
    RenderConcat([a], [b, c], parentArray);
    RenderSingle(a, parentArray);
    Render2(b, c, parentArray);
  }

  lemma LeafPieces(t: string, kind: string, field: string, value: string)
    requires value != ""
    requires t == Header(kind) + " { " + Header(field) + ValueText(value) + " } "
    ensures t == ObjectClause(kind, FieldText(field, value))
  {
  }

  lemma TermIsText(field: string, value: string)
    requires value != ""
    ensures Fragment(Term(field, value), false) == TermText(field, value)
  {
    TermAndMatchText(field, value);
    LeafPieces(Fragment(Term(field, value), false), "term", field, value);
  }

  lemma MatchIsText(field: string, value: string)
    requires value != ""
    ensures Fragment(Match(field, value), false) == MatchText(field, value)
  {
    TermAndMatchText(field, value);
    LeafPieces(Fragment(Match(field, value), false), "match", field, value);
  }

  lemma WrapPieces(x: string, d: string, r: string, a: string)
    requires x == Header(d) + " { " + r + " } "
    requires r == a
    ensures x == ObjectClause(d, a)
  {
  }

  lemma PairPieces(x: string, d: string, r: string, wa: string, wb: string, a: string, b: string)
    requires x == Header(d) + " [ " + r + " ] "
    requires r == wa + "," + wb
    requires wa == " { " + a + " } " && wb == " { " + b + " } "
    ensures x == PairArray(d, a, b)
  {
  }

  /** A connective around one term: an object, not an array. */
  lemma SingleClause(c: Part, field: string, value: string)
    requires value != ""
    requires var cs := Slice([Term(field, value)]);
      c == Must(cs) || c == Should(cs) || c == MustNot(cs) || c == Filter(cs)
    ensures Fragment(c, false) == ObjectClause(c.descriptor, TermText(field, value))
  {
    var t := Term(field, value);
    ConnectiveFraming(c, Slice([t]));
    RenderSingle(t, false);
    TermIsText(field, value);
    WrapPieces(Fragment(c, false), c.descriptor, Render([t], false), TermText(field, value));
  }

  /** A connective around two terms: an array of two wrapped objects. */
  lemma PairClause(c: Part, f1: string, v1: string, f2: string, v2: string)
    requires v1 != "" && v2 != ""
    requires var cs := Slice([Term(f1, v1), Term(f2, v2)]);
      c == Must(cs) || c == Should(cs) || c == MustNot(cs) || c == Filter(cs)
    ensures Fragment(c, false) == PairArray(c.descriptor, TermText(f1, v1), TermText(f2, v2))
  {
    var a, b := Term(f1, v1), Term(f2, v2);
    ConnectiveFraming(c, Slice([a, b]));
    Render2(a, b, true);
    FragmentWrap(a);
    FragmentWrap(b);
    TermIsText(f1, v1);
    TermIsText(f2, v2);
    PairPieces(Fragment(c, false), c.descriptor, Render([a, b], true),
      Fragment(a, true), Fragment(b, true), TermText(f1, v1), TermText(f2, v2));
  }

  /** A bool around the given clauses: one object holding them. */
  lemma BoolClause(cs: seq<Part>, inner: string)
    requires Render(cs, false) == inner
    ensures Fragment(Bool(Slice(cs)), false) == ObjectClause("bool", inner)
  {
    BoolFraming(cs);
    WrapPieces(Fragment(Bool(Slice(cs)), false), "bool", Render(cs, false), inner);
  }

  lemma TermClauseText(field: string, value: string)
    requires value != ""
    ensures QueryString([Term(field, value)]) == Envelope(TermText(field, value))
  {
    TermIsText(field, value);
    OneRoot(Term(field, value));
  }

  lemma MatchClauseText(field: string, value: string)
    requires value != ""
    ensures QueryString([Match(field, value)]) == Envelope(MatchText(field, value))
  {
    MatchIsText(field, value);
    OneRoot(Match(field, value));
  }

  lemma MustClauseText(f1: string, v1: string, f2: string, v2: string)
    requires v1 != "" && v2 != ""
    ensures QueryString([Must(Slice([Term(f1, v1), Term(f2, v2)]))])
      == Envelope(PairArray("must", TermText(f1, v1), TermText(f2, v2)))
  {
    var c := Must(Slice([Term(f1, v1), Term(f2, v2)]));
    PairClause(c, f1, v1, f2, v2);
    OneRoot(c);
  }

  lemma ShouldClauseText(f1: string, v1: string, f2: string, v2: string)
    requires v1 != "" && v2 != ""
    ensures QueryString([Should(Slice([Term(f1, v1), Term(f2, v2)]))])
      == Envelope(PairArray("should", TermText(f1, v1), TermText(f2, v2)))
  {
    var c := Should(Slice([Term(f1, v1), Term(f2, v2)]));
    PairClause(c, f1, v1, f2, v2);
    OneRoot(c);
  }

  lemma FilterClauseText(f1: string, v1: string, f2: string, v2: string)
    requires v1 != "" && v2 != ""
    ensures QueryString([Filter(Slice([Term(f1, v1), Term(f2, v2)]))])
      == Envelope(PairArray("filter", TermText(f1, v1), TermText(f2, v2)))
  {
    var c := Filter(Slice([Term(f1, v1), Term(f2, v2)]));
    PairClause(c, f1, v1, f2, v2);
    OneRoot(c);
  }

  lemma BoolClauseText(f1: string, v1: string, f2: string, v2: string)
    requires v1 != "" && v2 != ""
    ensures QueryString([Bool(Slice([Should(Slice([Term(f1, v1), Term(f2, v2)]))]))])
      == Envelope(ObjectClause("bool", PairArray("should", TermText(f1, v1), TermText(f2, v2))))
  {
    var s := Should(Slice([Term(f1, v1), Term(f2, v2)]));
    PairClause(s, f1, v1, f2, v2);
    RenderSingle(s, false);
    BoolClause([s], Fragment(s, false));
    OneRoot(Bool(Slice([s])));
  }

  lemma BoolWithMustShouldMustNotClausesText(f1: string, v1: string, f2: string, v2: string)
    requires v1 != "" && v2 != ""
    ensures var t1, t2 := Term(f1, v1), Term(f2, v2);
      QueryString([Bool(Slice([Must(Slice([t1])), MustNot(Slice([t2])), Should(Slice([t1, t2]))]))])
      == Envelope(ObjectClause("bool",
           ObjectClause("must", TermText(f1, v1)) + ","
           + ObjectClause("must_not", TermText(f2, v2)) + ","
           + PairArray("should", TermText(f1, v1), TermText(f2, v2))))
  {
    var t1, t2 := Term(f1, v1), Term(f2, v2);
    var m, n, s := Must(Slice([t1])), MustNot(Slice([t2])), Should(Slice([t1, t2]));
    SingleClause(m, f1, v1);
    SingleClause(n, f2, v2);
    PairClause(s, f1, v1, f2, v2);
    Render3(m, n, s, false);
    BoolClause([m, n, s], Fragment(m, false) + "," + Fragment(n, false) + "," + Fragment(s, false));
    OneRoot(Bool(Slice([m, n, s])));
  }

  lemma BoolWithFilterClauseText(f1: string, v1: string, f2: string, v2: string)
    requires v1 != "" && v2 != ""
    ensures var pair := Slice([Term(f1, v1), Term(f2, v2)]);
      QueryString([Bool(Slice([Must(pair), Filter(pair)]))])
      == Envelope(ObjectClause("bool",
           PairArray("must", TermText(f1, v1), TermText(f2, v2)) + ","
           + PairArray("filter", TermText(f1, v1), TermText(f2, v2))))
  {
    var pair := Slice([Term(f1, v1), Term(f2, v2)]);
    var m, f := Must(pair), Filter(pair);
    PairClause(m, f1, v1, f2, v2);
    PairClause(f, f1, v1, f2, v2);
    Render2(m, f, false);
    BoolClause([m, f], Fragment(m, false) + "," + Fragment(f, false));
    OneRoot(Bool(Slice([m, f])));
  }

  /** The term scenario's body with its templates flattened: the field and
      the value between three fixed pieces. */
  lemma TermFlat(field: string, value: string)
    ensures Envelope(TermText(field, value))
      == "{ \"query\" :  { \"term\" :  { \"" + field + "\" : \"" + value + "\" }  }  } "
  {
  }

  /** The term scenario with its own field and value: every byte of the body. */
  lemma TermClauseLiteral()
    ensures QueryString([Term("testField1", "testVal")])
      == "{ \"query\" :  { \"term\" :  { \"testField1\" : \"testVal\" }  }  } "
  {
    TermClauseText("testField1", "testVal");
    TermFlat("testField1", "testVal");
    TermBytes1();
    TermBytes2();
    TermBytes3();
    TermBytes4();
  }

  /** The two-term must scenario's body with its templates flattened: the
      two fields and values between five fixed pieces. */
  lemma MustFlat(f1: string, v1: string, f2: string, v2: string)
    ensures Envelope(PairArray("must", TermText(f1, v1), TermText(f2, v2)))
      == "{ \"query\" :  { \"must\" :  [  { \"term\" :  { \"" + f1 + "\" : \"" + v1
         + "\" }  } , { \"term\" :  { \"" + f2 + "\" : \"" + v2
         + "\" }  }  ]  }  } "
  {
    var a, b := TermText(f1, v1), TermText(f2, v2);
    MustOuter(a, b);
    TermOpen(f1, v1);
    TermOpen(f2, v2);
    MustJoinHead();
    MustJoinMiddle1();
    MustJoinMiddle2();
    MustJoinTail();
    Flatten(Envelope(PairArray("must", a, b)), a, b, "{ \"query\" :  { \"must\" :  [  { ", " } , { ", " }  ]  }  } ",
      "\"term\" :  { \"", "\" : \"", "\" } ", f1, v1, f2, v2, "{ \"query\" :  { \"must\" :  [  { \"term\" :  { \"", "\" }  } , { \"term\" :  { \"", "\" }  }  ]  }  } ");
  }

  /** The must envelope around two array elements, as literal pieces. */
  lemma MustOuter(a: string, b: string)
    ensures Envelope(PairArray("must", a, b)) == "{ \"query\" :  { \"must\" :  [  { " + a + " } , { " + b + " }  ]  }  } "
  {
  }

  /** A term's text as literal pieces around its field and value. */
  lemma TermOpen(field: string, value: string)
    ensures TermText(field, value) == "\"term\" :  { \"" + field + "\" : \"" + value + "\" } "
  {
  }

  /** Regrouping two filled term templates inside a two-element array template. */
  lemma Flatten(x: string, a: string, b: string, p0: string, p2: string, p4: string,
                t0: string, t2: string, t4: string, f1: string, v1: string, f2: string, v2: string,
                m0: string, m4: string, m8: string)
    requires x == p0 + a + p2 + b + p4
    requires a == t0 + f1 + t2 + v1 + t4 && b == t0 + f2 + t2 + v2 + t4
    requires m0 == p0 + t0 && m4 == t4 + p2 + t0 && m8 == t4 + p4
    ensures x == m0 + f1 + t2 + v1 + m4 + f2 + t2 + v2 + m8
  {
  }

  /** The two-term must scenario with its own fields and values: every byte
      of the body. */
  lemma MustClauseLiteral()
    ensures QueryString([Must(Slice([Term("testField1", "testVal1"), Term("testField2", "testVal2")]))])
      == "{ \"query\" :  { \"must\" :  [  { \"term\" :  { \"testField1\" : \"testVal1\" }  } , { \"term\" :  { \"testField2\" : \"testVal2\" }  }  ]  }  } "
  {
    MustClauseText("testField1", "testVal1", "testField2", "testVal2");
    MustFlat("testField1", "testVal1", "testField2", "testVal2");
    MustBytes1();
    MustBytes2();
    MustBytes3();
    MustBytes4();
    MustBytes5();
    MustBytes6();
    MustBytes7();
    MustBytes8();
  }

  /** The term scenario built through a query object, as a client would. */
  method TermScenario(field: string, value: string) returns (got: string)
    requires value != ""
    ensures got == Envelope(TermText(field, value))
  {
    var query := new Query();
    var term := Term(field, value);
    query.AddPart(term);
    got := query.Text();
    TermClauseText(field, value);
  }

  /** The bool scenario with must, must_not and should, built through a query object. */
  method BoolWithMustShouldMustNotScenario(f1: string, v1: string, f2: string, v2: string)
    returns (got: string)
    requires v1 != "" && v2 != ""
    ensures got == Envelope(ObjectClause("bool",
              ObjectClause("must", TermText(f1, v1)) + ","
              + ObjectClause("must_not", TermText(f2, v2)) + ","
              + PairArray("should", TermText(f1, v1), TermText(f2, v2))))
  {
    var query := new Query();
    var term1 := Term(f1, v1);
    var term2 := Term(f2, v2);
    var must := Must(Slice([term1]));
    var mustNot := MustNot(Slice([term2]));
    var should := Should(Slice([term1, term2]));
    var boolPart := Bool(Slice([must, mustNot, should]));
    query.AddPart(boolPart);
    got := query.Text();
    BoolWithMustShouldMustNotClausesText(f1, v1, f2, v2);
  }

  /** Adding parts one at a time or as a list gives the same body, and asking
      for the body twice gives the same text. */
  method AddPartsScenario(a: Part, b: Part) returns (one: string, list: string, again: string)
    ensures one == list == again
    ensures one == Envelope(Fragment(a, false) + "," + Fragment(b, false))
  {
    var q1 := new Query();
    q1.AddPart(a);
    q1.AddPart(b);
    assert q1.parts == [a, b];
    one := q1.Text();
    var q2 := new Query();
    q2.AddParts([a, b]);
    assert q2.parts == [a, b];
    list := q2.Text();
    again := q2.Text();
    TwoRoots(a, b);
  }

  /** The envelope around two root parts. */
  lemma TwoRoots(a: Part, b: Part)
    ensures QueryString([a, b]) == Envelope(Fragment(a, false) + "," + Fragment(b, false))
  {
    Render2(a, b, false);
  }
}
