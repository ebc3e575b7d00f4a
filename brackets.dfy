/** Bracket structure of the rendered text, counted by a scan that treats
    every bracket character alike, inside quotes or not. The renderer copies
    labels and values character for character, so the count nests correctly
    when they contain no bracket characters; this module proves that it then
    always does, and that one stray brace in a field name is enough to break it.
 */
module Brackets {
  import opened EsQuery

  /** How a left-to-right scan over some text ends: a closing bracket that did
      not match, or the stack of brackets still open. */
  datatype Scan = Mismatch | Pending(open: seq<char>)

  predicate IsBracket(c: char)
  {
    c == '{' || c == '}' || c == '[' || c == ']'
  }

  /** One character of the scan: openers push, a closer pops its own opener. */
  function Step(c: char, open: seq<char>): Scan
  {
    if c == '{' || c == '[' then Pending(open + [c])
    else if c == '}' || c == ']' then
      if open != [] && open[|open| - 1] == (if c == '}' then '{' else '[')
      then Pending(open[..|open| - 1])
      else Mismatch
    else Pending(open)
  }

  /** Scans `s` starting with the brackets `open` already open. */
  function Scanned(s: string, open: seq<char>): Scan
    decreases |s|
  {
    if s == [] then Pending(open)
    else match Step(s[0], open)
      case Mismatch => Mismatch
      case Pending(next) => Scanned(s[1..], next)
  }

  /** Every bracket in `s` is closed, in order, by one of its own kind. */
  predicate Balanced(s: string)
  {
    Scanned(s, []) == Pending([])
  }

  /** Text with no bracket characters at all. */
  predicate Plain(s: string)
  {
    forall i :: 0 <= i < |s| ==> !IsBracket(s[i])
  }

  /** A tree whose labels and values are all plain. */
  predicate PlainPart(part: Part)
    decreases part, 1
  {
    Plain(part.descriptor) && Plain(part.value)
    && match part.children
       case Nil => true
       case Slice(cs) => PlainParts(cs)
  }

  predicate PlainParts(parts: seq<Part>)
    decreases parts, 2
  {
    forall i :: 0 <= i < |parts| ==> PlainPart(parts[i])
  }

  /** Scanning a concatenation is scanning the first half, then the second
      from where the first left off. */
  lemma {:induction false} ScanConcat(a: string, b: string, open: seq<char>)
    ensures Scanned(a + b, open)
      == match Scanned(a, open)
         case Mismatch => Mismatch
         case Pending(next) => Scanned(b, next)
    decreases |a|
  {
    if a == [] {
      assert a + b == b;
    } else {
      var ab := a + b;
      assert ab != [] && ab[0] == a[0];
      assert ab[1..] == a[1..] + b;
      match Step(a[0], open)
      case Mismatch =>
        assert Scanned(ab, open) == Mismatch;
      case Pending(next) =>
        assert Scanned(ab, open) == Scanned(a[1..] + b, next);
        ScanConcat(a[1..], b, next);
    }
  }

  /** Plain text leaves the stack of open brackets as it was. */
  lemma {:induction false} ScanPlain(s: string, open: seq<char>)
    requires Plain(s)
    ensures Scanned(s, open) == Pending(open)
    decreases |s|
  {
    if s != [] {
      assert !IsBracket(s[0]);
      assert Plain(s[1..]) by {
        forall i | 0 <= i < |s[1..]| ensures !IsBracket(s[1..][i]) {
          assert s[1..][i] == s[i + 1];
        }
      }
      ScanPlain(s[1..], open);
    }
  }

  lemma PlainConcat(a: string, b: string)
    requires Plain(a) && Plain(b)
    ensures Plain(a + b)
  {
    forall i | 0 <= i < |a + b| ensures !IsBracket((a + b)[i]) {
      if i >= |a| {
        assert (a + b)[i] == b[i - |a|];
      }
    }
  }

  /** A label of plain text gives a plain header. */
  lemma PlainHeader(descriptor: string)
    requires Plain(descriptor)
    ensures Plain(Header(descriptor))
  {
    PlainConcat("\"", descriptor);
    PlainConcat("\"" + descriptor, "\"");
    PlainConcat("\"" + descriptor + "\"", " : ");
  }

  /** A plain value gives plain quoted text. */
  lemma PlainValueText(value: string)
    requires Plain(value)
    ensures Plain(ValueText(value))
  {
    if value != "" {
      PlainConcat("\"", value);
      PlainConcat("\"" + value, "\"");
    }
  }

  /** Scanning `a` and then `b` when each keeps the stack as it was. */
  lemma KeepBoth(a: string, b: string, open: seq<char>)
    requires Scanned(a, open) == Pending(open) && Scanned(b, open) == Pending(open)
    ensures Scanned(a + b, open) == Pending(open)
  {
    ScanConcat(a, b, open);
  }

  /** The bracket character written by Opener. */
  function OpenChar(isArray: bool): char
  {
    if isArray then '[' else '{'
  }

  /** Scanning a bracket between two spaces is one step of the scan. */
  lemma ScanSpaced(s: string, c: char, open: seq<char>)
    requires s == [' ', c, ' ']
    ensures Scanned(s, open) == Step(c, open)
  {
    assert s[1..] == [c, ' '];
    assert s[1..][1..] == [' '];
    assert s[1..][1..][1..] == [];
    match Step(c, open)
    case Mismatch =>
    case Pending(next) =>
      assert Scanned([' '], next) == Pending(next);
  }

  /** An opener, text that keeps the stack, and the matching closer keep the
      stack as a whole. */
  lemma Enclosed(isArray: bool, inner: string, open: seq<char>)
    requires Scanned(inner, open + [OpenChar(isArray)]) == Pending(open + [OpenChar(isArray)])
    ensures Scanned(Opener(isArray) + inner + Closer(isArray), open) == Pending(open)
  {
    var c := OpenChar(isArray);
    ScanSpaced(Opener(isArray), c, open);
    assert (open + [c])[..|open + [c]| - 1] == open;
    ScanSpaced(Closer(isArray), if isArray then ']' else '}', open + [c]);
    ScanConcat(Opener(isArray), inner, open);
    ScanConcat(Opener(isArray) + inner, Closer(isArray), open);
  }

  /** The text of a plain sibling list is well nested relative to any stack. */
  lemma {:induction false} RenderKeepsStack(parts: seq<Part>, parentArray: bool, open: seq<char>)
    requires PlainParts(parts)
    ensures Scanned(Render(parts, parentArray), open) == Pending(open)
    decreases parts, 3
  {
    if parts == [] {
    } else if |parts| == 1 {
      FragmentKeepsStack(parts[0], parentArray, open);
    } else {
      FragmentKeepsStack(parts[0], parentArray, open);
      assert PlainParts(parts[1..]) by {
        forall i | 0 <= i < |parts[1..]| ensures PlainPart(parts[1..][i]) {
          assert parts[1..][i] == parts[i + 1];
        }
      }
      RenderKeepsStack(parts[1..], parentArray, open);
      ScanPlain(",", open);
      var f := Fragment(parts[0], parentArray);
      KeepBoth(f, ",", open);
      KeepBoth(f + ",", Render(parts[1..], parentArray), open);
    }
  }

  /** The text of one plain part is well nested relative to any stack. */
  lemma {:induction false} FragmentKeepsStack(part: Part, parentArray: bool, open: seq<char>)
    requires PlainPart(part)
    ensures Scanned(Fragment(part, parentArray), open) == Pending(open)
    decreases part, 2
  {
    var inner := Header(part.descriptor) + ValueText(part.value) + Body(part);
    if parentArray {
      FieldKeepsStack(part, open + [OpenChar(false)]);
      Enclosed(false, inner, open);
      assert Fragment(part, parentArray) == Opener(false) + inner + Closer(false);
    } else {
      FieldKeepsStack(part, open);
      assert Fragment(part, parentArray) == inner;
    }
  }

  /** The label, value and framed children of one plain part are well nested. */
  lemma {:induction false} FieldKeepsStack(part: Part, open: seq<char>)
    requires PlainPart(part)
    ensures Scanned(Header(part.descriptor) + ValueText(part.value) + Body(part), open) == Pending(open)
    decreases part, 1
  {
    var head := Header(part.descriptor);
    PlainHeader(part.descriptor);
    ScanPlain(head, open);
    var val := ValueText(part.value);
    PlainValueText(part.value);
    ScanPlain(val, open);
    BodyKeepsStack(part, open);
    KeepBoth(head, val, open);
    KeepBoth(head + val, Body(part), open);
  }

  /** The framed children of a plain part are well nested. */
  lemma {:induction false} BodyKeepsStack(part: Part, open: seq<char>)
    requires PlainPart(part)
    ensures Scanned(Body(part), open) == Pending(open)
    decreases part, 0
  {
    match part.children
    case Nil =>
    case Slice(cs) =>
      RenderKeepsStack(cs, part.isArray, open + [OpenChar(part.isArray)]);
      Enclosed(part.isArray, Render(cs, part.isArray), open);
  }

  /** Scanning `a` then `b`, when `a` alone ends with `mid` open. */
  lemma ScanThen(a: string, b: string, open: seq<char>, mid: seq<char>)
    requires Scanned(a, open) == Pending(mid)
    ensures Scanned(a + b, open) == Scanned(b, mid)
  {
    ScanConcat(a, b, open);
  }

  /** Scanning text that starts with an opening brace. */
  lemma ScanAfterBrace(rest: string, open: seq<char>)
    ensures Scanned("{" + rest, open) == Scanned(rest, open + ['{'])
  {
    var s := "{" + rest;
    assert s[0] == '{' && s[1..] == rest;
  }

  /** The label that the envelope places before the root object. */
  const QueryKey: string := " \"query\" : "

  lemma QueryKeyPlain()
    ensures Plain(QueryKey)
  {
  }

  /** The envelope around the rendered root parts. */
  lemma QueryStringShape(parts: seq<Part>)
    ensures QueryString(parts)
      == "{" + (QueryKey + (Opener(false) + Render(parts, false) + Closer(false)) + Closer(false))
  {
  }

  /** The request body for plain parts is well nested. */
  lemma QueryStringBalanced(parts: seq<Part>)
    requires PlainParts(parts)
    ensures Balanced(QueryString(parts))
  {
    var body := Render(parts, false);
    var inner := Opener(false) + body + Closer(false);
    RenderKeepsStack(parts, false, ['{'] + [OpenChar(false)]);
    Enclosed(false, body, ['{']);
    QueryKeyPlain();
    ScanPlain(QueryKey, ['{']);
    KeepBoth(QueryKey, inner, ['{']);
    ScanSpaced(Closer(false), '}', ['{']);
    assert Step('}', ['{']) == Pending([]);
    ScanThen(QueryKey + inner, Closer(false), ['{'], ['{']);
    assert Scanned(QueryKey + inner + Closer(false), ['{']) == Pending([]);
    QueryStringShape(parts);
    ScanAfterBrace(QueryKey + inner + Closer(false), []);
    assert [] + ['{'] == ['{'];
  }

  /** Regrouping the pieces of a one-term request body around its field name. */
  lemma Regroup(k: string, o: string, h: string, q: string, b: string, colon: string, v: string, c: string)
    ensures k + (o + (h + o + (q + b + q + colon) + v + c) + c) + c
      == (k + o + h + o + q) + (b + (q + colon + v + c + c + c))
  {
  }

  /** The text of a one-term request body before the field name: the
      envelope, the root object and the body of "term" are open. */
  const UpToField: string := QueryKey + Opener(false) + Header("term") + Opener(false) + "\""

  /** The text of a one-term request body after the field name. */
  function AfterField(value: string): string
  {
    "\"" + " : " + ValueText(value) + Closer(false) + Closer(false) + Closer(false)
  }

  lemma UpToFieldOpensThree()
    ensures Scanned(UpToField, ['{']) == Pending(['{', '{', '{'])
  {
    var one, two, three := ['{'], ['{', '{'], ['{', '{', '{'];
    QueryKeyPlain();
    ScanPlain(QueryKey, one);
    ScanSpaced(Opener(false), '{', one);
    ScanThen(QueryKey, Opener(false), one, one);
    PlainHeader("term");
    ScanPlain(Header("term"), two);
    ScanThen(QueryKey + Opener(false), Header("term"), one, two);
    ScanSpaced(Opener(false), '{', two);
    ScanThen(QueryKey + Opener(false) + Header("term"), Opener(false), one, two);
    ScanPlain("\"", three);
    ScanThen(QueryKey + Opener(false) + Header("term") + Opener(false), "\"", one, three);
  }

  /** After the field name only two objects remain open, and the text goes
      on to close three. */
  lemma AfterFieldClosesTooMany(value: string)
    requires Plain(value)
    ensures Scanned(AfterField(value), ['{', '{']) == Mismatch
  {
    var one, two := ['{'], ['{', '{'];
    var words := "\"" + " : " + ValueText(value);
    PlainValueText(value);
    PlainConcat("\"" + " : ", ValueText(value));
    ScanPlain(words, two);
    ScanSpaced(Closer(false), '}', two);
    ScanThen(words, Closer(false), two, two);
    ScanSpaced(Closer(false), '}', one);
    ScanThen(words + Closer(false), Closer(false), two, one);
    ScanSpaced(Closer(false), '}', []);
    ScanConcat(words + Closer(false) + Closer(false), Closer(false), two);
  }

  /** A field name holding a closing brace is copied into the body and breaks
      the bracket count. */
  lemma BraceInFieldUnbalances(value: string)
    requires Plain(value)
    ensures !Balanced(QueryString([Term("}", value)]))
  {
    var t := Term("}", value);
    var x := UpToField + ("}" + AfterField(value));
    assert QueryString([t]) == "{" + x by {
      TermAndMatchText("}", value);
      RenderSingle(t, false);
      QueryStringShape([t]);
      assert Header("}") == "\"" + "}" + "\"" + " : ";
      Regroup(QueryKey, Opener(false), Header("term"), "\"", "}", " : ", ValueText(value), Closer(false));
    }
    UpToFieldOpensThree();
    ScanThen(UpToField, "}" + AfterField(value), ['{'], ['{', '{', '{']);
    assert Scanned("}", ['{', '{', '{']) == Pending(['{', '{']);
    ScanThen("}", AfterField(value), ['{', '{', '{'], ['{', '{']);
    AfterFieldClosesTooMany(value);
    ScanAfterBrace(x, []);
    assert [] + ['{'] == ['{'];
  }
}
