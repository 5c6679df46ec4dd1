/** Printing and reading: the printed text has a derivation tree, the checker accepts it, and reading it with the
  grammar gives back the normalised value. */
module JsonRoundTrip {
  import opened JsonGrammar
  import opened JsonDialects
  import opened JsonChecker
  import opened JsonCompleteness
  import JsonSoundness
  import opened JsonUnambiguous
  import opened JsonPrinter
  import opened JsonValues

  // ----- reading: the value a derivation tree stands for

  function Denote(v: Value): Plain
    requires IsValue(v, Either)
  {
    match v
    case Literal(w) => (match w case True => PBool(true) case False => PBool(false) case Null => PNull)
    case Number(n) => PNumber(n)
    case String(b) => PString(Unquoted(b))
    case EmptyArray(_) => PArray([])
    case Array(es) => PArray(DenoteElements(es))
    case EmptyObject(_) => PObject([])
    case Object(ms) => PObject(DenoteMembers(ms))
  }

  function DenoteElements(es: Elements): seq<Plain>
    requires IsElements(es, Either)
  {
    assert IsPadded(es.element, Either);
    [Denote(es.element.value)] + if es.OneElement? then [] else DenoteElements(es.rest)
  }

  function DenoteMembers(ms: Members): seq<Field>
    requires IsMembers(ms, Either)
  {
    assert IsMember(ms.member, Either) && IsPadded(ms.member.value, Either);
    [Field(Unquoted(ms.member.name), Denote(ms.member.value.value))] + if ms.OneMember? then []
        else DenoteMembers(ms.rest)
  }

  // ----- the tree of a printed text

  function Before(gap: Text): Text { if gap != [] then [10] + gap else [] }

  function Last(gap: Text, mind: Text): Text { if gap != [] then [10] + mind else [] }

  function Tree(p: Plain, gap: Text, indent: Text): Value
    requires PlainOk(p)
    decreases p, 1
  {
    match p
    case PNull => Literal(Null)
    case PBool(b) => Literal(if b then True else False)
    case PNumber(n) => Number(n)
    case PString(s) => String(Replaced(s))
    case PArray(items) => if items == [] then EmptyArray([]) else Array(ElementsOf(items, gap + indent, gap, indent))
    case PObject(fields) => if fields == [] then EmptyObject([])
        else Object(MembersOf(fields, gap + indent, gap, indent))
  }

  function ElementsOf(items: seq<Plain>, gap: Text, mind: Text, indent: Text): Elements
    requires items != [] && forall i :: 0 <= i < |items| ==> PlainOk(items[i])
    decreases items, 0
  {
    var v := Tree(items[0], gap, indent);
    if |items| == 1 then OneElement(Padded(Before(gap), v, Last(gap, mind)))
    else MoreElements(Padded(Before(gap), v, []), ElementsOf(items[1..], gap, mind, indent))
  }

  function MembersOf(fields: seq<Field>, gap: Text, mind: Text, indent: Text): Members
    requires fields != [] && forall i :: 0 <= i < |fields| ==> AreUnits(fields[i].key) && PlainOk(fields[i].value)
    decreases fields, 0
  {
    var f := fields[0];
    var space := if gap != [] then [32] else [];
    var v := Tree(f.value, gap, indent);
    if |fields| == 1 then OneMember(Member(Before(gap), Replaced(f.key), [], Padded(space, v, Last(gap, mind))))
    else MoreMembers(Member(Before(gap), Replaced(f.key), [], Padded(space, v, [])),
        MembersOf(fields[1..], gap, mind, indent))
  }

  // ----- the tree spells the printed text

  lemma {:induction false} TreeSpells(p: Plain, gap: Text, indent: Text)
    requires PlainOk(p)
    ensures ValueText(Tree(p, gap, indent)) == Print(p, gap, indent)
    decreases p, 1
  {
    hide Bracketed, JoinText, Quote, NumeralText, NumeralOk, Replaced, ElementsText, MembersText, Before, Last;
    var g := gap + indent;
    match p
    case PString(s) => QuoteIsReplaced(s);
    case PArray(items) =>
      PrintArray(items, gap, indent);
      if items != [] {
        ElementsSpell(items, g, gap, indent);
        BracketedLines(91, ItemTexts(items, g, indent), 93, g, gap);
      } else {
        EmptyBrackets(91, ItemTexts(items, g, indent), 93, g, gap);
      }
    case PObject(fields) =>
      PrintObject(fields, gap, indent);
      if fields != [] {
        MembersSpell(fields, g, gap, indent);
        BracketedLines(123, FieldTexts(fields, g, indent), 125, g, gap);
      } else {
        EmptyBrackets(123, FieldTexts(fields, g, indent), 125, g, gap);
      }
    case _ =>
  }

  /** The two layouts with brackets differ only in the white space around the parts. */
  lemma BracketedLines(open: int, parts: seq<Text>, close: int, gap: Text, mind: Text)
    requires parts != []
    ensures Bracketed(open, parts, close, gap, mind)
         == [open] + (Before(gap) + JoinText(parts, [44] + Before(gap)) + Last(gap, mind)) + [close]
  {
    hide JoinText;
    if gap != [] {
      assert [44] + Before(gap) == [44, 10] + gap;
      OnLines(open, gap, JoinText(parts, [44, 10] + gap), mind, close);
    } else {
      assert [44] + Before(gap) == [44];
      var t := JoinText(parts, [44]);
      assert [] + t + [] == t;
    }
  }

  lemma EmptyBrackets(open: int, parts: seq<Text>, close: int, gap: Text, mind: Text)
    requires parts == []
    ensures Bracketed(open, parts, close, gap, mind) == [open] + [] + [close]
  {
  }

  lemma OnLines(open: int, gap: Text, t: Text, mind: Text, close: int)
    ensures [open, 10] + gap + t + [10] + mind + [close] == [open] + ([10] + gap + t + ([10] + mind)) + [close]
  {
  }

  lemma {:induction false} ElementsSpell(items: seq<Plain>, gap: Text, mind: Text, indent: Text)
    requires items != [] && forall i :: 0 <= i < |items| ==> PlainOk(items[i])
    ensures ElementsText(ElementsOf(items, gap, mind, indent))
         == Before(gap) + JoinText(ItemTexts(items, gap, indent), [44] + Before(gap)) + Last(gap, mind)
    decreases items, 0
  {
    TreeSpells(items[0], gap, indent);
    var parts := ItemTexts(items, gap, indent);
    if |items| > 1 {
      ElementsSpell(items[1..], gap, mind, indent);
      assert parts[1..] == ItemTexts(items[1..], gap, indent);
      JoinStep(parts, Before(gap), Last(gap, mind));
    }
  }

  lemma JoinStep(parts: seq<Text>, pre: Text, last: Text)
    requires |parts| > 1
    ensures pre + JoinText(parts, [44] + pre) + last
         == pre + parts[0] + [] + [44] + (pre + JoinText(parts[1..], [44] + pre) + last)
  {
    var rest := JoinText(parts[1..], [44] + pre);
    assert JoinText(parts, [44] + pre) == parts[0] + ([44] + pre) + rest;
  }

  lemma {:induction false} MembersSpell(fields: seq<Field>, gap: Text, mind: Text, indent: Text)
    requires fields != [] && forall i :: 0 <= i < |fields| ==> AreUnits(fields[i].key) && PlainOk(fields[i].value)
    ensures MembersText(MembersOf(fields, gap, mind, indent))
         == Before(gap) + JoinText(FieldTexts(fields, gap, indent), [44] + Before(gap)) + Last(gap, mind)
    decreases fields, 0
  {
    hide StringText, Quote;
    var f := fields[0];
    TreeSpells(f.value, gap, indent);
    QuoteIsReplaced(f.key);
    var parts := FieldTexts(fields, gap, indent);
    var space := if gap != [] then [32] else [];
    var v := Tree(f.value, gap, indent);
    var last := Last(gap, mind);
    FieldSpells(f, v, gap, indent, space, if |fields| == 1 then last else []);
    if |fields| > 1 {
      MembersSpell(fields[1..], gap, mind, indent);
      assert parts[1..] == FieldTexts(fields[1..], gap, indent);
      JoinStep(parts, Before(gap), last);
    }
  }

  lemma FieldSpells(f: Field, v: Value, gap: Text, indent: Text, space: Text, after: Text)
    requires AreUnits(f.key) && PlainOk(f.value) && ValueText(v) == Print(f.value, gap, indent)
    requires Quote(f.key) == StringText(Replaced(f.key)) && space == if gap != [] then [32] else []
    ensures MemberText(Member(Before(gap), Replaced(f.key), [], Padded(space, v, after)))
         == Before(gap) + FieldText(f, gap, indent) + after
  {
    hide StringText, Quote, ValueText, Print;
  }

  // ----- the tree is a derivation of the printed value

  lemma {:induction false} TreeDenotes(p: Plain, gap: Text, indent: Text)
    requires PlainOk(p) && IsWsText(gap) && IsWsText(indent)
    ensures IsValue(Tree(p, gap, indent), Either) && Denote(Tree(p, gap, indent)) == p
    ensures Nesting(Tree(p, gap, indent)) == PlainNesting(p)
    decreases p, 1
  {
    var g := gap + indent;
    match p
    case PString(s) => UnquoteQuote(s);
    case PArray(items) => if items != [] { ElementsDenote(items, g, gap, indent); }
    case PObject(fields) => if fields != [] { MembersDenote(fields, g, gap, indent); }
    case _ =>
  }

  lemma {:induction false} ElementsDenote(items: seq<Plain>, gap: Text, mind: Text, indent: Text)
    requires items != [] && forall i :: 0 <= i < |items| ==> PlainOk(items[i])
    requires IsWsText(gap) && IsWsText(mind) && IsWsText(indent)
    ensures var es := ElementsOf(items, gap, mind, indent);
            IsElements(es, Either) && DenoteElements(es) == items && ElementsNesting(es) == ItemsNesting(items)
    decreases items, 0
  {
    TreeDenotes(items[0], gap, indent);
    if |items| > 1 {
      ElementsDenote(items[1..], gap, mind, indent);
      assert items == [items[0]] + items[1..];
    } else {
      assert items == [items[0]];
    }
  }

  lemma {:induction false} MembersDenote(fields: seq<Field>, gap: Text, mind: Text, indent: Text)
    requires fields != [] && forall i :: 0 <= i < |fields| ==> AreUnits(fields[i].key) && PlainOk(fields[i].value)
    requires IsWsText(gap) && IsWsText(mind) && IsWsText(indent)
    ensures var ms := MembersOf(fields, gap, mind, indent);
            IsMembers(ms, Either) && DenoteMembers(ms) == fields && MembersNesting(ms) == FieldsNesting(fields)
    decreases fields, 0
  {
    TreeDenotes(fields[0].value, gap, indent);
    UnquoteQuote(fields[0].key);
    if |fields| > 1 {
      MembersDenote(fields[1..], gap, mind, indent);
      assert fields == [fields[0]] + fields[1..];
    } else {
      assert fields == [fields[0]];
    }
  }

  /** The tree of a printed value is a derivation of either language. */
  lemma {:induction false} TreeIsValue(p: Plain, gap: Text, indent: Text, d: Dialect)
    requires PlainOk(p) && IsWsText(gap) && IsWsText(indent) && !d.Either?
    ensures IsValue(Tree(p, gap, indent), d)
    decreases p, 1
  {
    match p
    case PString(s) => ReplacedIsBody(s, d);
    case PArray(items) => if items != [] { TreeIsElements(items, gap + indent, gap, indent, d); }
    case PObject(fields) => if fields != [] { TreeIsMembers(fields, gap + indent, gap, indent, d); }
    case _ =>
  }

  lemma {:induction false} TreeIsElements(items: seq<Plain>, gap: Text, mind: Text, indent: Text, d: Dialect)
    requires items != [] && (forall i :: 0 <= i < |items| ==> PlainOk(items[i])) && !d.Either?
    requires IsWsText(gap) && IsWsText(mind) && IsWsText(indent)
    ensures IsElements(ElementsOf(items, gap, mind, indent), d)
    decreases items, 0
  {
    TreeIsValue(items[0], gap, indent, d);
    if |items| > 1 {
      TreeIsElements(items[1..], gap, mind, indent, d);
    }
  }

  lemma {:induction false} TreeIsMembers(fields: seq<Field>, gap: Text, mind: Text, indent: Text, d: Dialect)
    requires fields != [] && !d.Either?
    requires forall i :: 0 <= i < |fields| ==> AreUnits(fields[i].key) && PlainOk(fields[i].value)
    requires IsWsText(gap) && IsWsText(mind) && IsWsText(indent)
    ensures IsMembers(MembersOf(fields, gap, mind, indent), d)
    decreases fields, 0
  {
    TreeIsValue(fields[0].value, gap, indent, d);
    ReplacedIsBody(fields[0].key, d);
    if |fields| > 1 {
      TreeIsMembers(fields[1..], gap, mind, indent, d);
    }
  }

  // ----- nesting

  function PlainNesting(p: Plain): nat
    decreases p, 1
  {
    match p
    case PArray(items) => 1 + ItemsNesting(items)
    case PObject(fields) => 1 + FieldsNesting(fields)
    case _ => 0
  }

  function ItemsNesting(items: seq<Plain>): nat
    decreases items, 0
  {
    if items == [] then 0 else Max(PlainNesting(items[0]), ItemsNesting(items[1..]))
  }

  function FieldsNesting(fields: seq<Field>): nat
    decreases fields, 0
  {
    if fields == [] then 0 else Max(PlainNesting(fields[0].value), FieldsNesting(fields[1..]))
  }

  /** The nesting of a value tree. */
  function JsNesting(v: JsValue): nat
    decreases v, 1
  {
    match v
    case JsArray(items) => 1 + JsItemsNesting(items)
    case JsObject(members) => 1 + JsMembersNesting(members)
    case _ => 0
  }

  function JsItemsNesting(items: seq<JsValue>): nat
    decreases items, 0
  {
    if items == [] then 0 else Max(JsItemsNesting(items[..|items| - 1]), JsNesting(items[|items| - 1]))
  }

  function JsMembersNesting(members: seq<JsMember>): nat
    decreases members, 0
  {
    if members == [] then 0
        else Max(JsMembersNesting(members[..|members| - 1]), JsNesting(members[|members| - 1].value))
  }

  lemma {:induction false} ItemsNestingAppend(a: seq<Plain>, p: Plain)
    ensures ItemsNesting(a + [p]) == Max(ItemsNesting(a), PlainNesting(p))
    decreases |a|
  {
    if a != [] {
      ItemsNestingAppend(a[1..], p);
      assert (a + [p])[1..] == a[1..] + [p];
    }
  }

  lemma {:induction false} FieldsNestingAppend(a: seq<Field>, f: Field)
    ensures FieldsNesting(a + [f]) == Max(FieldsNesting(a), PlainNesting(f.value))
    decreases |a|
  {
    if a != [] {
      FieldsNestingAppend(a[1..], f);
      assert (a + [f])[1..] == a[1..] + [f];
    }
  }

  /** Normalising does not change the nesting. */
  lemma {:induction false} NormalNesting(v: JsValue)
    ensures PlainNesting(Normal(v)) == JsNesting(v)
    decreases v, 1
  {
    match v
    case JsArray(items) => NormalItemsNesting(items);
    case JsObject(members) => NormalMembersNesting(members);
    case _ =>
  }

  lemma {:induction false} NormalItemsNesting(items: seq<JsValue>)
    ensures ItemsNesting(NormalItems(items)) == JsItemsNesting(items)
    decreases items, 0
  {
    if items != [] {
      NormalItemsNesting(items[..|items| - 1]);
      NormalNesting(items[|items| - 1]);
      ItemsNestingAppend(NormalItems(items[..|items| - 1]), Normal(items[|items| - 1]));
    }
  }

  lemma {:induction false} NormalMembersNesting(members: seq<JsMember>)
    ensures FieldsNesting(NormalMembers(members)) == JsMembersNesting(members)
    decreases members, 0
  {
    if members != [] {
      var last := members[|members| - 1];
      NormalMembersNesting(members[..|members| - 1]);
      NormalNesting(last.value);
      if !last.value.Undefined? {
        FieldsNestingAppend(NormalMembers(members[..|members| - 1]), Field(last.key, Normal(last.value)));
      } else {
        assert NormalMembers(members) == NormalMembers(members[..|members| - 1]);
      }
    }
  }

  // ----- the theorems

  /** What is printed for a value at an indentation. */
  function Printed(v: JsValue, indent: Text): Text
    requires JsOk(v) && PlainOk(Normal(v))
  {
    Print(Normal(v), [], indent)
  }

  /** A derivation of a text, by the RFC or by the program's grammar. */
  predicate Reads(p: Padded, t: Text) {
    IsDocument(p, Either) && PaddedText(p) == t
  }

  /** What is printed for an array or object is a text of RFC 4627 and of the program, and stands for the normalised
    value. */
  lemma PrintedTree(v: JsValue, indent: Text)
    requires JsOk(v) && (v.JsArray? || v.JsObject?) && IsWsText(indent)
    ensures PlainOk(Normal(v)) && InRfc(Printed(v, indent))
    ensures var p := Padded([], Tree(Normal(v), [], indent), []);
            && IsDocument(p) && Reads(p, Printed(v, indent)) && Denote(p.value) == Normal(v)
            && Nesting(p.value) == JsNesting(v)
  {
    hide Print, ValueText, IsBody, IsElements, IsMembers, JsOk, PlainOk, Denote, NumeralText;
    NormalOk(v);
    TreeSpells(Normal(v), [], indent);
    TreeDenotes(Normal(v), [], indent);
    NormalNesting(v);
    var p := Padded([], Tree(Normal(v), [], indent), []);
    TreeIsValue(Normal(v), [], indent, Program);
    TreeIsValue(Normal(v), [], indent, Rfc);
    assert IsDocument(p, Rfc) && PaddedText(p) == Printed(v, indent);
  }

  /** The checker accepts the printed text of every array or object at every depth above its nesting, and at no
      other depth. */
  lemma PrintedIsAccepted(v: JsValue, indent: Text, depth: int)
    requires JsOk(v) && (v.JsArray? || v.JsObject?) && IsWsText(indent) && depth >= 1
    ensures PlainOk(Normal(v))
    ensures Accepts(depth, START, Printed(v, indent)) <==> depth > JsNesting(v)
  {
    hide Printed, Tree, IsPadded, PaddedText, Accepts;
    PrintedTree(v, indent);
    var p := Padded([], Tree(Normal(v), [], indent), []);
    if depth > JsNesting(v) {
      Complete(depth, p);
    }
    if Accepts(depth, START, Printed(v, indent)) {
      var q := JsonSoundness.Sound(depth, Printed(v, indent));
      ProgramDocument(q);
      Unambiguous(p, q);
    }
  }

  lemma ProgramDocument(p: Padded)
    requires IsDocument(p)
    ensures IsDocument(p, Either)
  {
    ValueDialects(p.value);
  }

  /** However the printed text is read with the grammar, the result is the normalised value. */
  lemma ReadsBack(v: JsValue, indent: Text, p: Padded)
    requires JsOk(v) && (v.JsArray? || v.JsObject?) && IsWsText(indent) && PlainOk(Normal(v))
    requires Reads(p, Printed(v, indent))
    ensures Denote(p.value) == Normal(v)
  {
    hide Printed, Tree, IsPadded, PaddedText;
    PrintedTree(v, indent);
    Unambiguous(p, Padded([], Tree(Normal(v), [], indent), []));
  }

  /** A value in which nothing is undefined or infinite is read back exactly. */
  lemma ReadsBackExactly(v: JsValue, indent: Text, p: Padded)
    requires JsOk(v) && (v.JsArray? || v.JsObject?) && IsWsText(indent) && PlainOk(Normal(v)) && Expressible(v)
    requires Reads(p, Printed(v, indent))
    ensures AsJs(Denote(p.value)) == v
  {
    ReadsBack(v, indent, p);
    NormalIsSame(v);
  }

  /** Reading gives the same value whatever white space is used as indentation; and values that print the same
      are the same once normalised. */
  lemma IndentDoesNotMatter(v: JsValue, indent: Text, w: JsValue, indent': Text)
    requires JsOk(v) && (v.JsArray? || v.JsObject?) && JsOk(w) && (w.JsArray? || w.JsObject?)
    requires IsWsText(indent) && IsWsText(indent')
    ensures PlainOk(Normal(v)) && PlainOk(Normal(w))
    ensures forall p, q :: Reads(p, Printed(v, indent)) && Reads(q, Printed(w, indent')) ==>
              (Denote(p.value) == Denote(q.value) <==> Normal(v) == Normal(w))
    ensures Printed(v, indent) == Printed(w, indent') ==> Normal(v) == Normal(w)
  {
    PrintedTree(v, indent);
    PrintedTree(w, indent');
    forall p, q | Reads(p, Printed(v, indent)) && Reads(q, Printed(w, indent'))
      ensures Denote(p.value) == Denote(q.value) <==> Normal(v) == Normal(w)
    {
      ReadsBack(v, indent, p);
      ReadsBack(w, indent', q);
    }
    if Printed(v, indent) == Printed(w, indent') {
      ReadsBack(w, indent', Padded([], Tree(Normal(v), [], indent), []));
    }
  }
}
