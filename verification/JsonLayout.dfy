/** Where the printed text has white space: with an indentation, every element and every member is on a line of its own,
  indented as deep as it is nested, and a blank follows each colon; without one there is no white space at all. */
module JsonLayout {
  import opened JsonGrammar
  import opened JsonPrinter
  import opened JsonRoundTrip
  import opened JsonUnambiguous

  function Times(indent: Text, k: nat): Text {
    if k == 0 then [] else Times(indent, k - 1) + indent
  }

  /** What comes before something k levels deep. */
  function Line(indent: Text, k: nat): Text {
    if indent == [] then [] else [10] + Times(indent, k)
  }

  /** The white space in a derivation tree at depth k. */
  predicate Laid(v: Value, k: nat, indent: Text) {
    match v
    case EmptyArray(g) => g == []
    case EmptyObject(g) => g == []
    case Array(es) => LaidElements(es, k, indent)
    case Object(ms) => LaidMembers(ms, k, indent)
    case _ => true
  }

  predicate LaidElements(es: Elements, k: nat, indent: Text) {
    && es.element.before == Line(indent, k + 1) && Laid(es.element.value, k + 1, indent)
    && es.element.after == (if es.OneElement? then Line(indent, k) else [])
    && (es.OneElement? || LaidElements(es.rest, k, indent))
  }

  predicate LaidMembers(ms: Members, k: nat, indent: Text) {
    && ms.member.before == Line(indent, k + 1) && ms.member.after == []
    && ms.member.value.before == (if indent == [] then [] else [32]) && Laid(ms.member.value.value, k + 1, indent)
    && ms.member.value.after == (if ms.OneMember? then Line(indent, k) else [])
    && (ms.OneMember? || LaidMembers(ms.rest, k, indent))
  }

  lemma {:induction false} TimesNone(k: nat)
    ensures Times([], k) == []
  {
    if k > 0 {
      TimesNone(k - 1);
    }
  }

  lemma LineIs(indent: Text, k: nat)
    ensures Times(indent, k + 1) == Times(indent, k) + indent
    ensures Before(Times(indent, k + 1)) == Line(indent, k + 1)
    ensures Last(Times(indent, k + 1), Times(indent, k)) == Line(indent, k)
    ensures Times(indent, k + 1) == [] <==> indent == []
  {
    if indent == [] {
      TimesNone(k + 1);
    }
  }

  lemma {:induction false} TreeLaid(p: Plain, k: nat, indent: Text)
    requires PlainOk(p)
    ensures Laid(Tree(p, Times(indent, k), indent), k, indent)
    decreases p, 1
  {
    LineIs(indent, k);
    match p
    case PArray(items) => if items != [] { ElementsLaid(items, k, indent); }
    case PObject(fields) => if fields != [] { MembersLaid(fields, k, indent); }
    case _ =>
  }

  lemma {:induction false} ElementsLaid(items: seq<Plain>, k: nat, indent: Text)
    requires items != [] && forall i :: 0 <= i < |items| ==> PlainOk(items[i])
    ensures LaidElements(ElementsOf(items, Times(indent, k + 1), Times(indent, k), indent), k, indent)
    decreases items, 0
  {
    hide Times, Line, Before, Last;
    LineIs(indent, k);
    TreeLaid(items[0], k + 1, indent);
    if |items| > 1 {
      ElementsLaid(items[1..], k, indent);
    }
  }

  lemma {:induction false} MembersLaid(fields: seq<Field>, k: nat, indent: Text)
    requires fields != [] && forall i :: 0 <= i < |fields| ==> AreUnits(fields[i].key) && PlainOk(fields[i].value)
    ensures LaidMembers(MembersOf(fields, Times(indent, k + 1), Times(indent, k), indent), k, indent)
    decreases fields, 0
  {
    hide Times, Line, Before, Last, Replaced;
    LineIs(indent, k);
    TreeLaid(fields[0].value, k + 1, indent);
    if |fields| > 1 {
      MembersLaid(fields[1..], k, indent);
    }
  }

  /** However the printed text of an array or object is read, this is its white space. */
  lemma PrintedLayout(v: JsValue, indent: Text, p: Padded)
    requires JsOk(v) && (v.JsArray? || v.JsObject?) && IsWsText(indent) && PlainOk(Normal(v))
    requires Reads(p, Printed(v, indent))
    ensures p.before == [] && p.after == [] && Laid(p.value, 0, indent)
  {
    hide Printed, IsPadded, PaddedText, Laid;
    PrintedTree(v, indent);
    Unambiguous(p, Padded([], Tree(Normal(v), [], indent), []));
    TreeLaid(Normal(v), 0, indent);
    assert Times(indent, 0) == [];
  }
}
