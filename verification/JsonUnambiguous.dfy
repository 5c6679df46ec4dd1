/** A text has at most one derivation tree, be it of RFC 4627 or of the program, so reading a text gives one value. */
module JsonUnambiguous {
  import opened Wrappers
  import opened JsonTables
  import opened JsonGrammar

  /** What may come right after a value. */
  predicate Follows(r: Text) {
    r == [] || IsWs(r[0]) || r[0] == 44 || r[0] == 93 || r[0] == 125
  }

  predicate NoWsFirst(r: Text) {
    r == [] || !IsWs(r[0])
  }

  predicate NoDigitFirst(r: Text) {
    r == [] || !IsDigit(r[0])
  }

  lemma WsShows(w: Text, r: Text)
    requires IsWsText(w) && NoWsFirst(r)
    ensures (w + r != [] && IsWs((w + r)[0])) <==> w != []
    ensures w == [] ==> w + r == r
  {
    if w == [] {
      assert w + r == r;
    }
  }

  lemma {:induction false} WsUnique(w1: Text, r1: Text, w2: Text, r2: Text)
    requires IsWsText(w1) && IsWsText(w2) && w1 + r1 == w2 + r2 && NoWsFirst(r1) && NoWsFirst(r2)
    ensures w1 == w2 && r1 == r2
    decreases |w1|
  {
    WsShows(w1, r1);
    WsShows(w2, r2);
    if w1 != [] {
      Tails(w1, r1, w2, r2);
      WsUnique(w1[1..], r1, w2[1..], r2);
    }
  }

  /** Two equal texts with non-empty fronts agree on the first character and on the rest. */
  lemma Tails(a: Text, r1: Text, b: Text, r2: Text)
    requires a + r1 == b + r2 && a != [] && b != []
    ensures a[0] == b[0] && a[1..] + r1 == b[1..] + r2
  {
    assert a[0] == (a + r1)[0] == (b + r2)[0] == b[0];
    assert a[1..] + r1 == (a + r1)[1..];
    assert b[1..] + r2 == (b + r2)[1..];
  }

  lemma DigitsShow(g: Text, r: Text)
    requires IsDigits(g) && NoDigitFirst(r)
    ensures (g + r != [] && IsDigit((g + r)[0])) <==> g != []
    ensures g == [] ==> g + r == r
  {
    if g == [] {
      assert g + r == r;
    }
  }

  lemma {:induction false} DigitsUnique(g1: Text, r1: Text, g2: Text, r2: Text)
    requires IsDigits(g1) && IsDigits(g2) && g1 + r1 == g2 + r2 && NoDigitFirst(r1) && NoDigitFirst(r2)
    ensures g1 == g2 && r1 == r2
    decreases |g1|
  {
    DigitsShow(g1, r1);
    DigitsShow(g2, r2);
    if g1 != [] {
      Tails(g1, r1, g2, r2);
      DigitsUnique(g1[1..], r1, g2[1..], r2);
    }
  }

  function UnitLength(b: Text): nat
    requires b != [] && IsBody(b, Either)
    ensures 1 <= UnitLength(b) <= |b|
  {
    if b[0] != 92 then 1 else if b[1] == 117 then 6 else 2
  }

  /** A string body ends at its first unescaped quote. */
  lemma {:induction false} BodyUnique(b1: Text, r1: Text, b2: Text, r2: Text)
    requires IsBody(b1, Either) && IsBody(b2, Either) && b1 + [34] + r1 == b2 + [34] + r2
    ensures b1 == b2 && r1 == r2
    decreases |b1|
  {
    BodyShows(b1, r1);
    BodyShows(b2, r2);
    var t := b1 + [34] + r1;
    if b1 == [] {
      assert b2 == [] && r1 == t[1..] && r2 == (b2 + [34] + r2)[1..];
    } else {
      assert t[0] == b1[0] == b2[0];
      if b1[0] == 92 {
        assert t[1] == b1[1] == b2[1];
      }
      var n := UnitLength(b1);
      assert n == UnitLength(b2);
      assert t[n..] == b1[n..] + [34] + r1 && t[n..] == b2[n..] + [34] + r2;
      BodyUnique(b1[n..], r1, b2[n..], r2);
      assert b1[..n] == t[..n] == b2[..n];
      assert b1 == b1[..n] + b1[n..] && b2 == b2[..n] + b2[n..];
    }
  }

  lemma BodyShows(b: Text, r: Text)
    requires IsBody(b, Either)
    ensures (b + [34] + r)[0] == if b == [] then 34 else b[0]
    ensures (b + [34] + r)[0] == 34 <==> b == []
  {
  }

  // ----- numbers

  function FractionText(f: Option<Text>): Text { if f.Some? then [46] + f.value else [] }

  function MarkText(e: Option<Exponent>): Text { if e.Some? then ExponentText(e.value) else [] }

  lemma WholeUnique(w1: Text, r1: Text, w2: Text, r2: Text)
    requires IsWhole(w1) && IsWhole(w2) && w1 + r1 == w2 + r2
    requires (w1 != [48] ==> NoDigitFirst(r1)) && (w2 != [48] ==> NoDigitFirst(r2))
    ensures w1 == w2 && r1 == r2
  {
    Tails(w1, r1, w2, r2);
    if w1 == [48] {
      assert w2 == [48];
      SameDrop(w1, r1, r2);
    } else {
      assert IsDigits(w1) && IsDigits(w2);
      DigitsUnique(w1, r1, w2, r2);
    }
  }

  lemma MarkShows(e: Option<Exponent>, r: Text)
    requires (e.Some? ==> IsExponent(e.value)) && Follows(r)
    ensures var t := MarkText(e) + r;
            && ((t != [] && (t[0] == 101 || t[0] == 69)) <==> e.Some?)
            && NoDigitFirst(t) && (t == [] || t[0] != 46)
            && (e.None? ==> t == r)
  {
    if e.None? {
      assert MarkText(e) + r == r;
    } else {
      assert (MarkText(e) + r)[0] == e.value.mark;
    }
  }

  lemma ExponentUnique(e1: Option<Exponent>, r1: Text, e2: Option<Exponent>, r2: Text)
    requires (e1.Some? ==> IsExponent(e1.value)) && (e2.Some? ==> IsExponent(e2.value))
    requires MarkText(e1) + r1 == MarkText(e2) + r2 && Follows(r1) && Follows(r2)
    ensures e1 == e2 && r1 == r2
  {
    hide IsExponent, ExponentText;
    MarkShows(e1, r1);
    MarkShows(e2, r2);
    if e1.Some? {
      PartsUnique(e1.value, r1, e2.value, r2);
    }
  }

  lemma ExponentSplit(e: Exponent, r: Text)
    ensures ExponentText(e) + r == [e.mark] + (e.sign + (e.digits + r))
  {
  }

  lemma PartsUnique(a: Exponent, r1: Text, b: Exponent, r2: Text)
    requires IsExponent(a) && IsExponent(b) && ExponentText(a) + r1 == ExponentText(b) + r2 && Follows(r1)
    requires Follows(r2)
    ensures a == b && r1 == r2
  {
    hide ExponentText;
    ExponentSplit(a, r1);
    ExponentSplit(b, r2);
    var x, y := a.sign + (a.digits + r1), b.sign + (b.digits + r2);
    assert ([a.mark] + x)[0] == a.mark && ([b.mark] + y)[0] == b.mark;
    SameDrop([a.mark], x, y);
    assert (a.digits + r1)[0] == a.digits[0] && (b.digits + r2)[0] == b.digits[0];
    SignUnique(a.sign, a.digits + r1, b.sign, b.digits + r2);
    DigitsUnique(a.digits, r1, b.digits, r2);
  }

  lemma SignUnique(s1: Text, x1: Text, s2: Text, x2: Text)
    requires s1 in {[], [43], [45]} && s2 in {[], [43], [45]} && s1 + x1 == s2 + x2
    requires x1 != [] && x2 != [] && IsDigit(x1[0]) && IsDigit(x2[0])
    ensures s1 == s2 && x1 == x2
  {
    assert (s1 + x1)[0] == if s1 == [] then x1[0] else s1[0];
    assert (s2 + x2)[0] == if s2 == [] then x2[0] else s2[0];
    assert s1 == s2;
    SameDrop(s1, x1, x2);
  }

  lemma PointShows(f: Option<Text>, r: Text)
    requires NoDigitFirst(r) && (r == [] || r[0] != 46)
    ensures var t := FractionText(f) + r;
            && ((t != [] && t[0] == 46) <==> f.Some?) && NoDigitFirst(t)
            && (f.None? ==> t == r)
  {
    if f.None? {
      assert FractionText(f) + r == r;
    } else {
      assert (FractionText(f) + r)[0] == 46;
    }
  }

  lemma FractionUnique(f1: Option<Text>, r1: Text, f2: Option<Text>, r2: Text)
    requires (f1.Some? ==> IsDigits(f1.value)) && (f2.Some? ==> IsDigits(f2.value))
    requires FractionText(f1) + r1 == FractionText(f2) + r2 && NoDigitFirst(r1) && NoDigitFirst(r2)
    requires (r1 == [] || r1[0] != 46) && (r2 == [] || r2[0] != 46)
    ensures f1 == f2 && r1 == r2
  {
    PointShows(f1, r1);
    PointShows(f2, r2);
    if f1.Some? {
      Tails(FractionText(f1), r1, FractionText(f2), r2);
      assert FractionText(f1)[1..] == f1.value && FractionText(f2)[1..] == f2.value;
      DigitsUnique(f1.value, r1, f2.value, r2);
    }
  }

  lemma Regroup(m: Text, w: Text, f: Text, e: Text, r: Text)
    ensures m + w + f + e + r == m + (w + (f + (e + r)))
  {
  }

  lemma NumeralUnique(n1: Numeral, r1: Text, n2: Numeral, r2: Text)
    requires IsNumeral(n1, Either) && IsNumeral(n2, Either) && NumeralText(n1) + r1 == NumeralText(n2) + r2
    requires Follows(r1) && Follows(r2)
    ensures n1 == n2 && r1 == r2
  {
    hide IsExponent, ExponentText;
    var m1, m2 := if n1.minus then [45] else [], if n2.minus then [45] else [];
    var x1 := MarkText(n1.exponent) + r1;
    var x2 := MarkText(n2.exponent) + r2;
    var y1 := FractionText(n1.fraction) + x1;
    var y2 := FractionText(n2.fraction) + x2;
    Regroup(m1, n1.whole, FractionText(n1.fraction), MarkText(n1.exponent), r1);
    Regroup(m2, n2.whole, FractionText(n2.fraction), MarkText(n2.exponent), r2);
    var z1, z2 := n1.whole + y1, n2.whole + y2;
    assert m1 + z1 == m2 + z2;
    assert IsDigit(z1[0]) && IsDigit(z2[0]);
    SameMinus(n1.minus, z1, n2.minus, z2);
    MarkShows(n1.exponent, r1);
    MarkShows(n2.exponent, r2);
    PointShows(n1.fraction, x1);
    PointShows(n2.fraction, x2);
    WholeUnique(n1.whole, y1, n2.whole, y2);
    FractionUnique(n1.fraction, x1, n2.fraction, x2);
    ExponentUnique(n1.exponent, r1, n2.exponent, r2);
  }

  lemma SameMinus(a: bool, x: Text, b: bool, y: Text)
    requires (if a then [45] else []) + x == (if b then [45] else []) + y
    requires x != [] && y != [] && IsDigit(x[0]) && IsDigit(y[0])
    ensures a == b && x == y
  {
    assert ([45] + x)[0] == 45 && ([45] + y)[0] == 45;
    assert ([45] + x)[1..] == x && ([45] + y)[1..] == y;
    assert [] + x == x && [] + y == y;
  }

  // ----- values

  datatype Kind = AWord(w: Word) | ANumber | AString | AnArray | AnObject | NoKind

  /** The first character of a value tells what kind of value it is. */
  function KindAt(c: int): Kind {
    if c == 116 then AWord(True) else if c == 102 then AWord(False) else if c == 110 then AWord(Null)
    else if c == 45 || IsDigit(c) then ANumber
    else if c == 34 then AString else if c == 91 then AnArray else if c == 123 then AnObject else NoKind
  }

  function KindOf(v: Value): Kind {
    match v
    case Literal(w) => AWord(w)
    case Number(_) => ANumber
    case String(_) => AString
    case EmptyArray(_) => AnArray
    case Array(_) => AnArray
    case EmptyObject(_) => AnObject
    case Object(_) => AnObject
  }

  lemma FirstTells(v: Value, r: Text)
    requires IsValue(v, Either)
    ensures var t := ValueText(v) + r;
            t != [] && ValueText(v) != [] && KindAt(t[0]) == KindOf(v) && KindOf(v) != NoKind && !IsWs(t[0])
  {
    hide IsBody, IsElements, IsMembers, ElementsText, MembersText, IsExponent, ExponentText;
    if v.Number? {
      var n := v.numeral;
      var minus := if n.minus then [45] else [];
      assert NumeralText(n)[0] == (minus + n.whole)[0];
      assert IsDigit(n.whole[0]);
    }
    assert (ValueText(v) + r)[0] == ValueText(v)[0];
  }

  lemma {:induction false} ValueUnique(v1: Value, r1: Text, v2: Value, r2: Text)
    requires IsValue(v1, Either) && IsValue(v2, Either) && ValueText(v1) + r1 == ValueText(v2) + r2 && Follows(r1)
    requires Follows(r2)
    ensures v1 == v2 && r1 == r2
    decreases v1
  {
    hide IsNumeral, NumeralText, IsBody, WordText;
    FirstTells(v1, r1);
    FirstTells(v2, r2);
    match v1
    case Literal(w) => assert ValueText(v2) == ValueText(v1); SameDrop(ValueText(v1), r1, r2);
    case Number(n) => NumeralUnique(n, r1, v2.numeral, r2);
    case String(b) =>
      StringSplit(b, r1);
      StringSplit(v2.body, r2);
      SameDrop([34], b + [34] + r1, v2.body + [34] + r2);
      BodyUnique(b, r1, v2.body, r2);
    case _ => CompositeUnique(v1, r1, v2, r2);
  }

  lemma SameDrop(s: Text, x: Text, y: Text)
    requires s + x == s + y
    ensures x == y
  {
    assert (s + x)[|s|..] == x && (s + y)[|s|..] == y;
  }

  lemma StringSplit(b: Text, r: Text)
    ensures StringText(b) + r == [34] + (b + [34] + r)
  {
  }

  function Opening(v: Value): int
    requires IsComposite(v)
  {
    if v.EmptyArray? || v.Array? then 91 else 123
  }

  /** The inside of an array or object, with its closing bracket. */
  function Inside(v: Value): Text
    requires IsComposite(v)
  {
    match v
    case EmptyArray(g) => g + [93]
    case Array(es) => ElementsText(es) + [93]
    case EmptyObject(g) => g + [125]
    case Object(ms) => MembersText(ms) + [125]
  }

  lemma CompositeSplit(v: Value, r: Text)
    requires IsComposite(v)
    ensures ValueText(v) + r == [Opening(v)] + (Inside(v) + r)
  {
  }

  lemma {:induction false} CompositeUnique(v1: Value, r1: Text, v2: Value, r2: Text)
    requires IsValue(v1, Either) && IsValue(v2, Either) && IsComposite(v1) && IsComposite(v2)
    requires KindOf(v1) == KindOf(v2)
    requires ValueText(v1) + r1 == ValueText(v2) + r2
    ensures v1 == v2 && r1 == r2
    decreases v1, 0
  {
    hide IsNumeral, NumeralText, IsBody, WordText, ElementsText, MembersText, IsElements, IsMembers, ValueText;
    CompositeSplit(v1, r1);
    CompositeSplit(v2, r2);
    SameDrop([Opening(v1)], Inside(v1) + r1, Inside(v2) + r2);
    SameEmptiness(v1, r1, v2, r2);
    match v1
    case EmptyArray(g) => GapUnique(g, v2.gap, 93, r1, r2);
    case Array(es) => ElementsUnique(es, r1, v2.elements, r2);
    case EmptyObject(g) => GapUnique(g, v2.gap, 125, r1, r2);
    case Object(ms) => MembersUnique(ms, r1, v2.members, r2);
  }

  lemma GapUnique(g1: Text, g2: Text, c: int, r1: Text, r2: Text)
    requires IsWsText(g1) && IsWsText(g2) && !IsWs(c) && g1 + [c] + r1 == g2 + [c] + r2
    ensures g1 == g2 && r1 == r2
  {
    assert g1 + [c] + r1 == g1 + ([c] + r1) && g2 + [c] + r2 == g2 + ([c] + r2);
    WsUnique(g1, [c] + r1, g2, [c] + r2);
    SameDrop([c], r1, r2);
  }

  /** After its white space, the inside of an array shows whether the array is empty: a bracket, or a value. */
  lemma InsideShows(v: Value, r: Text) returns (w: Text, t: Text)
    requires IsValue(v, Either) && IsComposite(v)
    ensures IsWsText(w) && Inside(v) + r == w + t && t != [] && !IsWs(t[0])
    ensures t[0] in {93, 125} <==> v.EmptyArray? || v.EmptyObject?
  {
    hide ValueText, IsBody, PaddedText;
    match v
    case EmptyArray(g) => w, t := g, [93] + r;
    case EmptyObject(g) => w, t := g, [125] + r;
    case Array(es) =>
      assert IsElements(es, Either) && IsPadded(es.element, Either);
      var x := ElementsRest(es, r);
      w := es.element.before;
      t := ValueText(es.element.value) + (es.element.after + x);
      ElementsSplit(es, r);
      PaddedSplit(es.element, x);
      FirstTells(es.element.value, es.element.after + x);
    case Object(ms) =>
      var x := MembersRest(ms, r);
      var m := ms.member;
      assert IsMembers(ms, Either) && IsMember(m, Either);
      w := m.before;
      t := [34] + (m.name + [34] + (m.after + ([58] + (PaddedText(m.value) + x))));
      MembersSplit(ms, r);
      MemberSplit(m, x);
  }

  lemma SameEmptiness(v1: Value, r1: Text, v2: Value, r2: Text)
    requires IsValue(v1, Either) && IsComposite(v1) && IsValue(v2, Either) && IsComposite(v2)
    requires Inside(v1) + r1 == Inside(v2) + r2
    ensures (v1.EmptyArray? || v1.EmptyObject?) == (v2.EmptyArray? || v2.EmptyObject?)
  {
    var w1, t1 := InsideShows(v1, r1);
    var w2, t2 := InsideShows(v2, r2);
    WsUnique(w1, t1, w2, t2);
  }

  lemma {:induction false} PaddedUnique(p1: Padded, r1: Text, p2: Padded, r2: Text)
    requires IsPadded(p1, Either) && IsPadded(p2, Either) && PaddedText(p1) + r1 == PaddedText(p2) + r2
    requires Follows(r1) && Follows(r2) && NoWsFirst(r1) && NoWsFirst(r2)
    ensures p1 == p2 && r1 == r2
    decreases p1
  {
    hide IsValue, ValueText;
    var x1, x2 := p1.after + r1, p2.after + r2;
    PaddedSplit(p1, r1);
    PaddedSplit(p2, r2);
    FirstTells(p1.value, x1);
    FirstTells(p2.value, x2);
    WsUnique(p1.before, ValueText(p1.value) + x1, p2.before, ValueText(p2.value) + x2);
    ValueUnique(p1.value, x1, p2.value, x2);
    WsUnique(p1.after, r1, p2.after, r2);
  }

  lemma PaddedSplit(p: Padded, r: Text)
    ensures PaddedText(p) + r == p.before + (ValueText(p.value) + (p.after + r))
  {
    hide ValueText;
  }

  /** What comes after the first element of an array: the bracket, or a comma and the others. */
  function ElementsRest(es: Elements, r: Text): Text {
    if es.OneElement? then [93] + r else [44] + (ElementsText(es.rest) + [93] + r)
  }

  lemma ElementsSplit(es: Elements, r: Text)
    ensures ElementsText(es) + [93] + r == PaddedText(es.element) + ElementsRest(es, r)
  {
    hide PaddedText;
  }

  lemma {:induction false} ElementsUnique(es1: Elements, r1: Text, es2: Elements, r2: Text)
    requires IsElements(es1, Either) && IsElements(es2, Either)
    requires ElementsText(es1) + [93] + r1 == ElementsText(es2) + [93] + r2
    ensures es1 == es2 && r1 == r2
    decreases es1
  {
    hide IsPadded, PaddedText;
    ElementsSplit(es1, r1);
    ElementsSplit(es2, r2);
    var x1, x2 := ElementsRest(es1, r1), ElementsRest(es2, r2);
    PaddedUnique(es1.element, x1, es2.element, x2);
    assert x1[0] == x2[0];
    SameDrop([x1[0]], x1[1..], x2[1..]);
    if es1.MoreElements? {
      ElementsUnique(es1.rest, r1, es2.rest, r2);
    }
  }

  lemma {:induction false} MemberUnique(m1: Member, r1: Text, m2: Member, r2: Text)
    requires IsMember(m1, Either) && IsMember(m2, Either) && MemberText(m1) + r1 == MemberText(m2) + r2
    requires Follows(r1) && Follows(r2) && NoWsFirst(r1) && NoWsFirst(r2)
    ensures m1 == m2 && r1 == r2
    decreases m1
  {
    hide IsBody, IsPadded, PaddedText;
    MemberSplit(m1, r1);
    MemberSplit(m2, r2);
    var y1, y2 := [58] + (PaddedText(m1.value) + r1), [58] + (PaddedText(m2.value) + r2);
    var x1, x2 := m1.after + y1, m2.after + y2;
    WsUnique(m1.before, [34] + (m1.name + [34] + x1), m2.before, [34] + (m2.name + [34] + x2));
    SameDrop([34], m1.name + [34] + x1, m2.name + [34] + x2);
    BodyUnique(m1.name, x1, m2.name, x2);
    WsUnique(m1.after, y1, m2.after, y2);
    SameDrop([58], PaddedText(m1.value) + r1, PaddedText(m2.value) + r2);
    PaddedUnique(m1.value, r1, m2.value, r2);
  }

  lemma MemberSplit(m: Member, r: Text)
    ensures MemberText(m) + r == m.before + ([34] + (m.name + [34] + (m.after + ([58] + (PaddedText(m.value) + r)))))
  {
    hide PaddedText;
  }

  function MembersRest(ms: Members, r: Text): Text {
    if ms.OneMember? then [125] + r else [44] + (MembersText(ms.rest) + [125] + r)
  }

  lemma MembersSplit(ms: Members, r: Text)
    ensures MembersText(ms) + [125] + r == MemberText(ms.member) + MembersRest(ms, r)
  {
    hide MemberText;
  }

  lemma {:induction false} MembersUnique(ms1: Members, r1: Text, ms2: Members, r2: Text)
    requires IsMembers(ms1, Either) && IsMembers(ms2, Either)
    requires MembersText(ms1) + [125] + r1 == MembersText(ms2) + [125] + r2
    ensures ms1 == ms2 && r1 == r2
    decreases ms1
  {
    hide IsMember, MemberText;
    MembersSplit(ms1, r1);
    MembersSplit(ms2, r2);
    var x1, x2 := MembersRest(ms1, r1), MembersRest(ms2, r2);
    MemberUnique(ms1.member, x1, ms2.member, x2);
    assert x1[0] == x2[0];
    SameDrop([x1[0]], x1[1..], x2[1..]);
    if ms1.MoreMembers? {
      MembersUnique(ms1.rest, r1, ms2.rest, r2);
    }
  }

  /** A text has at most one derivation. */
  lemma Unambiguous(p1: Padded, p2: Padded)
    requires IsDocument(p1, Either) && IsDocument(p2, Either) && PaddedText(p1) == PaddedText(p2)
    ensures p1 == p2
  {
    assert PaddedText(p1) + [] == PaddedText(p2) + [];
    PaddedUnique(p1, [], p2, []);
  }
}
