/** The program's derivations and those of RFC 4627 within what either of them admits. */
module JsonDialects {
  import opened Wrappers
  import opened JsonGrammar

  // ----- what a derivation holds

  function Numerals(v: Value): set<Numeral> {
    match v
    case Number(n) => {n}
    case Array(es) => ElementsNumerals(es)
    case Object(ms) => MembersNumerals(ms)
    case _ => {}
  }

  function ElementsNumerals(es: Elements): set<Numeral> {
    Numerals(es.element.value) + if es.MoreElements? then ElementsNumerals(es.rest) else {}
  }

  function MembersNumerals(ms: Members): set<Numeral> {
    Numerals(ms.member.value.value) + if ms.MoreMembers? then MembersNumerals(ms.rest) else {}
  }

  /** The strings of a value, with the names of its members. */
  function Bodies(v: Value): set<Text> {
    match v
    case String(b) => {b}
    case Array(es) => ElementsBodies(es)
    case Object(ms) => MembersBodies(ms)
    case _ => {}
  }

  function ElementsBodies(es: Elements): set<Text> {
    Bodies(es.element.value) + if es.MoreElements? then ElementsBodies(es.rest) else {}
  }

  function MembersBodies(ms: Members): set<Text> {
    {ms.member.name} + Bodies(ms.member.value.value) + if ms.MoreMembers? then MembersBodies(ms.rest) else {}
  }

  // ----- the three flaws

  /** A decimal point without digits. */
  predicate EmptyFraction(n: Numeral) {
    n.fraction == Some([])
  }

  /** An exponent right after a whole part that is just 0. */
  predicate BareZeroExponent(n: Numeral) {
    n.whole == [48] && n.fraction.None? && n.exponent.Some?
  }

  /** A character above the last of Unicode. */
  predicate WideBody(b: Text) {
    exists i :: 0 <= i < |b| && b[i] > LAST_CHARACTER
  }

  predicate NoEmptyFraction(ns: set<Numeral>) {
    forall n :: n in ns ==> !EmptyFraction(n)
  }

  predicate NoBareZeroExponent(ns: set<Numeral>) {
    forall n :: n in ns ==> !BareZeroExponent(n)
  }

  predicate NoWideBody(bs: set<Text>) {
    forall b :: b in bs ==> !WideBody(b)
  }

  // ----- the two languages within their union

  lemma {:induction false} BodyDialects(b: Text)
    ensures IsBody(b, Program) <==> IsBody(b, Either)
    ensures IsBody(b, Rfc) <==> IsBody(b, Either) && !WideBody(b)
    decreases |b|
  {
    if b != [] {
      var n := if b[0] != 92 || |b| < 2 then 1 else if b[1] == 117 && |b| >= 6 then 6 else 2;
      BodyDialects(b[n..]);
      if WideBody(b[n..]) {
        var i :| 0 <= i < |b[n..]| && b[n..][i] > LAST_CHARACTER;
        assert b[n + i] > LAST_CHARACTER;
      }
      if WideBody(b) {
        var i :| 0 <= i < |b| && b[i] > LAST_CHARACTER;
        if i >= n {
          assert b[n..][i - n] > LAST_CHARACTER;
        }
      }
    }
  }

  /** The program's derivations are those without an exponent after a bare zero, the RFC's those without an empty
    fraction and without a character above the last one. */
  lemma {:induction false} ValueDialects(v: Value)
    ensures IsValue(v, Program) <==> IsValue(v, Either) && NoBareZeroExponent(Numerals(v))
    ensures IsValue(v, Rfc) <==> IsValue(v, Either) && NoEmptyFraction(Numerals(v)) && NoWideBody(Bodies(v))
  {
    match v
    case String(b) => BodyDialects(b);
    case Array(es) => ElementsDialects(es);
    case Object(ms) => MembersDialects(ms);
    case _ =>
  }

  lemma {:induction false} ElementsDialects(es: Elements)
    ensures IsElements(es, Program) <==> IsElements(es, Either) && NoBareZeroExponent(ElementsNumerals(es))
    ensures IsElements(es, Rfc) <==>
      IsElements(es, Either) && NoEmptyFraction(ElementsNumerals(es)) && NoWideBody(ElementsBodies(es))
  {
    ValueDialects(es.element.value);
    if es.MoreElements? {
      ElementsDialects(es.rest);
    }
  }

  lemma {:induction false} MembersDialects(ms: Members)
    ensures IsMembers(ms, Program) <==> IsMembers(ms, Either) && NoBareZeroExponent(MembersNumerals(ms))
    ensures IsMembers(ms, Rfc) <==>
      IsMembers(ms, Either) && NoEmptyFraction(MembersNumerals(ms)) && NoWideBody(MembersBodies(ms))
  {
    hide EmptyFraction, BareZeroExponent, WideBody, IsBody, IsValue, IsWsText;
    var m := ms.member;
    BodyDialects(m.name);
    ValueDialects(m.value.value);
    assert IsPadded(m.value, Program) <==> IsPadded(m.value, Either) && NoBareZeroExponent(Numerals(m.value.value));
    assert IsMember(m, Rfc) <==>
      IsMember(m, Either) && NoEmptyFraction(Numerals(m.value.value)) && NoWideBody({m.name} + Bodies(m.value.value));
    if ms.MoreMembers? {
      MembersDialects(ms.rest);
    }
  }
}
