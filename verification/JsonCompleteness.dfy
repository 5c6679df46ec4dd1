/** Completeness: reading the text of any derivation tree takes the checker through the tree. */
module JsonCompleteness {
  import opened Wrappers
  import opened JsonTables
  import opened JsonGrammar
  import opened JsonChecker

  /** The states in which a value has just ended: OK, or inside a number that may stop here. */
  predicate Ends(s: int) {
    s == OK || s == ZE || s == IN || s == FR || s == E3
  }

  predicate SkipsWs(s: int) {
    s == GO || s == OK || s == OB || s == KE || s == CO || s == VA || s == AR
  }

  /** A value may start in the states VA and AR, inside an array or after the colon of a member. */
  predicate AtValue(depth: int, cfg: Config) {
    cfg.Valid(depth) && (cfg.state == VA || cfg.state == AR) && cfg.Top() in {ARRAY, OBJECT}
  }

  function NumeralEnd(n: Numeral): int {
    if n.exponent.Some? then E3 else if n.fraction.Some? then FR else if n.whole == [48] then ZE else IN
  }

  /** The state right after the last character of a value. */
  function After(v: Value): int {
    if v.Number? then NumeralEnd(v.numeral) else OK
  }

  lemma Then(depth: int, cfg: Config, a: Text, mid: Config, b: Text)
    requires cfg.Valid(depth) && Run(depth, cfg, a) == Some(mid)
    ensures mid.Valid(depth) && Run(depth, cfg, a + b) == Run(depth, mid, b)
  {
    RunAppend(depth, cfg, a, b);
  }

  lemma One(depth: int, cfg: Config, c: int)
    requires cfg.Valid(depth)
    ensures Run(depth, cfg, [c]) == Step(depth, cfg, c)
  {
    var next := Step(depth, cfg, c);
    if next.Some? {
      assert Run(depth, next.value, []) == next;
      assert [c][1..] == [];
    }
  }

  lemma {:induction false} RunWs(depth: int, cfg: Config, w: Text)
    requires cfg.Valid(depth) && SkipsWs(cfg.state) && IsWsText(w)
    ensures Run(depth, cfg, w) == Some(cfg)
    decreases |w|
  {
    if w != [] {
      assert IsWs(w[0]);
      RunWs(depth, cfg, w[1..]);
    }
  }

  /** White space after a value: a number in progress ends with the first blank. */
  lemma RunWsAfter(depth: int, cfg: Config, w: Text)
    requires cfg.Valid(depth) && Ends(cfg.state) && IsWsText(w)
    ensures Run(depth, cfg, w) == Some(cfg.(state := if w == [] then cfg.state else OK))
  {
    if w != [] {
      assert IsWs(w[0]);
      RunWs(depth, cfg.(state := OK), w[1..]);
    }
  }

  /** A comma or a closing bracket is handled in every end-of-value state as in OK. */
  lemma EndsAlike(depth: int, cfg: Config, c: int)
    requires cfg.Valid(depth) && Ends(cfg.state) && (c == 44 || c == 93 || c == 125)
    ensures Step(depth, cfg, c) == Step(depth, cfg.(state := OK), c)
  {
  }

  lemma {:induction false} RunDigits(depth: int, cfg: Config, t: Text)
    requires cfg.Valid(depth) && cfg.state in {IN, FR, E3} && IsDigits(t)
    ensures Run(depth, cfg, t) == Some(cfg)
    decreases |t|
  {
    if t != [] {
      assert IsDigit(t[0]);
      RunDigits(depth, cfg, t[1..]);
    }
  }

  lemma {:induction false} RunBody(depth: int, cfg: Config, b: Text)
    requires cfg.Valid(depth) && cfg.state == ST && IsBody(b)
    ensures Run(depth, cfg, b) == Some(cfg)
    decreases |b|
  {
    if b == [] {
    } else if b[0] != 92 {
      RunBody(depth, cfg, b[1..]);
    } else if b[1] == 117 {
      RunBody(depth, cfg, b[6..]);
      RunHex(depth, cfg, b);
    } else {
      RunBody(depth, cfg, b[2..]);
      Moves(depth, cfg, b, 0, ES);
      Moves(depth, cfg.(state := ES), b, 1, ST);
      assert b[0..] == b;
    }
  }

  lemma RunHex(depth: int, cfg: Config, b: Text)
    requires cfg.Valid(depth) && cfg.state == ST
    requires |b| >= 6 && b[0] == 92 && b[1] == 117 && IsHex(b[2]) && IsHex(b[3]) && IsHex(b[4]) && IsHex(b[5])
    ensures Run(depth, cfg, b) == Run(depth, cfg, b[6..])
  {
    Moves(depth, cfg, b, 0, ES);
    Moves(depth, cfg.(state := ES), b, 1, U1);
    Moves(depth, cfg.(state := U1), b, 2, U2);
    Moves(depth, cfg.(state := U2), b, 3, U3);
    Moves(depth, cfg.(state := U3), b, 4, U4);
    Moves(depth, cfg.(state := U4), b, 5, ST);
    assert b[0..] == b;
  }

  lemma Drop(b: Text, k: nat)
    requires k < |b|
    ensures b[k..] != [] && b[k..][0] == b[k] && b[k..][1..] == b[k + 1..]
  {
  }

  /** A string: in key position the colon is next, elsewhere the value has ended. */
  lemma RunString(depth: int, cfg: Config, b: Text)
    requires cfg.Valid(depth) && cfg.state in {VA, AR, OB, KE} && IsBody(b) && cfg.Top() != DONE
    ensures Run(depth, cfg, StringText(b)) == Some(cfg.(state := if cfg.Top() == KEY then CO else OK))
  {
    var inside := cfg.(state := ST);
    One(depth, cfg, 34);
    Then(depth, cfg, [34], inside, b + [34]);
    RunBody(depth, inside, b);
    Then(depth, inside, b, inside, [34]);
    One(depth, inside, 34);
    assert StringText(b) == [34] + (b + [34]);
  }

  lemma Moves(depth: int, cfg: Config, t: Text, k: nat, s: int)
    requires cfg.Valid(depth) && k < |t| && !IsIllegal(t[k]) && Delta(cfg.state, t[k]) == s && 0 <= s < NR_STATES
    ensures Run(depth, cfg, t[k..]) == Run(depth, cfg.(state := s), t[k + 1..])
  {
    Drop(t, k);
  }

  /** The one letter that each state inside a word lets through. */
  function WordLetter(s: int): int {
    if s == T1 then 114 else if s == T2 then 117 else if s == T3 then 101
    else if s == F1 then 97 else if s == F2 then 108 else if s == F3 then 115 else if s == F4 then 101
    else if s == N1 then 117 else 108
  }

  /** What is still to come of `true`, `false` or `null`. */
  function WordTail(s: int): Text
    requires T1 <= s <= N3
    decreases N3 - s
  {
    [WordLetter(s)] + if s == T3 || s == F4 || s == N3 then [] else WordTail(s + 1)
  }

  lemma {:induction false} RunTail(depth: int, cfg: Config)
    requires cfg.Valid(depth) && T1 <= cfg.state <= N3
    ensures Run(depth, cfg, WordTail(cfg.state)) == Some(cfg.(state := OK))
    decreases N3 - cfg.state
  {
    var s := cfg.state;
    One(depth, cfg, WordLetter(s));
    if s != T3 && s != F4 && s != N3 {
      var next := cfg.(state := s + 1);
      RunTail(depth, next);
      Then(depth, cfg, [WordLetter(s)], next, WordTail(s + 1));
    }
  }

  function WordStart(w: Word): int {
    match w case True => T1 case False => F1 case Null => N1
  }

  lemma WordSplits(w: Word)
    ensures WordText(w) == [WordText(w)[0]] + WordTail(WordStart(w))
  {
    match w
    case True => assert WordTail(T2) == [117] + WordTail(T3);
    case False => assert WordTail(F3) == [115] + WordTail(F4) && WordTail(F2) == [108] + WordTail(F3);
    case Null => assert WordTail(N2) == [108] + WordTail(N3);
  }

  /** The first letter of a word leads to the state in which the second is expected. */
  lemma BeginsWord(depth: int, cfg: Config, w: Word)
    requires AtValue(depth, cfg)
    ensures Run(depth, cfg, [WordText(w)[0]]) == Some(cfg.(state := WordStart(w)))
  {
    match w
    case True => One(depth, cfg, 116);
    case False => One(depth, cfg, 102);
    case Null => One(depth, cfg, 110);
  }

  lemma RunWord(depth: int, cfg: Config, w: Word)
    requires AtValue(depth, cfg)
    ensures Run(depth, cfg, WordText(w)) == Some(cfg.(state := OK))
  {
    hide Run, WordTail;
    var first := [WordText(w)[0]];
    WordSplits(w);
    hide WordText;
    var inside := cfg.(state := WordStart(w));
    BeginsWord(depth, cfg, w);
    RunTail(depth, inside);
    Then(depth, cfg, first, inside, WordTail(WordStart(w)));
  }

  lemma RunWhole(depth: int, cfg: Config, t: Text)
    requires cfg.Valid(depth) && cfg.state in {VA, AR, MI} && IsWhole(t)
    ensures Run(depth, cfg, t) == Some(cfg.(state := if t == [48] then ZE else IN))
  {
    if t == [48] {
      One(depth, cfg, 48);
    } else {
      assert IsDigit(t[0]);
      RunDigits(depth, cfg.(state := IN), t[1..]);
    }
  }

  lemma RunFraction(depth: int, cfg: Config, t: Text)
    requires cfg.Valid(depth) && cfg.state in {ZE, IN} && IsDigits(t)
    ensures Run(depth, cfg, [46] + t) == Some(cfg.(state := FR))
  {
    One(depth, cfg, 46);
    Then(depth, cfg, [46], cfg.(state := FR), t);
    RunDigits(depth, cfg.(state := FR), t);
  }

  lemma RunExponent(depth: int, cfg: Config, e: Exponent)
    requires cfg.Valid(depth) && cfg.state in {IN, FR} && IsExponent(e)
    ensures Run(depth, cfg, ExponentText(e)) == Some(cfg.(state := E3))
  {
    var marked := cfg.(state := E1);
    One(depth, cfg, e.mark);
    Then(depth, cfg, [e.mark], marked, e.sign + e.digits);
    assert ExponentText(e) == [e.mark] + (e.sign + e.digits);
    RunSigned(depth, marked, e);
  }

  lemma RunSigned(depth: int, marked: Config, e: Exponent)
    requires marked.Valid(depth) && marked.state == E1 && IsExponent(e)
    ensures Run(depth, marked, e.sign + e.digits) == Some(marked.(state := E3))
  {
    var t := e.digits;
    if e.sign == [] {
      assert e.sign + t == t;
      RunExponentDigits(depth, marked, t);
    } else {
      One(depth, marked, e.sign[0]);
      assert e.sign == [e.sign[0]];
      Then(depth, marked, e.sign, marked.(state := E2), t);
      RunExponentDigits(depth, marked.(state := E2), t);
    }
  }

  lemma RunExponentDigits(depth: int, cfg: Config, t: Text)
    requires cfg.Valid(depth) && cfg.state in {E1, E2} && t != [] && IsDigits(t)
    ensures Run(depth, cfg, t) == Some(cfg.(state := E3))
  {
    assert IsDigit(t[0]);
    RunDigits(depth, cfg.(state := E3), t[1..]);
  }

  lemma RunNumeral(depth: int, cfg: Config, n: Numeral)
    requires AtValue(depth, cfg) && IsNumeral(n)
    ensures Run(depth, cfg, NumeralText(n)) == Some(cfg.(state := NumeralEnd(n)))
  {
    var minus := if n.minus then [45] else [];
    var fraction := if n.fraction.Some? then [46] + n.fraction.value else [];
    var exponent := if n.exponent.Some? then ExponentText(n.exponent.value) else [];
    var c1 := if n.minus then cfg.(state := MI) else cfg;
    var c2 := cfg.(state := if n.whole == [48] then ZE else IN);
    var c3 := if n.fraction.Some? then cfg.(state := FR) else c2;
    if n.minus {
      One(depth, cfg, 45);
    }
    RunWhole(depth, c1, n.whole);
    Then(depth, cfg, minus, c1, n.whole);
    if n.fraction.Some? {
      RunFraction(depth, c2, n.fraction.value);
    }
    Then(depth, cfg, minus + n.whole, c2, fraction);
    if n.exponent.Some? {
      RunExponent(depth, c3, n.exponent.value);
    }
    Then(depth, cfg, minus + n.whole + fraction, c3, exponent);
  }

  lemma RunEmptyArray(depth: int, cfg: Config, g: Text)
    requires cfg.Valid(depth) && IsValue(EmptyArray(g)) && |cfg.stack| + Nesting(EmptyArray(g)) <= depth
    requires AtValue(depth, cfg) || cfg.state == GO
    ensures Run(depth, cfg, ValueText(EmptyArray(g))) == Some(cfg.(state := After(EmptyArray(g))))
  {
    var inside := Config(AR, cfg.stack + [ARRAY]);
    One(depth, cfg, 91);
    RunWs(depth, inside, g);
    Then(depth, cfg, [91], inside, g);
    Then(depth, cfg, [91] + g, inside, [93]);
    One(depth, inside, 93);
  }

  lemma RunEmptyObject(depth: int, cfg: Config, g: Text)
    requires cfg.Valid(depth) && IsValue(EmptyObject(g)) && |cfg.stack| + Nesting(EmptyObject(g)) <= depth
    requires AtValue(depth, cfg) || cfg.state == GO
    ensures Run(depth, cfg, ValueText(EmptyObject(g))) == Some(cfg.(state := After(EmptyObject(g))))
  {
    var inside := Config(OB, cfg.stack + [KEY]);
    One(depth, cfg, 123);
    RunWs(depth, inside, g);
    Then(depth, cfg, [123], inside, g);
    Then(depth, cfg, [123] + g, inside, [125]);
    One(depth, inside, 125);
  }

  /** The main lemma: a value whose nesting fits the free stack is read, and the stack is as before. */
  lemma OpenArray(depth: int, cfg: Config, rest: Text)
    requires cfg.Valid(depth) && |cfg.stack| < depth && (AtValue(depth, cfg) || cfg.state == GO)
    ensures Config(AR, cfg.stack + [ARRAY]).Valid(depth)
    ensures Run(depth, cfg, [91] + rest) == Run(depth, Config(AR, cfg.stack + [ARRAY]), rest)
  {
    One(depth, cfg, 91);
    Then(depth, cfg, [91], Config(AR, cfg.stack + [ARRAY]), rest);
  }

  lemma OpenObject(depth: int, cfg: Config, rest: Text)
    requires cfg.Valid(depth) && |cfg.stack| < depth && (AtValue(depth, cfg) || cfg.state == GO)
    ensures Config(OB, cfg.stack + [KEY]).Valid(depth)
    ensures Run(depth, cfg, [123] + rest) == Run(depth, Config(OB, cfg.stack + [KEY]), rest)
  {
    One(depth, cfg, 123);
    Then(depth, cfg, [123], Config(OB, cfg.stack + [KEY]), rest);
  }

  lemma {:induction false} RunValue(depth: int, cfg: Config, v: Value)
    requires cfg.Valid(depth) && IsValue(v) && |cfg.stack| + Nesting(v) <= depth
    requires AtValue(depth, cfg) || (cfg.state == GO && IsComposite(v))
    ensures Run(depth, cfg, ValueText(v)) == Some(cfg.(state := After(v)))
    decreases v
  {
    match v
    case Literal(w) => RunWord(depth, cfg, w);
    case Number(n) => RunNumeral(depth, cfg, n);
    case String(b) => RunString(depth, cfg, b);
    case EmptyArray(g) => RunEmptyArray(depth, cfg, g);
    case Array(es) =>
      OpenArray(depth, cfg, ElementsText(es) + [93]);
      RunElements(depth, Config(AR, cfg.stack + [ARRAY]), es);
      assert [91] + (ElementsText(es) + [93]) == ValueText(v);
    case EmptyObject(g) => RunEmptyObject(depth, cfg, g);
    case Object(ms) =>
      OpenObject(depth, cfg, MembersText(ms) + [125]);
      RunMembers(depth, Config(OB, cfg.stack + [KEY]), ms);
      assert [123] + (MembersText(ms) + [125]) == ValueText(v);
  }

  lemma {:induction false} RunPadded(depth: int, cfg: Config, p: Padded, c: int)
    requires AtValue(depth, cfg) && IsPadded(p) && |cfg.stack| + Nesting(p.value) <= depth
    requires c == 44 || c == 93 || c == 125
    ensures Run(depth, cfg, PaddedText(p) + [c]) == Step(depth, cfg.(state := OK), c)
    decreases p
  {
    RunWs(depth, cfg, p.before);
    RunValue(depth, cfg, p.value);
    Then(depth, cfg, p.before, cfg, ValueText(p.value));
    var end := cfg.(state := After(p.value));
    Then(depth, cfg, p.before + ValueText(p.value), end, p.after);
    RunWsAfter(depth, end, p.after);
    var last := end.(state := if p.after == [] then end.state else OK);
    Then(depth, cfg, PaddedText(p), last, [c]);
    One(depth, last, c);
    EndsAlike(depth, last, c);
  }

  /** After an element comes another, or the end of the array. */
  lemma ElementEnds(depth: int, cfg: Config)
    requires AtValue(depth, cfg) && cfg.Top() == ARRAY
    ensures Step(depth, cfg.(state := OK), 44) == Some(cfg.(state := VA)) && AtValue(depth, cfg.(state := VA))
    ensures Step(depth, cfg.(state := OK), 93) == Some(Config(OK, cfg.Below()))
    ensures cfg.Valid(depth) && cfg.(state := VA).Top() == ARRAY && cfg.(state := VA).Below() == cfg.Below()
  {
  }

  lemma {:induction false} RunElements(depth: int, cfg: Config, es: Elements)
    requires AtValue(depth, cfg) && cfg.Top() == ARRAY && IsElements(es)
    requires |cfg.stack| + ElementsNesting(es) <= depth
    ensures Run(depth, cfg, ElementsText(es) + [93]) == Some(Config(OK, cfg.Below()))
    decreases es
  {
    hide Step, Config.Valid, AtValue, Config.Top, Config.Below;
    ElementEnds(depth, cfg);
    match es
    case OneElement(e) => RunPadded(depth, cfg, e, 93);
    case MoreElements(e, rest) =>
      RunPadded(depth, cfg, e, 44);
      var next := cfg.(state := VA);
      Then(depth, cfg, PaddedText(e) + [44], next, ElementsText(rest) + [93]);
      RunElements(depth, next, rest);
      assert PaddedText(e) + [44] + (ElementsText(rest) + [93]) == ElementsText(es) + [93];
  }

  /** A member up to its value: name and colon flip the mode from KEY to OBJECT. */
  lemma RunName(depth: int, cfg: Config, m: Member)
    requires cfg.Valid(depth) && cfg.state in {OB, KE} && cfg.Top() == KEY && IsMember(m)
    ensures Run(depth, cfg, m.before + StringText(m.name) + m.after + [58]) == Some(Config(VA, cfg.Below() + [OBJECT]))
  {
    var colon := cfg.(state := CO);
    RunWs(depth, cfg, m.before);
    RunString(depth, cfg, m.name);
    Then(depth, cfg, m.before, cfg, StringText(m.name));
    RunWs(depth, colon, m.after);
    Then(depth, cfg, m.before + StringText(m.name), colon, m.after);
    Then(depth, cfg, m.before + StringText(m.name) + m.after, colon, [58]);
    One(depth, colon, 58);
  }

  lemma {:induction false} RunMember(depth: int, cfg: Config, m: Member, c: int)
    requires cfg.Valid(depth) && cfg.state in {OB, KE} && cfg.Top() == KEY && IsMember(m)
    requires |cfg.stack| + Nesting(m.value.value) <= depth && (c == 44 || c == 125)
    ensures Run(depth, cfg, MemberText(m) + [c]) ==
            Some(if c == 44 then cfg.(state := KE) else Config(OK, cfg.Below()))
    decreases m
  {
    var inside := Config(VA, cfg.Below() + [OBJECT]);
    RunName(depth, cfg, m);
    RunPadded(depth, inside, m.value, c);
    Then(depth, cfg, m.before + StringText(m.name) + m.after + [58], inside, PaddedText(m.value) + [c]);
    assert m.before + StringText(m.name) + m.after + [58] + (PaddedText(m.value) + [c]) == MemberText(m) + [c];
    assert inside.Below() == cfg.Below() && cfg.Below() + [KEY] == cfg.stack;
  }

  lemma {:induction false} RunMembers(depth: int, cfg: Config, ms: Members)
    requires cfg.Valid(depth) && cfg.state in {OB, KE} && cfg.Top() == KEY && IsMembers(ms)
    requires |cfg.stack| + MembersNesting(ms) <= depth
    ensures Run(depth, cfg, MembersText(ms) + [125]) == Some(Config(OK, cfg.Below()))
    decreases ms
  {
    match ms
    case OneMember(m) => RunMember(depth, cfg, m, 125);
    case MoreMembers(m, rest) =>
      RunMember(depth, cfg, m, 44);
      var next := cfg.(state := KE);
      Then(depth, cfg, MemberText(m) + [44], next, MembersText(rest) + [125]);
      RunMembers(depth, next, rest);
      assert MemberText(m) + [44] + (MembersText(rest) + [125]) == MembersText(ms) + [125];
  }

  /** Every document nested at most depth-1 deep is accepted. */
  lemma Complete(depth: int, p: Padded)
    requires depth >= 1 && IsDocument(p) && Nesting(p.value) <= depth - 1
    ensures Accepts(depth, START, PaddedText(p))
  {
    RunWs(depth, START, p.before);
    RunValue(depth, START, p.value);
    Then(depth, START, p.before, START, ValueText(p.value));
    var end := START.(state := OK);
    Then(depth, START, p.before + ValueText(p.value), end, p.after);
    RunWs(depth, end, p.after);
  }
}
