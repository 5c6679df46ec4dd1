/** Soundness: from an accepted text a derivation tree is read off, one lemma per grammar symbol.

  Each lemma returns the tree for the front of the text and the rest, and says that the checker, having read
  the tree, still accepts the rest.
 */
module JsonSoundness {
  import opened Wrappers
  import opened JsonTables
  import opened JsonGrammar
  import opened JsonChecker
  import opened JsonCompleteness

  lemma {:induction false} SkipWs(depth: int, cfg: Config, t: Text) returns (w: Text, rest: Text)
    requires cfg.Valid(depth) && SkipsWs(cfg.state) && Accepts(depth, cfg, t)
    ensures t == w + rest && IsWsText(w) && (rest == [] || !IsWs(rest[0]))
    ensures Accepts(depth, cfg, rest)
    decreases |t|
  {
    if t == [] || !IsWs(t[0]) {
      w, rest := [], t;
    } else {
      w, rest := SkipWs(depth, cfg, t[1..]);
      w := [t[0]] + w;
    }
  }

  /** An accepted text in state ST is a string body, the closing quote, and the rest. */
  lemma {:induction false} ParseBody(depth: int, cfg: Config, t: Text) returns (b: Text, rest: Text)
    requires cfg.Valid(depth) && cfg.state == ST && Accepts(depth, cfg, t)
    ensures t == b + [34] + rest && IsBody(b) && cfg.Top() != DONE
    ensures Accepts(depth, cfg.(state := if cfg.Top() == KEY then CO else OK), rest)
    decreases |t|
  {
    if t[0] == 34 {
      b, rest := [], t[1..];
    } else if t[0] != 92 {
      b, rest := ParseBody(depth, cfg, t[1..]);
      b := [t[0]] + b;
    } else {
      b, rest := ParseEscape(depth, cfg, t);
    }
  }

  lemma {:induction false} ParseEscape(depth: int, cfg: Config, t: Text) returns (b: Text, rest: Text)
    requires cfg.Valid(depth) && cfg.state == ST && Accepts(depth, cfg, t) && t != [] && t[0] == 92
    ensures t == b + [34] + rest && IsBody(b) && cfg.Top() != DONE
    ensures Accepts(depth, cfg.(state := if cfg.Top() == KEY then CO else OK), rest)
    decreases |t|, 0
  {
    Moves(depth, cfg, t, 0, ES);
    assert t[0..] == t;
    var escape := cfg.(state := ES);
    assert Accepts(depth, escape, t[1..]);
    Drop(t, 1);
    var tail: Text;
    if t[1] == 117 {
      FourHex(depth, escape, t);
      tail, rest := ParseBody(depth, cfg, t[6..]);
      b := t[..6] + tail;
      assert b[6..] == tail;
    } else {
      tail, rest := ParseBody(depth, cfg, t[2..]);
      b := t[..2] + tail;
      assert b[2..] == tail;
    }
  }

  lemma FourHex(depth: int, cfg: Config, t: Text)
    requires cfg.Valid(depth) && cfg.state == ES && |t| >= 2 && t[1] == 117 && Accepts(depth, cfg, t[1..])
    ensures |t| >= 6 && IsHex(t[2]) && IsHex(t[3]) && IsHex(t[4]) && IsHex(t[5])
    ensures Accepts(depth, cfg.(state := ST), t[6..])
  {
    Moves(depth, cfg, t, 1, U1);
    HexMove(depth, cfg.(state := U1), t, 2, U2);
    HexMove(depth, cfg.(state := U2), t, 3, U3);
    HexMove(depth, cfg.(state := U3), t, 4, U4);
    HexMove(depth, cfg.(state := U4), t, 5, ST);
  }

  lemma HexMove(depth: int, cfg: Config, t: Text, k: nat, s: int)
    requires cfg.Valid(depth) && k <= |t| && Accepts(depth, cfg, t[k..])
    requires (cfg.state, s) in {(U1, U2), (U2, U3), (U3, U4), (U4, ST)}
    ensures k < |t| && IsHex(t[k]) && Accepts(depth, cfg.(state := s), t[k + 1..])
  {
    if k < |t| {
      Drop(t, k);
    }
  }

  lemma {:induction false} ParseDigits(depth: int, cfg: Config, t: Text) returns (g: Text, rest: Text)
    requires cfg.Valid(depth) && cfg.state in {IN, FR, E3} && Accepts(depth, cfg, t)
    ensures t == g + rest && IsDigits(g) && rest != [] && !IsDigit(rest[0])
    ensures Accepts(depth, cfg, rest)
    decreases |t|
  {
    if !IsDigit(t[0]) {
      g, rest := [], t;
    } else {
      g, rest := ParseDigits(depth, cfg, t[1..]);
      g := [t[0]] + g;
    }
  }

  lemma ParseSign(depth: int, cfg: Config, t: Text) returns (sign: Text, rest: Text)
    requires cfg.Valid(depth) && cfg.state == E1 && Accepts(depth, cfg, t)
    ensures t == sign + rest && sign in {[], [43], [45]}
    ensures rest != [] && IsDigit(rest[0]) && Accepts(depth, cfg.(state := E3), rest[1..])
  {
    if t[0] == 43 || t[0] == 45 {
      sign, rest := [t[0]], t[1..];
      assert Accepts(depth, cfg.(state := E2), rest);
    } else {
      sign, rest := [], t;
    }
  }

  lemma ParseExponent(depth: int, cfg: Config, t: Text) returns (e: Exponent, rest: Text)
    requires cfg.Valid(depth) && cfg.state in {IN, FR} && Accepts(depth, cfg, t)
    requires t != [] && (t[0] == 101 || t[0] == 69)
    ensures t == ExponentText(e) + rest && IsExponent(e)
    ensures Accepts(depth, cfg.(state := E3), rest) && rest != [] && !IsDigit(rest[0])
  {
    var sign, digits := ParseSign(depth, cfg.(state := E1), t[1..]);
    var g;
    g, rest := ParseDigits(depth, cfg.(state := E3), digits[1..]);
    e := Exponent(t[0], sign, [digits[0]] + g);
  }

  /** The integer part, without its sign. */
  lemma ParseWhole(depth: int, cfg: Config, t: Text) returns (whole: Text, rest: Text)
    requires cfg.Valid(depth) && cfg.state in {VA, AR, MI} && Accepts(depth, cfg, t)
    requires t != [] && IsDigit(t[0])
    ensures t == whole + rest && IsWhole(whole)
    ensures Accepts(depth, cfg.(state := if whole == [48] then ZE else IN), rest)
    ensures rest != [] && (whole != [48] ==> !IsDigit(rest[0]))
  {
    if t[0] == 48 {
      whole, rest := [48], t[1..];
    } else {
      whole, rest := ParseDigits(depth, cfg.(state := IN), t[1..]);
      whole := [t[0]] + whole;
    }
  }

  /** A number in state ZE, IN or FR that takes no more digits: an exponent or nothing. */
  lemma ParseMark(depth: int, cfg: Config, t: Text) returns (exponent: Option<Exponent>, rest: Text)
    requires cfg.Valid(depth) && cfg.state in {ZE, IN, FR} && |cfg.stack| >= 2 && Accepts(depth, cfg, t)
    requires t != [] && t[0] != 46 && (cfg.state != ZE ==> !IsDigit(t[0]))
    ensures t == (if exponent.Some? then ExponentText(exponent.value) else []) + rest
    ensures exponent.Some? ==> cfg.state != ZE && IsExponent(exponent.value)
    ensures Accepts(depth, cfg.(state := if exponent.Some? then E3 else cfg.state), rest)
    ensures rest != [] && AfterValue(rest[0]) != ERR
  {
    if (t[0] == 101 || t[0] == 69) && cfg.state != ZE {
      var e;
      e, rest := ParseExponent(depth, cfg, t);
      exponent := Some(e);
    } else {
      exponent, rest := None, t;
    }
  }

  lemma ParseFraction(depth: int, cfg: Config, t: Text) returns (fraction: Option<Text>, rest: Text)
    requires cfg.Valid(depth) && cfg.state in {ZE, IN} && |cfg.stack| >= 2 && Accepts(depth, cfg, t)
    requires t != [] && (cfg.state == IN ==> !IsDigit(t[0]))
    ensures t == (if fraction.Some? then [46] + fraction.value else []) + rest
    ensures fraction.Some? ==> IsDigits(fraction.value)
    ensures Accepts(depth, cfg.(state := if fraction.Some? then FR else cfg.state), rest)
    ensures rest != [] && (fraction.Some? || cfg.state == IN ==> !IsDigit(rest[0]))
    ensures rest[0] != 46
  {
    if t[0] == 46 {
      var g;
      g, rest := ParseDigits(depth, cfg.(state := FR), t[1..]);
      fraction := Some(g);
    } else {
      fraction, rest := None, t;
    }
  }

  lemma ParseNumeral(depth: int, cfg: Config, t: Text) returns (n: Numeral, rest: Text)
    requires AtValue(depth, cfg) && |cfg.stack| >= 2 && Accepts(depth, cfg, t)
    requires t != [] && (t[0] == 45 || IsDigit(t[0]))
    ensures t == NumeralText(n) + rest && IsNumeral(n)
    ensures Accepts(depth, cfg.(state := NumeralEnd(n)), rest)
    ensures rest != [] && AfterValue(rest[0]) != ERR
  {
    var minus := t[0] == 45;
    var t1 := if minus then t[1..] else t;
    var c1 := if minus then cfg.(state := MI) else cfg;
    assert Accepts(depth, c1, t1);
    assert t1 != [] && IsDigit(t1[0]);
    var whole, t2 := ParseWhole(depth, c1, t1);
    var c2 := cfg.(state := if whole == [48] then ZE else IN);
    var fraction, t3 := ParseFraction(depth, c2, t2);
    var c3 := if fraction.Some? then cfg.(state := FR) else c2;
    var exponent;
    exponent, rest := ParseMark(depth, c3, t3);
    n := Numeral(minus, whole, fraction, exponent);
    Reassociate(if minus then [45] else [], whole, if fraction.Some? then [46] + fraction.value else [],
                if exponent.Some? then ExponentText(exponent.value) else [], rest);
  }

  lemma Reassociate(a: Text, b: Text, c: Text, d: Text, rest: Text)
    ensures a + (b + (c + (d + rest))) == a + b + c + d + rest
  {
  }

  lemma {:induction false} ParseTail(depth: int, cfg: Config, t: Text) returns (rest: Text)
    requires cfg.Valid(depth) && T1 <= cfg.state <= N3 && Accepts(depth, cfg, t)
    ensures t == WordTail(cfg.state) + rest && Accepts(depth, cfg.(state := OK), rest)
    decreases |t|
  {
    var s := cfg.state;
    assert t[0] == WordLetter(s);
    if s == T3 || s == F4 || s == N3 {
      rest := t[1..];
    } else {
      rest := ParseTail(depth, cfg.(state := s + 1), t[1..]);
    }
  }

  lemma WordHead(depth: int, cfg: Config, t: Text, w: Word)
    requires AtValue(depth, cfg) && Accepts(depth, cfg, t) && t != [] && Delta(VA, t[0]) == WordStart(w)
    ensures Accepts(depth, cfg.(state := WordStart(w)), t[1..])
  {
  }

  lemma ParseWord(depth: int, cfg: Config, t: Text, w: Word) returns (rest: Text)
    requires AtValue(depth, cfg) && Accepts(depth, cfg, t) && t != [] && Delta(VA, t[0]) == WordStart(w)
    ensures t == WordText(w) + rest && Accepts(depth, cfg.(state := OK), rest)
  {
    WordHead(depth, cfg, t, w);
    rest := ParseTail(depth, cfg.(state := WordStart(w)), t[1..]);
    WordJoins(t, w, rest);
  }

  lemma WordJoins(t: Text, w: Word, rest: Text)
    requires t != [] && Delta(VA, t[0]) == WordStart(w) && t[1..] == WordTail(WordStart(w)) + rest
    ensures t == WordText(w) + rest
  {
    WordSplits(w);
    assert t == [t[0]] + t[1..];
  }

  /** After a value inside a bracket: white space, then a comma or a closing bracket. */
  lemma ParseAfter(depth: int, cfg: Config, t: Text) returns (w: Text, rest: Text)
    requires cfg.Valid(depth) && Ends(cfg.state) && |cfg.stack| >= 2 && Accepts(depth, cfg, t)
    requires cfg.state == OK || (t != [] && AfterValue(t[0]) != ERR)
    ensures t == w + rest && IsWsText(w) && rest != [] && rest[0] in {44, 93, 125}
    ensures Accepts(depth, cfg.(state := OK), rest)
  {
    var ok := cfg.(state := OK);
    if IsWs(t[0]) {
      w, rest := SkipWs(depth, ok, t[1..]);
      w := [t[0]] + w;
    } else {
      EndsAlike(depth, cfg, t[0]);
      w, rest := [], t;
    }
  }

  // ----- the recursive symbols

  lemma {:induction false} ParseValue(depth: int, cfg: Config, t: Text) returns (v: Value, rest: Text)
    requires AtValue(depth, cfg) && Accepts(depth, cfg, t)
    requires t != [] && !IsWs(t[0]) && (cfg.state == AR ==> t[0] != 93)
    ensures IsValue(v) && t == ValueText(v) + rest && |cfg.stack| + Nesting(v) <= depth
    ensures Accepts(depth, cfg.(state := After(v)), rest)
    ensures v.Number? ==> rest != [] && AfterValue(rest[0]) != ERR
    ensures |rest| < |t|
    decreases |t|, 1
  {
    if t[0] == 91 || t[0] == 123 {
      v, rest := ParseComposite(depth, cfg, t);
    } else if t[0] == 34 {
      var b;
      b, rest := ParseString(depth, cfg, t);
      v := String(b);
    } else if t[0] == 45 || IsDigit(t[0]) {
      var n;
      n, rest := ParseNumeral(depth, cfg, t);
      v := Number(n);
    } else {
      var w := if t[0] == 116 then True else if t[0] == 102 then False else Null;
      rest := ParseWord(depth, cfg, t, w);
      v := Literal(w);
    }
  }

  lemma ParseString(depth: int, cfg: Config, t: Text) returns (b: Text, rest: Text)
    requires cfg.Valid(depth) && cfg.state in {VA, AR, OB, KE} && Accepts(depth, cfg, t) && t != [] && t[0] == 34
    ensures t == StringText(b) + rest && IsBody(b) && cfg.Top() != DONE
    ensures Accepts(depth, cfg.(state := if cfg.Top() == KEY then CO else OK), rest)
  {
    b, rest := ParseBody(depth, cfg.(state := ST), t[1..]);
    assert t == [t[0]] + (b + [34] + rest);
  }

  lemma {:induction false} ParseComposite(depth: int, cfg: Config, t: Text) returns (v: Value, rest: Text)
    requires AtValue(depth, cfg) || (cfg.Valid(depth) && cfg.state == GO)
    requires Accepts(depth, cfg, t) && t != [] && (t[0] == 91 || t[0] == 123)
    ensures IsValue(v) && IsComposite(v) && t == ValueText(v) + rest && |cfg.stack| + Nesting(v) <= depth
    ensures Accepts(depth, cfg.(state := OK), rest) && |rest| < |t|
    decreases |t|, 0
  {
    if t[0] == 91 {
      var inside := Config(AR, cfg.stack + [ARRAY]);
      v, rest := ParseArray(depth, inside, t[1..]);
      assert inside.Below() == cfg.stack;
      assert t == [t[0]] + t[1..];
    } else {
      var inside := Config(OB, cfg.stack + [KEY]);
      v, rest := ParseObject(depth, inside, t[1..]);
      assert inside.Below() == cfg.stack;
      assert t == [t[0]] + t[1..];
    }
  }

  lemma {:induction false} ParseArray(depth: int, cfg: Config, t: Text) returns (v: Value, rest: Text)
    requires AtValue(depth, cfg) && cfg.state == AR && cfg.Top() == ARRAY && Accepts(depth, cfg, t)
    ensures IsValue(v) && IsComposite(v) && [91] + t == ValueText(v) + rest && |cfg.stack| - 1 + Nesting(v) <= depth
    ensures Accepts(depth, Config(OK, cfg.Below()), rest) && |rest| < |t|
    decreases |t|, 4
  {
    var w, t1 := SkipWs(depth, cfg, t);
    if t1[0] == 93 {
      v, rest := EmptyArray(w), t1[1..];
    } else {
      var es;
      es, rest := ParseElements(depth, cfg, w, t1);
      v := Array(es);
    }
  }

  /** What the checker does after an element: it goes on after a comma, and leaves the array at a bracket. */
  lemma AfterElement(depth: int, cfg: Config, t: Text)
    requires cfg.Valid(depth) && cfg.Top() == ARRAY && Accepts(depth, cfg.(state := OK), t) && t != []
    ensures t[0] == 44 ==> Accepts(depth, cfg.(state := VA), t[1..])
    ensures t[0] == 93 ==> Config(OK, cfg.Below()).Valid(depth) && Accepts(depth, Config(OK, cfg.Below()), t[1..])
  {
    assert cfg.(state := OK).Below() == cfg.Below();
  }

  lemma NotAtEnd(depth: int, cfg: Config)
    requires cfg.Valid(depth) && cfg.state != OK
    ensures !Accepts(depth, cfg, [])
  {
  }

  lemma {:induction false} ParseElements(depth: int, cfg: Config, w: Text, t: Text) returns (es: Elements, rest: Text)
    requires AtValue(depth, cfg) && cfg.Top() == ARRAY && Accepts(depth, cfg, t) && IsWsText(w)
    requires t != [] && !IsWs(t[0]) && (cfg.state == AR ==> t[0] != 93)
    ensures IsElements(es) && w + t == ElementsText(es) + [93] + rest && |cfg.stack| + ElementsNesting(es) <= depth
    ensures Accepts(depth, Config(OK, cfg.Below()), rest) && |rest| < |t|
    decreases |t|, 3
  {
    hide Accepts, IsPadded, PaddedText, IsWsText, IsWs;
    var p, t1 := ParsePadded(depth, cfg, w, t);
    AfterElement(depth, cfg, t1);
    if t1[0] == 93 {
      es, rest := OneElement(p), t1[1..];
      assert t1 == [93] + rest;
    } else {
      var next := cfg.(state := VA);
      var w1, t2 := SkipWs(depth, next, t1[1..]);
      NotAtEnd(depth, next);
      var es1;
      es1, rest := ParseElements(depth, next, w1, t2);
      es := MoreElements(p, es1);
      assert next.Below() == cfg.Below();
      ElementsJoin(w + t, p, t1, es1, rest);
    }
  }

  lemma ElementsJoin(t: Text, p: Padded, t1: Text, es: Elements, rest: Text)
    requires t == PaddedText(p) + t1 && t1 != [] && t1[0] == 44 && t1[1..] == ElementsText(es) + [93] + rest
    ensures t == ElementsText(MoreElements(p, es)) + [93] + rest
  {
    hide PaddedText;
    assert t1 == [44] + t1[1..];
  }

  /** A value with its white space, up to the comma or bracket that ends it. */
  lemma {:induction false} ParsePadded(depth: int, cfg: Config, w: Text, t: Text) returns (p: Padded, rest: Text)
    requires AtValue(depth, cfg) && Accepts(depth, cfg, t) && IsWsText(w)
    requires t != [] && !IsWs(t[0]) && (cfg.state == AR ==> t[0] != 93)
    ensures IsPadded(p) && w + t == PaddedText(p) + rest && |cfg.stack| + Nesting(p.value) <= depth
    ensures rest != []
    ensures (rest[0] == 44 || (rest[0] == 93 && cfg.Top() == ARRAY) || (rest[0] == 125 && cfg.Top() == OBJECT))
    ensures Accepts(depth, cfg.(state := OK), rest) && |rest| < |t|
    decreases |t|, 2
  {
    var v, t1 := ParseValue(depth, cfg, t);
    var w1;
    w1, rest := ParseAfter(depth, cfg.(state := After(v)), t1);
    p := Padded(w, v, w1);
  }

  lemma {:induction false} ParseObject(depth: int, cfg: Config, t: Text) returns (v: Value, rest: Text)
    requires cfg.Valid(depth) && cfg.state == OB && cfg.Top() == KEY && Accepts(depth, cfg, t)
    ensures IsValue(v) && IsComposite(v) && [123] + t == ValueText(v) + rest && |cfg.stack| - 1 + Nesting(v) <= depth
    ensures Accepts(depth, Config(OK, cfg.Below()), rest) && |rest| < |t|
    decreases |t|, 5
  {
    var w, t1 := SkipWs(depth, cfg, t);
    if t1[0] == 125 {
      v, rest := EmptyObject(w), t1[1..];
    } else {
      var ms;
      ms, rest := ParseMembers(depth, cfg, w, t1);
      v := Object(ms);
    }
  }

  /** What the checker does after a member: it expects a key after a comma, and leaves the object at a brace. */
  lemma AfterMember(depth: int, below: seq<Mode>, t: Text)
    requires Config(OK, below + [OBJECT]).Valid(depth) && Accepts(depth, Config(OK, below + [OBJECT]), t) && t != []
    requires below != []
    ensures Config(KE, below + [KEY]).Valid(depth)
    ensures t[0] == 44 ==> Accepts(depth, Config(KE, below + [KEY]), t[1..])
    ensures t[0] == 125 ==> Config(OK, below).Valid(depth) && Accepts(depth, Config(OK, below), t[1..])
  {
    assert Config(OK, below + [OBJECT]).Below() == below;
  }

  lemma AtKey(depth: int, cfg: Config, t: Text)
    requires cfg.Valid(depth) && cfg.state == KE && Accepts(depth, cfg, t) && (t == [] || !IsWs(t[0]))
    ensures t != [] && t[0] == 34
  {
  }

  lemma {:induction false} ParseMembers(depth: int, cfg: Config, w: Text, t: Text) returns (ms: Members, rest: Text)
    requires cfg.Valid(depth) && cfg.state in {OB, KE} && cfg.Top() == KEY && Accepts(depth, cfg, t) && IsWsText(w)
    requires t != [] && t[0] == 34
    ensures IsMembers(ms) && w + t == MembersText(ms) + [125] + rest && |cfg.stack| + MembersNesting(ms) <= depth
    ensures Accepts(depth, Config(OK, cfg.Below()), rest) && |rest| < |t|
    decreases |t|, 4
  {
    hide Accepts, IsMember, MemberText, IsWsText, IsWs;
    var m, t1 := ParseMember(depth, cfg, w, t);
    AfterMember(depth, cfg.Below(), t1);
    if t1[0] == 125 {
      ms, rest := OneMember(m), t1[1..];
      assert t1 == [125] + rest;
    } else {
      var next := Config(KE, cfg.Below() + [KEY]);
      var w1, t2 := SkipWs(depth, next, t1[1..]);
      AtKey(depth, next, t2);
      assert next.Below() == cfg.Below();
      var ms1;
      ms1, rest := ParseMembers(depth, next, w1, t2);
      ms := MoreMembers(m, ms1);
      MembersJoin(w + t, m, t1, ms1, rest);
    }
  }

  lemma MembersJoin(t: Text, m: Member, t1: Text, ms: Members, rest: Text)
    requires t == MemberText(m) + t1 && t1 != [] && t1[0] == 44 && t1[1..] == MembersText(ms) + [125] + rest
    ensures t == MembersText(MoreMembers(m, ms)) + [125] + rest
  {
    hide MemberText;
    assert t1 == [44] + t1[1..];
  }

  lemma {:induction false} ParseMember(depth: int, cfg: Config, w: Text, t: Text) returns (m: Member, rest: Text)
    requires cfg.Valid(depth) && cfg.state in {OB, KE} && cfg.Top() == KEY && Accepts(depth, cfg, t) && IsWsText(w)
    requires t != [] && t[0] == 34
    ensures IsMember(m) && w + t == MemberText(m) + rest && |cfg.stack| + Nesting(m.value.value) <= depth
    ensures rest != [] && (rest[0] == 44 || rest[0] == 125)
    ensures Accepts(depth, Config(OK, cfg.Below() + [OBJECT]), rest) && |rest| < |t|
    decreases |t|, 3
  {
    hide MemberText, PaddedText, StringText;
    var name, t1 := ParseString(depth, cfg, t);
    var w1, t2 := SkipWs(depth, cfg.(state := CO), t1);
    var inside := Config(VA, cfg.Below() + [OBJECT]);
    var w2, t3 := SkipWs(depth, inside, t2[1..]);
    var p;
    p, rest := ParsePadded(depth, inside, w2, t3);
    m := Member(w, name, w1, p);
    MemberJoins(m, t1, t2, w2 + t3, rest);
  }

  /** The pieces of a member, put together. */
  lemma MemberJoins(m: Member, t1: Text, t2: Text, t3: Text, rest: Text)
    requires t1 == m.after + t2 && t2 != [] && t2[0] == 58 && t2[1..] == t3 && t3 == PaddedText(m.value) + rest
    ensures m.before + (StringText(m.name) + t1) == MemberText(m) + rest
  {
    hide PaddedText, StringText;
    assert t2 == [58] + t3;
  }

  /** An accepted text is the text of a document nested at most depth-1 deep. */
  lemma Sound(depth: int, t: Text) returns (p: Padded)
    requires depth >= 1 && Accepts(depth, START, t)
    ensures IsDocument(p) && PaddedText(p) == t && Nesting(p.value) <= depth - 1
  {
    var w, t1 := SkipWs(depth, START, t);
    var v, t2 := ParseComposite(depth, START, t1);
    var w1, t3 := SkipWs(depth, START.(state := OK), t2);
    p := Padded(w, v, w1);
  }
}
