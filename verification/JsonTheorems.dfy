/** What the checker decides, and when it decides it. */
module JsonTheorems {
  import opened JsonTables
  import opened JsonGrammar
  import opened JsonChecker
  import opened JsonCompleteness
  import opened JsonSoundness

  /** The checker accepts a text exactly when the text is in the grammar, nested at most depth-1 deep. */
  lemma Recognises(depth: int, t: Text)
    requires depth >= 1
    ensures Accepts(depth, START, t) <==> InGrammar(t, depth - 1)
  {
    if Accepts(depth, START, t) {
      var p := Sound(depth, t);
    }
    if InGrammar(t, depth - 1) {
      var p :| IsDocument(p) && PaddedText(p) == t && Nesting(p.value) <= depth - 1;
      Complete(depth, p);
    }
  }

  /** Feed every character to a fresh checker, stop at the first refusal, and ask for the verdict at the end. */
  method CheckText(depth: int, text: Text) returns (accepted: bool)
    requires depth >= 1
    ensures accepted <==> InGrammar(text, depth - 1)
  {
    var checker := new Checker(depth);
    Recognises(depth, text);
    for i := 0 to |text|
      invariant checker.Valid() && checker.depth == depth && fresh(checker) && fresh(checker.stack)
      invariant Run(depth, START, text) == Run(depth, checker.Configuration(), text[i..])
    {
      assert text[i..] != [] && text[i..][0] == text[i] && text[i..][1..] == text[i + 1..];
      var ok := checker.Char(text[i]);
      if !ok {
        return false;
      }
    }
    assert text[|text|..] == [];
    accepted := checker.Done();
  }

  // ----- the stack

  /** The stack reads DONE, then ARRAY and OBJECT entries, with KEY at most on top, and its top fits the state. */
  predicate Shape(cfg: Config) {
    && |cfg.stack| >= 1 && cfg.stack[0] == DONE
    && (forall i :: 1 <= i < |cfg.stack| - 1 ==> cfg.stack[i] in {ARRAY, OBJECT})
    && TopFits(cfg.state, cfg.Top(), |cfg.stack|)
  }

  predicate TopFits(s: int, top: Mode, size: nat) {
    && 0 <= s < NR_STATES
    && (top == DONE <==> size == 1)
    && (s == GO ==> top == DONE)
    && (s == OK ==> top != KEY)
    && (s in {OB, KE, CO} ==> top == KEY)
    && (s == AR ==> top == ARRAY)
    && (ST <= s <= U4 ==> top != DONE)
    && (s == VA || s >= MI ==> top in {ARRAY, OBJECT})
  }

  lemma ShapeStep(depth: int, cfg: Config, c: int)
    requires cfg.Valid(depth) && Shape(cfg) && Step(depth, cfg, c).Some?
    ensures Shape(Step(depth, cfg, c).value)
  {
    var next := Step(depth, cfg, c).value;
    var entry := Delta(cfg.state, c);
    EntryKeepsFit(cfg.state, c, cfg.Top(), |cfg.stack|);
    if entry < 0 && entry != -4 && |cfg.stack| >= 2 {
      assert cfg.Below()[|cfg.stack| - 2] == cfg.stack[|cfg.stack| - 2];
    }
  }

  /** A table entry that is a state fits the same top of stack; actions occur where their mode is on top. */
  lemma EntryKeepsFit(s: int, c: int, top: Mode, size: nat)
    requires TopFits(s, top, size) && !IsIllegal(c)
    ensures Delta(s, c) >= 0 ==> TopFits(Delta(s, c), top, size)
    ensures Delta(s, c) == -9 || Delta(s, c) == -2 ==> top == KEY
    ensures Delta(s, c) == -4 ==> top != DONE
    ensures Delta(s, c) in {-3, -7, -8} ==> top != KEY
    ensures Delta(s, c) in {-5, -6} ==> top != KEY
  {
  }

  lemma {:induction false} ShapeRun(depth: int, cfg: Config, t: Text)
    requires cfg.Valid(depth) && Shape(cfg) && Run(depth, cfg, t).Some?
    ensures Shape(Run(depth, cfg, t).value)
    decreases |t|
  {
    if t != [] {
      ShapeStep(depth, cfg, t[0]);
      ShapeRun(depth, Step(depth, cfg, t[0]).value, t[1..]);
    }
  }

  /** In every configuration the checker can reach, the stack has its shape; and so neither the pop of the
      empty-object action, nor the pop of the colon action, nor the mode test of the quote action can fail. */
  lemma StackAlways(depth: int, t: Text, c: int)
    requires depth >= 1 && Run(depth, START, t).Some? && !IsIllegal(c)
    ensures var cfg := Run(depth, START, t).value;
            && Shape(cfg)
            && (Delta(cfg.state, c) in {-9, -4, -2} ==> Step(depth, cfg, c).Some?)
  {
    ShapeRun(depth, START, t);
    var cfg := Run(depth, START, t).value;
    EntryKeepsFit(cfg.state, c, cfg.Top(), |cfg.stack|);
  }

  // ----- the earliest refusal

  /** How far a configuration is from the end of some accepted text. */
  function Rank(cfg: Config): nat
    requires Shape(cfg)
  {
    var s := cfg.state;
    20 * |cfg.stack| +
    if s == GO then 60
    else if s == VA then 2
    else if s == CO then 3
    else if s == KE then 5
    else if ST <= s <= U4 then
      (if cfg.Top() == KEY then 4 else 1) + (if s == ST then 0 else if s == ES then 1 else 1 + U4 - s)
    else if s == MI || s == E2 || s == E1 then 1
    else if s >= T1 then N3 + 1 - s
    else 0
  }

  /** A character that brings an accepted text closer. */
  function Towards(cfg: Config): int
    requires Shape(cfg)
  {
    var s := cfg.state;
    if s == GO then 91
    else if s in {KE, VA, ST} then 34
    else if s == CO then 58
    else if s == ES then 110
    else if U1 <= s <= U4 || s in {MI, E1, E2} then 48
    else if s >= T1 then WordLetter(s)
    else if cfg.Top() == ARRAY then 93 else 125
  }

  lemma Progress(depth: int, cfg: Config)
    requires depth >= 2 && cfg.Valid(depth) && Shape(cfg) && cfg != Config(OK, [DONE])
    ensures var next := Step(depth, cfg, Towards(cfg));
            next.Some? && Shape(next.value) && Rank(next.value) < Rank(cfg)
  {
    assert |cfg.stack| == 1 ==> cfg.stack == [DONE];
    assert Step(depth, cfg, Towards(cfg)).Some?;
    ShapeStep(depth, cfg, Towards(cfg));
  }

  lemma {:induction false} Finish(depth: int, cfg: Config) returns (t: Text)
    requires depth >= 2 && cfg.Valid(depth) && Shape(cfg)
    ensures Accepts(depth, cfg, t)
    decreases Rank(cfg)
  {
    if cfg == Config(OK, [DONE]) {
      t := [];
    } else {
      Progress(depth, cfg);
      var c := Towards(cfg);
      t := Finish(depth, Step(depth, cfg, c).value);
      t := [c] + t;
    }
  }

  ghost predicate Extendable(t: Text, nesting: int) {
    exists more: Text :: InGrammar(t + more, nesting)
  }

  lemma ExtendableLives(depth: int, t: Text)
    requires depth >= 1 && Extendable(t, depth - 1)
    ensures Run(depth, START, t).Some?
  {
    var more: Text :| InGrammar(t + more, depth - 1);
    Recognises(depth, t + more);
    RunAppend(depth, START, t, more);
  }

  /** With depth at least 2 a text is refused at its first hopeless character: what has been read so far is
      let through exactly when some continuation of it is accepted. */
  lemma EarliestRefusal(depth: int, t: Text)
    requires depth >= 2
    ensures Run(depth, START, t).Some? <==> Extendable(t, depth - 1)
  {
    if Run(depth, START, t).Some? {
      ShapeRun(depth, START, t);
      var more := Finish(depth, Run(depth, START, t).value);
      RunAppend(depth, START, t, more);
      Recognises(depth, t + more);
    }
    if Extendable(t, depth - 1) {
      ExtendableLives(depth, t);
    }
  }

  /** With depth 1 nothing is accepted at all, yet white space is let through: the bound in `EarliestRefusal`
      is exact. */
  lemma EarliestRefusalExactly(depth: int)
    requires depth >= 1
    ensures (forall t: Text :: Run(depth, START, t).Some? <==> Extendable(t, depth - 1)) <==> depth >= 2
  {
    if depth >= 2 {
      forall t: Text ensures Run(depth, START, t).Some? <==> Extendable(t, depth - 1) {
        EarliestRefusal(depth, t);
      }
    } else {
      assert Run(depth, START, []).Some?;
      assert !Extendable([], 0);
    }
  }
}
