/** The checker object of json/JSON_checker.c: a state, and a bounded stack of modes in an array.

  `Step` is what one character does to a configuration, on values; the method `Char`, driven by the program's
  lookup tables, is proved to do exactly that to the object's fields.
 */
module JsonChecker {
  import opened Wrappers
  import opened JsonTables

  datatype Mode = ARRAY | DONE | KEY | OBJECT

  /** The state and the stack, bottom first. */
  datatype Config = Config(state: int, stack: seq<Mode>) {
    predicate Valid(depth: int) {
      && 0 <= state < NR_STATES
      && 1 <= |stack| <= depth
      && stack[0] == DONE
      && forall i :: 1 <= i < |stack| ==> stack[i] != DONE
    }

    function Top(): Mode
      requires |stack| > 0
    {
      stack[|stack| - 1]
    }

    function Below(): seq<Mode>
      requires |stack| > 0
    {
      stack[..|stack| - 1]
    }
  }

  const START := Config(GO, [DONE])

  /** A mode on top may be replaced by another, but DONE is the bottom. */
  lemma FlipValid(depth: int, cfg: Config, from: Mode, to: Mode, next: int)
    requires cfg.Valid(depth) && to != DONE && from != DONE && 0 <= next < NR_STATES
    ensures cfg.Top() == from ==> Config(next, cfg.Below() + [to]).Valid(depth)
  {
  }

  function Step(depth: int, cfg: Config, c: int): (r: Option<Config>)
    requires cfg.Valid(depth)
    ensures r.Some? ==> r.value.Valid(depth)
  {
    if IsIllegal(c) then None else Act(depth, cfg, Delta(cfg.state, c))
  }

  /** A table entry applied to a configuration: a new state, or one of the numbered actions. */
  function Act(depth: int, cfg: Config, entry: int): (r: Option<Config>)
    requires cfg.Valid(depth) && entry < NR_STATES
    ensures r.Some? ==> r.value.Valid(depth)
  {
    if entry >= 0 then Some(cfg.(state := entry))
    else if entry == -9 then (if cfg.Top() == KEY then Some(Config(OK, cfg.Below())) else None)
    else if entry == -8 then (if cfg.Top() == OBJECT then Some(Config(OK, cfg.Below())) else None)
    else if entry == -7 then (if cfg.Top() == ARRAY then Some(Config(OK, cfg.Below())) else None)
    else if entry == -6 then (if |cfg.stack| < depth then Some(Config(OB, cfg.stack + [KEY])) else None)
    else if entry == -5 then (if |cfg.stack| < depth then Some(Config(AR, cfg.stack + [ARRAY])) else None)
    else if entry == -4 then
      (match cfg.Top()
       case KEY => Some(cfg.(state := CO))
       case ARRAY => Some(cfg.(state := OK))
       case OBJECT => Some(cfg.(state := OK))
       case DONE => None)
    else if entry == -3 then
      (match cfg.Top()
       case OBJECT => Some(Config(KE, cfg.Below() + [KEY]))
       case ARRAY => Some(cfg.(state := VA))
       case _ => None)
    else if entry == -2 then (if cfg.Top() == KEY then Some(Config(VA, cfg.Below() + [OBJECT])) else None)
    else None
  }

  /** The configuration after a whole text, or None once a character has been refused. */
  function Run(depth: int, cfg: Config, text: seq<int>): (r: Option<Config>)
    requires cfg.Valid(depth)
    ensures r.Some? ==> r.value.Valid(depth)
    decreases |text|
  {
    if text == [] then Some(cfg)
    else
      var next := Step(depth, cfg, text[0]);
      if next.None? then None else Run(depth, next.value, text[1..])
  }

  predicate Accepts(depth: int, cfg: Config, text: seq<int>)
    requires cfg.Valid(depth)
  {
    Run(depth, cfg, text) == Some(Config(OK, [DONE]))
  }

  lemma {:induction false} RunAppend(depth: int, cfg: Config, a: seq<int>, b: seq<int>)
    requires cfg.Valid(depth)
    ensures Run(depth, cfg, a + b) ==
            if Run(depth, cfg, a).None? then None else Run(depth, Run(depth, cfg, a).value, b)
    decreases |a|
  {
    if a == [] {
      assert a + b == b;
    } else {
      assert (a + b)[0] == a[0] && (a + b)[1..] == a[1..] + b;
      var next := Step(depth, cfg, a[0]);
      if next.Some? {
        RunAppend(depth, next.value, a[1..], b);
      }
    }
  }

  class Checker {
    var state: int
    var depth: int
    var top: int
    var stack: array<Mode>
    var live: bool  // false once the object has been deleted

    ghost predicate Valid()
      reads this, stack
    {
      live && depth == stack.Length && 0 <= top < depth && Configuration().Valid(depth)
    }

    ghost function Configuration(): Config
      reads this, stack
      requires 0 <= top < stack.Length
    {
      Config(state, stack[..top + 1])
    }

    constructor (depth: int)
      requires depth >= 1
      ensures Valid() && fresh(stack) && this.depth == depth && Configuration() == START
    {
      this.state := GO;
      this.depth := depth;
      this.top := -1;
      this.stack := new Mode[depth](_ => ARRAY);
      this.live := true;
      new;
      var _ := Push(DONE);
    }

    method Reject() returns (r: bool)
      modifies this`live
      ensures !live && !r
    {
      live := false;
      r := false;
    }

    method Push(mode: Mode) returns (ok: bool)
      requires depth == stack.Length && -1 <= top < depth
      modifies this`top, stack
      ensures top == old(top) + 1 && ok == (top < depth)
      ensures ok ==> stack[..top + 1] == old(stack[..top + 1]) + [mode]
    {
      top := top + 1;
      if top >= depth {
        return false;
      }
      stack[top] := mode;
      return true;
    }

    method Pop(mode: Mode) returns (ok: bool)
      requires depth == stack.Length && -1 <= top < depth
      modifies this`top
      ensures ok == (old(top) >= 0 && stack[old(top)] == mode)
      ensures top == if ok then old(top) - 1 else old(top)
    {
      if top < 0 || stack[top] != mode {
        return false;
      }
      top := top - 1;
      return true;
    }

    /** One character: the object moves as `Step` says, or is deleted and false returned. */
    method Char(nextChar: int) returns (ok: bool)
      requires Valid()
      modifies this, stack
      ensures stack == old(stack) && depth == old(depth)
      ensures ok == Step(depth, old(Configuration()), nextChar).Some?
      ensures ok ==> Valid() && Configuration() == Step(depth, old(Configuration()), nextChar).value
      ensures !ok ==> !live
    {
      if nextChar < 0 {
        ok := Reject();
        return;
      }
      ErrorClass(nextChar);
      var nextClass;
      if nextChar >= 128 {
        nextClass := C_ETC;
      } else {
        nextClass := CharacterClass(nextChar);
        if nextClass <= ERR {
          ok := Reject();
          return;
        }
      }
      var nextState := TableEntry(state, nextClass, nextChar);
      ok := Perform(nextState);
    }

    /** The second half of the program's character function: change the state, or perform an action. */
    method Perform(nextState: int) returns (ok: bool)
      requires Valid() && nextState < NR_STATES
      modifies this, stack
      ensures stack == old(stack) && depth == old(depth)
      ensures ok == Act(depth, old(Configuration()), nextState).Some?
      ensures ok ==> Valid() && Configuration() == Act(depth, old(Configuration()), nextState).value
      ensures !ok ==> !live
    {
      ok := true;
      if nextState >= 0 {
        state := nextState;
      } else if nextState == -9 {  // empty }
        ok := Leave(KEY);
      } else if nextState == -8 {  // }
        ok := Leave(OBJECT);
      } else if nextState == -7 {  // ]
        ok := Leave(ARRAY);
      } else if nextState == -6 {  // {
        ok := Enter(KEY, OB);
      } else if nextState == -5 {  // [
        ok := Enter(ARRAY, AR);
      } else if nextState == -4 {  // "
        match stack[top]
        case KEY => state := CO;
        case ARRAY => state := OK;
        case OBJECT => state := OK;
        case DONE => ok := Reject();
      } else if nextState == -3 {  // , flips an object from its value to its next key
        match stack[top]
        case OBJECT => ok := Flip(OBJECT, KEY, KE);
        case ARRAY => state := VA;
        case _ => ok := Reject();
      } else if nextState == -2 {  // : flips an object from a key to its value
        ok := Flip(KEY, OBJECT, VA);
      } else {
        ok := Reject();
      }
    }

    method Leave(mode: Mode) returns (ok: bool)
      requires Valid() && mode != DONE
      modifies this
      ensures stack == old(stack) && depth == old(depth)
      ensures ok == (old(Configuration()).Top() == mode)
      ensures ok ==> Valid() && Configuration() == Config(OK, old(Configuration()).Below())
      ensures !ok ==> !live
    {
      ok := Pop(mode);
      if !ok {
        ok := Reject();
        return;
      }
      state := OK;
    }

    method Enter(mode: Mode, next: int) returns (ok: bool)
      requires Valid() && mode != DONE && 0 <= next < NR_STATES
      modifies this, stack
      ensures stack == old(stack) && depth == old(depth)
      ensures ok == (|old(Configuration()).stack| < depth)
      ensures ok ==> Valid() && Configuration() == Config(next, old(Configuration()).stack + [mode])
      ensures !ok ==> !live
    {
      ok := Push(mode);
      if !ok {
        ok := Reject();
        return;
      }
      state := next;
    }

    method Flip(from: Mode, to: Mode, next: int) returns (ok: bool)
      requires Valid() && from != DONE && to != DONE && 0 <= next < NR_STATES
      modifies this, stack
      ensures stack == old(stack) && depth == old(depth)
      ensures ok == (old(Configuration()).Top() == from)
      ensures ok ==> Valid() && Configuration() == Config(next, old(Configuration()).Below() + [to])
      ensures !ok ==> !live
    {
      ghost var cfg := Configuration();
      FlipValid(depth, cfg, from, to, next);
      ok := Pop(from);
      if ok {
        ok := Push(to);
      }
      if !ok {
        ok := Reject();
        return;
      }
      state := next;
      assert Configuration() == Config(next, cfg.Below() + [to]);
    }

    /** The verdict at the end of the text; the object is deleted. */
    method Done() returns (accepted: bool)
      requires Valid()
      modifies this
      ensures !live
      ensures accepted == (old(Configuration()) == Config(OK, [DONE]))
    {
      accepted := state == OK;
      if accepted {
        accepted := Pop(DONE);
      }
      var _ := Reject();
    }
  }
}
