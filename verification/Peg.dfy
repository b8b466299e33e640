/**
 Parsing expression grammars over a whole text: the meaning that the generated
 markdown parser is meant to have.
 */
module Peg {

  type Byte = b: int | 0 <= b < 256

  /** The rules that are modelled; every other rule of the grammar is a Rest. */
  datatype RuleName =
    | Spacechar | Newline | Sp | Nonspacechar | BlankLine | Eof | RawLine | SourceContents
    | StartList | Notes | Rest(number: nat)

  /** A deferred action: moving the value pointer, storing a value, or a rule's own code. */
  datatype Thunk = Push(n: nat) | Pop(n: nat) | Set(slot: nat) | Action(id: nat)

  datatype Expr =
    | Dot
    | Chr(c: Byte)
    | Str(s: seq<Byte>)
    | Class(bits: set<Byte>)
    | Guard(on: bool)
    | Do(thunk: Thunk)
    | Then(first: Expr, second: Expr)
    | Or(first: Expr, second: Expr)
    | Star(body: Expr)
    | Opt(body: Expr)
    | Not(body: Expr)
    | And(body: Expr)
    | Call(rule: RuleName)

  /** vars is the number of values the rule keeps on the value stack. */
  datatype Rule = Rule(vars: nat, body: Expr)

  type Grammar = RuleName -> Rule

  datatype Result = Diverges | Fail | Ok(pos: nat, log: seq<Thunk>)

  function Framed(vars: nat, log: seq<Thunk>): seq<Thunk> {
    if vars == 0 then log else [Push(vars)] + log + [Pop(vars)]
  }

  /** The meaning of e at pos, exploring at most fuel nested calls and iterations. */
  function Eval(g: Grammar, e: Expr, text: seq<Byte>, pos: nat, fuel: nat): (r: Result)
    requires pos <= |text|
    ensures r.Ok? ==> pos <= r.pos <= |text|
    decreases fuel, e
  {
    match e
    case Dot => if pos < |text| then Ok(pos + 1, []) else Fail
    case Chr(c) => if pos < |text| && text[pos] == c then Ok(pos + 1, []) else Fail
    case Str(s) => if s <= text[pos..] then Ok(pos + |s|, []) else Fail
    case Class(bits) => if pos < |text| && text[pos] in bits then Ok(pos + 1, []) else Fail
    case Guard(on) => if on then Ok(pos, []) else Fail
    case Do(thunk) => Ok(pos, [thunk])
    case Then(first, second) =>
      var r := Eval(g, first, text, pos, fuel);
      if !r.Ok? then r
      else
        var r' := Eval(g, second, text, r.pos, fuel);
        if r'.Ok? then Ok(r'.pos, r.log + r'.log) else r'
    case Or(first, second) =>
      var r := Eval(g, first, text, pos, fuel);
      if r.Fail? then Eval(g, second, text, pos, fuel) else r
    case Star(body) =>
      var r := Eval(g, body, text, pos, fuel);
      if r.Fail? then Ok(pos, [])
      else if r.Diverges? || fuel == 0 then Diverges
      else
        var r' := Eval(g, e, text, r.pos, fuel - 1);
        if r'.Ok? then Ok(r'.pos, r.log + r'.log) else r'
    case Opt(body) =>
      var r := Eval(g, body, text, pos, fuel);
      if r.Fail? then Ok(pos, []) else r
    case Not(body) =>
      var r := Eval(g, body, text, pos, fuel);
      if r.Fail? then Ok(pos, []) else if r.Ok? then Fail else Diverges
    case And(body) =>
      var r := Eval(g, body, text, pos, fuel);
      if r.Ok? then Ok(pos, []) else r
    case Call(rule) =>
      if fuel == 0 then Diverges
      else
        var r := Eval(g, g(rule).body, text, pos, fuel - 1);
        if r.Ok? then Ok(r.pos, Framed(g(rule).vars, r.log)) else r
  }

  /** More fuel never changes an answer: the bound only decides whether there is one. */
  lemma {:induction false} FuelIsEnough(g: Grammar, e: Expr, text: seq<Byte>, pos: nat, fuel: nat, fuel': nat)
    requires pos <= |text| && fuel <= fuel'
    ensures !Eval(g, e, text, pos, fuel).Diverges? ==>
              Eval(g, e, text, pos, fuel') == Eval(g, e, text, pos, fuel)
    decreases fuel, e
  {
    match e
    case Then(first, second) =>
      FuelIsEnough(g, first, text, pos, fuel, fuel');
      var r := Eval(g, first, text, pos, fuel);
      if r.Ok? {
        FuelIsEnough(g, second, text, r.pos, fuel, fuel');
      }
    case Or(first, second) =>
      FuelIsEnough(g, first, text, pos, fuel, fuel');
      FuelIsEnough(g, second, text, pos, fuel, fuel');
    case Star(body) =>
      FuelIsEnough(g, body, text, pos, fuel, fuel');
      var r := Eval(g, body, text, pos, fuel);
      if r.Ok? && fuel > 0 {
        FuelIsEnough(g, e, text, r.pos, fuel - 1, fuel' - 1);
      }
    case Opt(body) => FuelIsEnough(g, body, text, pos, fuel, fuel');
    case Not(body) => FuelIsEnough(g, body, text, pos, fuel, fuel');
    case And(body) => FuelIsEnough(g, body, text, pos, fuel, fuel');
    case Call(rule) =>
      if fuel > 0 {
        FuelIsEnough(g, g(rule).body, text, pos, fuel - 1, fuel' - 1);
      }
    case _ =>
  }

  // ------------------------------------------------------------ the value stack

  /** How far the log moves the value pointer. */
  function Height(log: seq<Thunk>): int {
    if log == [] then 0
    else
      Height(log[..|log| - 1]) +
      match log[|log| - 1] {
        case Push(n) => n as int
        case Pop(n) => 0 - n
        case _ => 0
      }
  }

  lemma {:induction false} HeightAppend(a: seq<Thunk>, b: seq<Thunk>)
    ensures Height(a + b) == Height(a) + Height(b)
  {
    if b == [] {
      assert a + b == a;
    } else {
      HeightAppend(a, b[..|b| - 1]);
      assert (a + b)[..|a + b| - 1] == a + b[..|b| - 1];
    }
  }

  /** Replayed in a frame of vars values, the log never pops below the frame, and
      stores only into slots of frames that are on the stack. */
  ghost predicate Safe(log: seq<Thunk>, vars: int) {
    forall j :: 0 <= j < |log| ==> StepSafe(log, j, vars)
  }

  ghost predicate StepSafe(log: seq<Thunk>, j: int, vars: int)
    requires 0 <= j < |log|
  {
    var h := Height(log[..j]);
    && h >= 0
    && (log[j].Set? ==> 1 <= log[j].slot <= vars + h)
    && (log[j].Pop? ==> log[j].n <= h)
  }

  ghost predicate Balanced(log: seq<Thunk>, vars: nat) { Height(log) == 0 && Safe(log, vars) }

  lemma SafeAppend(a: seq<Thunk>, b: seq<Thunk>, vars: int)
    requires Safe(a, vars) && Safe(b, vars + Height(a)) && Height(a) >= 0
    ensures Safe(a + b, vars)
  {
    forall j | 0 <= j < |a + b|
      ensures StepSafe(a + b, j, vars)
    {
      if j < |a| {
        assert (a + b)[..j] == a[..j];
        assert StepSafe(a, j, vars);
      } else {
        assert (a + b)[..j] == a + b[..j - |a|];
        HeightAppend(a, b[..j - |a|]);
        assert StepSafe(b, j - |a|, vars + Height(a));
      }
    }
  }

  lemma BalancedAppend(a: seq<Thunk>, b: seq<Thunk>, vars: nat)
    requires Balanced(a, vars) && Balanced(b, vars)
    ensures Balanced(a + b, vars)
  {
    HeightAppend(a, b);
    SafeAppend(a, b, vars);
  }

  lemma FramedIsBalanced(inner: nat, log: seq<Thunk>, vars: nat)
    requires Balanced(log, inner)
    ensures Balanced(Framed(inner, log), vars)
  {
    if inner == 0 {
      forall j | 0 <= j < |log|
        ensures StepSafe(log, j, vars)
      {
        assert StepSafe(log, j, 0);
      }
    } else {
      var push, pop, both := [Push(inner)], [Pop(inner)], vars + inner;
      assert push[..0] == [] && pop[..0] == [];
      assert Height(push) == inner && Height(pop) == 0 - inner;
      forall j | 0 <= j < |log|
        ensures StepSafe(log, j, both)
      {
        assert StepSafe(log, j, inner);
      }
      HeightAppend(push, log);
      HeightAppend(push + log, pop);
      SafeAppend(push, log, vars);
      forall j | 0 <= j < |push + log + pop|
        ensures StepSafe(push + log + pop, j, vars)
      {
        if j < |push + log| {
          assert (push + log + pop)[..j] == (push + log)[..j];
          assert StepSafe(push + log, j, vars);
        } else {
          assert (push + log + pop)[..j] == push + log;
        }
      }
    }
  }

  /** A rule's code stores into its own slots only, and leaves the pointer alone. */
  predicate Scoped(e: Expr, vars: nat) {
    match e
    case Do(thunk) => thunk.Action? || (thunk.Set? && 1 <= thunk.slot <= vars)
    case Then(first, second) => Scoped(first, vars) && Scoped(second, vars)
    case Or(first, second) => Scoped(first, vars) && Scoped(second, vars)
    case Star(body) => Scoped(body, vars)
    case Opt(body) => Scoped(body, vars)
    case Not(body) => Scoped(body, vars)
    case And(body) => Scoped(body, vars)
    case _ => true
  }

  ghost predicate ScopedGrammar(g: Grammar) { forall r: RuleName :: Scoped(g(r).body, g(r).vars) }

  /** The actions of a log, in order. */
  function Actions(log: seq<Thunk>): seq<nat> {
    if log == [] then []
    else
      Actions(log[..|log| - 1]) + if log[|log| - 1].Action? then [log[|log| - 1].id] else []
  }

  lemma {:induction false} ActionsAppend(a: seq<Thunk>, b: seq<Thunk>)
    ensures Actions(a + b) == Actions(a) + Actions(b)
  {
    if b == [] {
      assert a + b == a;
    } else {
      ActionsAppend(a, b[..|b| - 1]);
      assert (a + b)[..|a + b| - 1] == a + b[..|b| - 1];
    }
  }

  /** One action runs once; moving the value pointer or storing a value runs none. */
  lemma ActionsOfOne(t: Thunk)
    ensures Actions([t]) == match t { case Action(id) => [id] case _ => [] }
    ensures Actions([]) == []
  {
    assert [t][..0] == [];
  }

  /** ps are the positions of all actions in the log, in order, and ids what is there. */
  ghost predicate Picks(log: seq<Thunk>, ps: seq<nat>, ids: seq<nat>) {
    && |ps| == |ids|
    && (forall i, j :: 0 <= i < j < |ps| ==> ps[i] < ps[j])
    && (forall i :: 0 <= i < |ps| ==> ps[i] < |log| && log[ps[i]] == Action(ids[i]))
    && (forall j :: 0 <= j < |log| && log[j].Action? ==> j in ps)
  }

  /** Every logged action is run once, in the order of the log, and nothing else is. */
  lemma {:induction false} ActionsArePicked(log: seq<Thunk>) returns (ps: seq<nat>)
    ensures Picks(log, ps, Actions(log))
  {
    ps := [];
    if log != [] {
      var last := |log| - 1;
      ps := ActionsArePicked(log[..last]);
      if log[last].Action? {
        ps := ps + [last];
        assert last in ps;
      }
      forall j | 0 <= j < |log| && log[j].Action?
        ensures j in ps
      {
        assert j < last ==> log[..last][j].Action?;
      }
    }
  }

  /** The log moves the value pointer up by what is pushed and down by what is popped. */
  lemma HeightOfOne(t: Thunk)
    ensures Height([t]) == match t { case Push(n) => n as int case Pop(n) => 0 - n case _ => 0 }
    ensures Height([]) == 0
  {
    assert [t][..0] == [];
  }
}
