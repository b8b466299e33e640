/**
 A rule in which actions run: Notes makes a list, adds each note to it, and hands it on.
 */
module PegNotes {
  import opened Peg
  import opened PegMarkdown

  /** One turn of the rule: a note or a block to skip, what it logged, and where it ended. */
  datatype Turn = Turn(isNote: bool, log: seq<Thunk>, end: nat)

  /** From p on these turns match, as long as fuel goes down by one for each, and then none does. */
  ghost predicate Turns(rest: nat -> Rule, text: seq<Byte>, p: nat, turns: seq<Turn>, fuel: nat)
    decreases |turns|
  {
    && p <= |text|
    && var note := Eval(Markdown(rest), Call(Rest(0)), text, p, fuel);
       var skip := Eval(Markdown(rest), Call(Rest(1)), text, p, fuel);
       if turns == [] then note.Fail? && skip.Fail?
       else
         && fuel > 0
         && (if turns[0].isNote then note == Ok(turns[0].end, turns[0].log)
             else note.Fail? && skip == Ok(turns[0].end, turns[0].log))
         && Turns(rest, text, turns[0].end, turns[1..], fuel - 1)
  }

  function EndOf(p: nat, turns: seq<Turn>): nat { if turns == [] then p else turns[|turns| - 1].end }

  /** What the turns log: after each note its value is stored and it is added to the list. */
  function TurnLog(turns: seq<Turn>): seq<Thunk> {
    if turns == [] then []
    else turns[0].log + (if turns[0].isNote then [Set(1), Action(1)] else []) + TurnLog(turns[1..])
  }

  function TurnActions(turns: seq<Turn>): seq<nat> {
    if turns == [] then []
    else Actions(turns[0].log) + (if turns[0].isNote then [1] else []) + TurnActions(turns[1..])
  }

  lemma TurnMatches(rest: nat -> Rule, text: seq<Byte>, p: nat, turns: seq<Turn>, fuel: nat)
    requires Turns(rest, text, p, turns, fuel)
    ensures Eval(Markdown(rest), InNotes, text, p, fuel) ==
            if turns == [] then Fail
            else Ok(turns[0].end, turns[0].log + if turns[0].isNote then [Set(1), Action(1)] else [])
  {
    var g := Markdown(rest);
    var after := Expr.Then(Do(Set(1)), Do(Action(1)));
    var note := Eval(g, Call(Rest(0)), text, p, fuel);
    if note.Ok? {
      assert Eval(g, after, text, note.pos, fuel) == Ok(note.pos, [Set(1)] + [Action(1)]);
      assert [Set(1)] + [Action(1)] == [Set(1), Action(1)];
      assert Eval(g, Expr.Then(Call(Rest(0)), after), text, p, fuel) == Ok(note.pos, note.log + [Set(1), Action(1)]);
    } else {
      assert Eval(g, Expr.Then(Call(Rest(0)), after), text, p, fuel) == Fail;
      if turns != [] {
        assert turns[0].log + [] == turns[0].log;
      }
    }
  }

  lemma {:induction false} TurnsMatch(rest: nat -> Rule, text: seq<Byte>, p: nat, turns: seq<Turn>, fuel: nat)
    requires Turns(rest, text, p, turns, fuel)
    ensures Eval(Markdown(rest), Star(InNotes), text, p, fuel) == Ok(EndOf(p, turns), TurnLog(turns))
    decreases |turns|
  {
    TurnMatches(rest, text, p, turns, fuel);
    if turns != [] {
      TurnsMatch(rest, text, turns[0].end, turns[1..], fuel - 1);
    }
  }

  lemma {:induction false} TurnLogActions(turns: seq<Turn>)
    ensures Actions(TurnLog(turns)) == TurnActions(turns)
  {
    if turns != [] {
      var first := turns[0];
      var added := if first.isNote then [Set(1), Action(1)] else [];
      TurnLogActions(turns[1..]);
      ActionsAppend(first.log + added, TurnLog(turns[1..]));
      ActionsAppend(first.log, added);
      ActionsAppend([Set(1)], [Action(1)]);
      ActionsOfOne(Set(1));
      ActionsOfOne(Action(1));
      assert [Set(1)] + [Action(1)] == [Set(1), Action(1)];
    }
  }

  /** On any text that goes on, Notes takes all the notes and blocks there are, keeps two
      values while it does, and runs: the action that begins the list, for each note
      its own actions and then the one that adds it, and the one that ends the list. */
  lemma NotesRuns(rest: nat -> Rule, text: seq<Byte>, p: nat, turns: seq<Turn>, fuel: nat)
    requires p < |text| && Turns(rest, text, p, turns, fuel) && fuel > 0
    ensures var r := Eval(Markdown(rest), Call(Notes), text, p, fuel + 1);
            && r == Ok(EndOf(p, turns), [Push(2), Action(0), Set(2)] + TurnLog(turns) + [Action(2), Pop(2)])
            && Actions(r.log) == [0] + TurnActions(turns) + [2]
  {
    var g := Markdown(rest);
    var last := Expr.Then(Star(InNotes), Do(Action(2)));
    var body := Expr.Then(Call(StartList), Expr.Then(Do(Set(2)), last));
    assert g(Notes) == Rule(2, body) && g(StartList) == Rule(0, Expr.Then(And(Dot), Do(Action(0))));
    ListStarts(rest, text, p, fuel);
    TurnsMatch(rest, text, p, turns, fuel);
    var end, log := EndOf(p, turns), TurnLog(turns);
    assert Eval(g, last, text, p, fuel) == Ok(end, log + [Action(2)]);
    assert Eval(g, Expr.Then(Do(Set(2)), last), text, p, fuel) == Ok(end, [Set(2)] + (log + [Action(2)]));
    assert Eval(g, body, text, p, fuel) == Ok(end, [Action(0)] + ([Set(2)] + (log + [Action(2)])));
    assert [Push(2)] + ([Action(0)] + ([Set(2)] + (log + [Action(2)]))) + [Pop(2)] ==
           [Push(2), Action(0), Set(2)] + log + [Action(2), Pop(2)];
    NotesActions(turns);
  }

  lemma ListStarts(rest: nat -> Rule, text: seq<Byte>, p: nat, fuel: nat)
    requires p < |text| && fuel > 0
    ensures Eval(Markdown(rest), Call(StartList), text, p, fuel) == Ok(p, [Action(0)])
  {
    var g := Markdown(rest);
    assert Eval(g, Dot, text, p, fuel - 1) == Ok(p + 1, []);
    assert Eval(g, And(Dot), text, p, fuel - 1) == Ok(p, []);
    assert [] + [Action(0)] == [Action(0)];
    assert Eval(g, Do(Action(0)), text, p, fuel - 1) == Ok(p, [Action(0)]);
    assert Eval(g, Expr.Then(And(Dot), Do(Action(0))), text, p, fuel - 1) == Ok(p, [Action(0)]);
    assert g(StartList) == Rule(0, Expr.Then(And(Dot), Do(Action(0))));
  }

  lemma NotesActions(turns: seq<Turn>)
    ensures Actions([Push(2), Action(0), Set(2)] + TurnLog(turns) + [Action(2), Pop(2)]) ==
            [0] + TurnActions(turns) + [2]
  {
    var front, back: seq<Thunk> := [Push(2), Action(0), Set(2)], [Action(2), Pop(2)];
    TurnLogActions(turns);
    FrontActions();
    BackActions();
    ActionsAppend(front + TurnLog(turns), back);
    ActionsAppend(front, TurnLog(turns));
  }

  lemma FrontActions()
    ensures Actions([Push(2), Action(0), Set(2)]) == [0]
  {
    var a, b, c: seq<Thunk> := [Push(2)], [Action(0)], [Set(2)];
    ActionsAppend(a + b, c);
    ActionsAppend(a, b);
    ActionsOfOne(Push(2));
    ActionsOfOne(Action(0));
    ActionsOfOne(Set(2));
    assert a + b + c == [Push(2), Action(0), Set(2)];
  }

  lemma BackActions()
    ensures Actions([Action(2), Pop(2)]) == [2]
  {
    var a, b: seq<Thunk> := [Action(2)], [Pop(2)];
    ActionsAppend(a, b);
    ActionsOfOne(Action(2));
    ActionsOfOne(Pop(2));
    assert a + b == [Action(2), Pop(2)];
  }

  /** Notes that run nothing themselves, and nothing to skip: the list begins, each note is added, the list ends. */
  lemma {:induction false} PlainNotes(turns: seq<Turn>)
    requires forall j :: 0 <= j < |turns| ==> turns[j].isNote && Actions(turns[j].log) == []
    ensures TurnActions(turns) == seq(|turns|, i => 1)
  {
    if turns != [] {
      PlainNotes(turns[1..]);
      assert TurnActions(turns) == [1] + TurnActions(turns[1..]);
    }
  }
}
