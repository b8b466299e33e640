/**
 The rules of the markdown grammar that decide where a link's source ends, and
 what they match.
 */
module PegMarkdown {
  import opened Peg

  const TAB: Byte := 9
  const LF: Byte := 10
  const CR: Byte := 13
  const SPACE: Byte := 32
  const OPEN: Byte := 40
  const CLOSE: Byte := 41
  const GREATER: Byte := 62

  const InRun: Expr :=
    Expr.Then(Not(Chr(OPEN)), Expr.Then(Not(Chr(CLOSE)), Expr.Then(Not(Chr(GREATER)), Call(Nonspacechar))))

  const InSource: Expr :=
    Or(Expr.Then(InRun, Star(InRun)), Expr.Then(Chr(OPEN), Expr.Then(Call(SourceContents), Chr(CLOSE))))

  const InNotes: Expr :=
    Or(Expr.Then(Call(Rest(0)), Expr.Then(Do(Set(1)), Do(Action(1)))), Call(Rest(1)))

  /** The modelled rules; the others, among them Note and SkipBlock as Rest(0) and
      Rest(1), are whatever rest says. */
  function Markdown(rest: nat -> Rule): Grammar {
    (r: RuleName) =>
      match r
      case Spacechar => Rule(0, Or(Chr(SPACE), Chr(TAB)))
      case Newline => Rule(0, Or(Chr(LF), Expr.Then(Chr(CR), Opt(Chr(LF)))))
      case Sp => Rule(0, Star(Call(Spacechar)))
      case Nonspacechar => Rule(0, Expr.Then(Not(Call(Spacechar)), Expr.Then(Not(Call(Newline)), Dot)))
      case BlankLine => Rule(0, Expr.Then(Call(Sp), Call(Newline)))
      case Eof => Rule(0, Not(Dot))
      case RawLine =>
        Rule(0, Or(Expr.Then(Star(Expr.Then(Not(Chr(CR)), Expr.Then(Not(Chr(LF)), Dot))), Call(Newline)),
                   Expr.Then(Dot, Expr.Then(Star(Dot), Call(Eof)))))
      case SourceContents => Rule(0, Star(InSource))
      case StartList => Rule(0, Expr.Then(And(Dot), Do(Action(0))))
      case Notes =>
        Rule(2, Expr.Then(Call(StartList), Expr.Then(Do(Set(2)), Expr.Then(Star(InNotes), Do(Action(2))))))
      case Rest(number) => rest(number)
  }

  /** The modelled rules keep to their slots, so the grammar is scoped if the rest is. */
  lemma MarkdownIsScoped(rest: nat -> Rule)
    requires forall j: nat :: Scoped(rest(j).body, rest(j).vars)
    ensures ScopedGrammar(Markdown(rest))
  {
  }

  // ------------------------------------------------------------ what SourceContents is for

  predicate Blank(c: Byte) { c == SPACE || c == TAB || c == LF || c == CR }

  predicate Allowed(c: Byte) { !Blank(c) && c != GREATER }

  predicate Plain(c: Byte) { Allowed(c) && c != OPEN && c != CLOSE }

  /** Opened minus closed parentheses in text[i..j]. */
  function Level(text: seq<Byte>, i: nat, j: nat): int
    requires i <= j <= |text|
    decreases j
  {
    if i == j then 0
    else Level(text, i, j - 1) + if text[j - 1] == OPEN then 1 else if text[j - 1] == CLOSE then -1 else 0
  }

  /** text[i..j] has no blank and no '>', and its parentheses match. */
  ghost predicate WellNested(text: seq<Byte>, i: nat, j: nat) {
    && i <= j <= |text|
    && (forall m :: i <= m < j ==> Allowed(text[m]))
    && (forall m :: i <= m <= j ==> Level(text, i, m) >= 0)
    && Level(text, i, j) == 0
  }

  lemma {:induction false} LevelSplit(text: seq<Byte>, i: nat, m: nat, j: nat)
    requires i <= m <= j <= |text|
    ensures Level(text, i, j) == Level(text, i, m) + Level(text, m, j)
    decreases j
  {
    if m < j {
      LevelSplit(text, i, m, j - 1);
    }
  }

  /** The end of the run of plain characters at p. */
  function RunEnd(text: seq<Byte>, p: nat): (q: nat)
    requires p <= |text|
    ensures p <= q <= |text|
    ensures forall m :: p <= m < q ==> Plain(text[m])
    ensures q < |text| ==> !Plain(text[q])
    decreases |text| - p
  {
    if p < |text| && Plain(text[p]) then RunEnd(text, p + 1) else p
  }

  /** Where the rule stops. */
  function SourceEnd(text: seq<Byte>, p: nat): (q: nat)
    requires p <= |text|
    ensures p <= q <= |text|
    decreases |text| - p
  {
    if p == |text| then p
    else if Plain(text[p]) then SourceEnd(text, RunEnd(text, p + 1))
    else if text[p] == OPEN then
      var m := SourceEnd(text, p + 1);
      if m < |text| && text[m] == CLOSE then SourceEnd(text, m + 1) else p
    else p
  }

  // ------------------------------------------------------------ it is the longest matched prefix

  lemma {:induction false} PlainIsFlat(text: seq<Byte>, i: nat, j: nat)
    requires i <= j <= |text| && forall m :: i <= m < j ==> Plain(text[m])
    ensures forall m :: i <= m <= j ==> Level(text, i, m) == 0
  {
    if i < j {
      PlainIsFlat(text, i, j - 1);
    }
  }

  lemma WellNestedAppend(text: seq<Byte>, i: nat, m: nat, j: nat)
    requires WellNested(text, i, m) && WellNested(text, m, j)
    ensures WellNested(text, i, j)
  {
    forall x | i <= x <= j
      ensures Level(text, i, x) >= 0 && (x == j ==> Level(text, i, x) == 0)
    {
      if x > m {
        LevelSplit(text, i, m, x);
      }
    }
  }

  lemma WellNestedGroup(text: seq<Byte>, p: nat, m: nat)
    requires p < |text| && text[p] == OPEN && WellNested(text, p + 1, m) && m < |text| && text[m] == CLOSE
    ensures WellNested(text, p, m + 1)
  {
    assert Level(text, p, p + 1) == 1;
    forall x | p <= x <= m + 1
      ensures Level(text, p, x) >= 0 && (x == m + 1 ==> Level(text, p, x) == 0)
    {
      if p < x <= m {
        LevelSplit(text, p, p + 1, x);
      } else if x == m + 1 {
        LevelSplit(text, p, p + 1, m);
      }
    }
  }

  lemma {:induction false} SourceEndIsWellNested(text: seq<Byte>, p: nat)
    requires p <= |text|
    ensures WellNested(text, p, SourceEnd(text, p))
    decreases |text| - p
  {
    if p < |text| {
      if Plain(text[p]) {
        var q := RunEnd(text, p + 1);
        PlainIsFlat(text, p, q);
        SourceEndIsWellNested(text, q);
        WellNestedAppend(text, p, q, SourceEnd(text, q));
      } else if text[p] == OPEN {
        var m := SourceEnd(text, p + 1);
        SourceEndIsWellNested(text, p + 1);
        if m < |text| && text[m] == CLOSE {
          WellNestedGroup(text, p, m);
          SourceEndIsWellNested(text, m + 1);
          WellNestedAppend(text, p, m + 1, SourceEnd(text, m + 1));
        }
      }
    }
  }

  /** The parenthesis that closes the one before p. */
  lemma {:induction false} ClosingOf(text: seq<Byte>, p: nat, from: nat, j: nat) returns (c: nat)
    requires p <= from <= j <= |text| && Level(text, p, j) < 0
    requires forall m :: p <= m <= from ==> Level(text, p, m) >= 0
    ensures from <= c < j && text[c] == CLOSE && Level(text, p, c) == 0
    ensures forall m :: p <= m <= c ==> Level(text, p, m) >= 0
    decreases j - from
  {
    assert from < j && Level(text, p, from) >= 0;
    assert Level(text, p, from + 1) ==
           Level(text, p, from) + if text[from] == OPEN then 1 else if text[from] == CLOSE then -1 else 0;
    if Level(text, p, from + 1) < 0 {
      c := from;
    } else {
      c := ClosingOf(text, p, from + 1, j);
    }
  }

  lemma WellNestedRest(text: seq<Byte>, i: nat, m: nat, j: nat)
    requires WellNested(text, i, j) && i <= m <= j && Level(text, i, m) == 0
    ensures WellNested(text, m, j)
  {
    forall x | m <= x <= j
      ensures Level(text, m, x) >= 0 && (x == j ==> Level(text, m, x) == 0)
    {
      LevelSplit(text, i, m, x);
    }
  }

  lemma {:induction false} SourceEndIsLongest(text: seq<Byte>, p: nat, j: nat)
    requires WellNested(text, p, j)
    ensures j <= SourceEnd(text, p)
    decreases |text| - p
  {
    if p < j {
      assert Allowed(text[p]) && Level(text, p, p + 1) >= 0;
      if Plain(text[p]) {
        var q := RunEnd(text, p + 1);
        if q < j {
          PlainIsFlat(text, p, q);
          WellNestedRest(text, p, q, j);
          SourceEndIsLongest(text, q, j);
        }
      } else {
        GroupIsWhole(text, p, j);
        var m := SourceEnd(text, p + 1);
        if m + 1 < j {
          SourceEndIsLongest(text, m + 1, j);
        }
      }
    }
  }

  /** The group at p is the one SourceEnd takes. */
  lemma {:induction false} GroupIsWhole(text: seq<Byte>, p: nat, j: nat)
    requires WellNested(text, p, j) && p < j && text[p] == OPEN
    ensures var m := SourceEnd(text, p + 1);
            m < j && text[m] == CLOSE && WellNested(text, m + 1, j)
    decreases |text| - p, 0
  {
    assert Level(text, p, p + 1) == 1;
    LevelSplit(text, p, p + 1, j);
    var c := ClosingOf(text, p + 1, p + 1, j);
    var m := SourceEnd(text, p + 1);
    assert WellNested(text, p + 1, c);
    SourceEndIsLongest(text, p + 1, c);
    SourceEndIsWellNested(text, p + 1);
    assert Level(text, p + 1, c + 1) == -1;
    LevelSplit(text, p, p + 1, c);
    assert Level(text, p, c + 1) == 0;
    WellNestedRest(text, p, c + 1, j);
  }

  // ------------------------------------------------------------ and it is what the rule does

  lemma SpacecharMeans(rest: nat -> Rule, text: seq<Byte>, p: nat, fuel: nat)
    requires p <= |text| && fuel >= 1
    ensures Eval(Markdown(rest), Call(Spacechar), text, p, fuel) ==
            if p < |text| && (text[p] == SPACE || text[p] == TAB) then Ok(p + 1, []) else Fail
  {
    var g := Markdown(rest);
    assert g(Spacechar) == Rule(0, Or(Chr(SPACE), Chr(TAB)));
    assert Eval(g, Or(Chr(SPACE), Chr(TAB)), text, p, fuel - 1) ==
           if p < |text| && (text[p] == SPACE || text[p] == TAB) then Ok(p + 1, []) else Fail;
  }

  lemma NewlineMeans(rest: nat -> Rule, text: seq<Byte>, p: nat, fuel: nat)
    requires p <= |text| && fuel >= 1
    ensures var r := Eval(Markdown(rest), Call(Newline), text, p, fuel);
            if p < |text| && (text[p] == LF || text[p] == CR) then r.Ok? else r.Fail?
  {
    var g := Markdown(rest);
    var second := Expr.Then(Chr(CR), Opt(Chr(LF)));
    assert g(Newline) == Rule(0, Or(Chr(LF), second));
    assert Eval(g, Chr(LF), text, p, fuel - 1) == if p < |text| && text[p] == LF then Ok(p + 1, []) else Fail;
    assert Eval(g, Chr(CR), text, p, fuel - 1) == if p < |text| && text[p] == CR then Ok(p + 1, []) else Fail;
    if p < |text| && text[p] == CR {
      assert Eval(g, Chr(LF), text, p + 1, fuel - 1).Fail? || Eval(g, Chr(LF), text, p + 1, fuel - 1).Ok?;
      assert Eval(g, Opt(Chr(LF)), text, p + 1, fuel - 1).Ok?;
      assert Eval(g, second, text, p, fuel - 1).Ok?;
    } else {
      assert Eval(g, second, text, p, fuel - 1).Fail?;
    }
    var r := Eval(g, Or(Chr(LF), second), text, p, fuel - 1);
    assert if p < |text| && (text[p] == LF || text[p] == CR) then r.Ok? else r.Fail?;
  }

  lemma NonspacecharMeans(rest: nat -> Rule, text: seq<Byte>, p: nat, fuel: nat)
    requires p <= |text| && fuel >= 2
    ensures Eval(Markdown(rest), Call(Nonspacechar), text, p, fuel) ==
            if p < |text| && !Blank(text[p]) then Ok(p + 1, []) else Fail
  {
    var g := Markdown(rest);
    SpacecharMeans(rest, text, p, fuel - 1);
    NewlineMeans(rest, text, p, fuel - 1);
    var last := Expr.Then(Not(Call(Newline)), Dot);
    assert g(Nonspacechar) == Rule(0, Expr.Then(Not(Call(Spacechar)), last));
    assert Eval(g, Not(Call(Spacechar)), text, p, fuel - 1) ==
           if p < |text| && (text[p] == SPACE || text[p] == TAB) then Fail else Ok(p, []);
    assert Eval(g, Not(Call(Newline)), text, p, fuel - 1) ==
           if p < |text| && (text[p] == LF || text[p] == CR) then Fail else Ok(p, []);
    assert Eval(g, Dot, text, p, fuel - 1) == if p < |text| then Ok(p + 1, []) else Fail;
    assert Eval(g, last, text, p, fuel - 1) ==
           if p < |text| && text[p] != LF && text[p] != CR then Ok(p + 1, []) else Fail;
    assert Eval(g, Expr.Then(Not(Call(Spacechar)), last), text, p, fuel - 1) ==
           if p < |text| && !Blank(text[p]) then Ok(p + 1, []) else Fail;
  }

  lemma NotCharMeans(g: Grammar, c: Byte, text: seq<Byte>, p: nat, fuel: nat)
    requires p <= |text|
    ensures Eval(g, Not(Chr(c)), text, p, fuel) == if p < |text| && text[p] == c then Fail else Ok(p, [])
  {
  }

  lemma InRunMeans(rest: nat -> Rule, text: seq<Byte>, p: nat, fuel: nat)
    requires p <= |text| && fuel >= 2
    ensures Eval(Markdown(rest), InRun, text, p, fuel) ==
            if p < |text| && Plain(text[p]) then Ok(p + 1, []) else Fail
  {
    var g := Markdown(rest);
    NotCharMeans(g, OPEN, text, p, fuel);
    NotCharMeans(g, CLOSE, text, p, fuel);
    NotCharMeans(g, GREATER, text, p, fuel);
    NonspacecharMeans(rest, text, p, fuel);
    var third := Expr.Then(Not(Chr(GREATER)), Call(Nonspacechar));
    assert Eval(g, third, text, p, fuel) ==
           if p < |text| && !Blank(text[p]) && text[p] != GREATER then Ok(p + 1, []) else Fail;
    var second := Expr.Then(Not(Chr(CLOSE)), third);
    assert Eval(g, second, text, p, fuel) ==
           if p < |text| && !Blank(text[p]) && text[p] != GREATER && text[p] != CLOSE then Ok(p + 1, []) else Fail;
    assert InRun == Expr.Then(Not(Chr(OPEN)), second);
  }

  lemma {:induction false} RunMeans(rest: nat -> Rule, text: seq<Byte>, p: nat, fuel: nat)
    requires p <= |text| && fuel >= |text| - p + 2
    ensures Eval(Markdown(rest), Star(InRun), text, p, fuel) == Ok(RunEnd(text, p), [])
    decreases |text| - p
  {
    InRunMeans(rest, text, p, fuel);
    if p < |text| && Plain(text[p]) {
      RunMeans(rest, text, p + 1, fuel - 1);
    }
  }

  const Run: Expr := Expr.Then(InRun, Star(InRun))
  const Tail: Expr := Expr.Then(Call(SourceContents), Chr(CLOSE))
  const Group: Expr := Expr.Then(Chr(OPEN), Tail)

  lemma RunsMean(rest: nat -> Rule, text: seq<Byte>, p: nat, fuel: nat)
    requires p <= |text| && fuel >= |text| - p + 2
    ensures Eval(Markdown(rest), Run, text, p, fuel) ==
            if p < |text| && Plain(text[p]) then Ok(RunEnd(text, p + 1), []) else Fail
  {
    InRunMeans(rest, text, p, fuel);
    if p < |text| {
      RunMeans(rest, text, p + 1, fuel);
    }
  }

  /** A group is taken if the contents, wherever they end, are followed by ')'. */
  lemma GroupMeans(rest: nat -> Rule, text: seq<Byte>, p: nat, fuel: nat, m: nat)
    requires p < |text| && text[p] == OPEN && fuel >= 1 && p + 1 <= m <= |text|
    requires Eval(Markdown(rest), Star(InSource), text, p + 1, fuel - 1) == Ok(m, [])
    ensures Eval(Markdown(rest), Group, text, p, fuel) ==
            if m < |text| && text[m] == CLOSE then Ok(m + 1, []) else Fail
  {
    var g := Markdown(rest);
    assert g(SourceContents) == Rule(0, Star(InSource));
    assert Eval(g, Call(SourceContents), text, p + 1, fuel) == Ok(m, []);
    assert Eval(g, Chr(CLOSE), text, m, fuel) == if m < |text| && text[m] == CLOSE then Ok(m + 1, []) else Fail;
    assert Eval(g, Tail, text, p + 1, fuel) == if m < |text| && text[m] == CLOSE then Ok(m + 1, []) else Fail;
    assert Eval(g, Chr(OPEN), text, p, fuel) == Ok(p + 1, []);
  }

  lemma NoGroup(rest: nat -> Rule, text: seq<Byte>, p: nat, fuel: nat)
    requires p <= |text| && !(p < |text| && text[p] == OPEN)
    ensures Eval(Markdown(rest), Group, text, p, fuel) == Fail
  {
    assert Eval(Markdown(rest), Chr(OPEN), text, p, fuel) == Fail;
  }

  /** One more round of a repetition that logs nothing. */
  lemma StarStep(g: Grammar, body: Expr, text: seq<Byte>, p: nat, fuel: nat, q: nat, end: nat)
    requires p <= q <= |text| && fuel >= 1 && Eval(g, body, text, p, fuel) == Ok(q, [])
    requires Eval(g, Star(body), text, q, fuel - 1) == Ok(end, [])
    ensures Eval(g, Star(body), text, p, fuel) == Ok(end, [])
  {
  }

  /** One turn of the rule at p, given what the rule does after an opening parenthesis. */
  lemma InSourceMeans(rest: nat -> Rule, text: seq<Byte>, p: nat, fuel: nat)
    requires p <= |text| && fuel >= |text| - p + 3
    requires p < |text| && text[p] == OPEN ==>
               Eval(Markdown(rest), Star(InSource), text, p + 1, fuel - 1) == Ok(SourceEnd(text, p + 1), [])
    ensures Eval(Markdown(rest), InSource, text, p, fuel) ==
            if p < |text| && Plain(text[p]) then Ok(RunEnd(text, p + 1), [])
            else if p < |text| && text[p] == OPEN && SourceEnd(text, p + 1) < |text|
                    && text[SourceEnd(text, p + 1)] == CLOSE
            then Ok(SourceEnd(text, p + 1) + 1, [])
            else Fail
  {
    assert InSource == Or(Run, Group);
    RunsMean(rest, text, p, fuel);
    if p < |text| && text[p] == OPEN {
      GroupMeans(rest, text, p, fuel, SourceEnd(text, p + 1));
    } else {
      NoGroup(rest, text, p, fuel);
    }
  }

  lemma StarStop(g: Grammar, body: Expr, text: seq<Byte>, p: nat, fuel: nat)
    requires p <= |text| && Eval(g, body, text, p, fuel) == Fail
    ensures Eval(g, Star(body), text, p, fuel) == Ok(p, [])
  {
  }

  lemma {:induction false} SourceMeans(rest: nat -> Rule, text: seq<Byte>, p: nat, fuel: nat)
    requires p <= |text| && fuel >= |text| - p + 3
    ensures Eval(Markdown(rest), Star(InSource), text, p, fuel) == Ok(SourceEnd(text, p), [])
    decreases |text| - p
  {
    var g := Markdown(rest);
    if p < |text| && text[p] == OPEN {
      SourceMeans(rest, text, p + 1, fuel - 1);
    }
    InSourceMeans(rest, text, p, fuel);
    var r := Eval(g, InSource, text, p, fuel);
    if r.Ok? {
      SourceMeans(rest, text, r.pos, fuel - 1);
      StarStep(g, InSource, text, p, fuel, r.pos, SourceEnd(text, r.pos));
    } else {
      StarStop(g, InSource, text, p, fuel);
    }
  }

  /** SourceContents always answers, never fails and logs nothing, and what it
      consumes is the longest prefix with matching parentheses that has no blank,
      tab, newline or '>'. */
  lemma SourceContentsIsLongest(rest: nat -> Rule, text: seq<Byte>, p: nat, fuel: nat)
    requires p <= |text| && fuel >= |text| - p + 4
    ensures var r := Eval(Markdown(rest), Call(SourceContents), text, p, fuel);
            && r.Ok? && r.log == []
            && WellNested(text, p, r.pos)
            && forall j: nat :: WellNested(text, p, j) ==> j <= r.pos
  {
    SourceMeans(rest, text, p, fuel - 1);
    SourceEndIsWellNested(text, p);
    forall j: nat | WellNested(text, p, j)
      ensures j <= SourceEnd(text, p)
    {
      SourceEndIsLongest(text, p, j);
    }
  }
}
