/**
 Runtime, grammar and meaning together: parsing a link's source with the generated
 code, on every input.
 */
module PegSource {
  import opened Peg
  import opened PegReader
  import opened PegMatcher
  import opened PegMarkdown

  // ------------------------------------------------------------ the rule answers on every input

  function Total(r: Reader): nat { |r.buf| + |r.rest| }

  lemma {:induction false} StringTotal(r: Reader, pos: nat, s: seq<Byte>)
    requires pos <= |r.buf|
    ensures Total(ReadString(r, pos, s).reader) <= Total(r)
    decreases |s|
  {
    if s != [] {
      var r' := Peek(r, pos);
      if pos < |r'.buf| && r'.buf[pos] == s[0] {
        StringTotal(r', pos + 1, s[1..]);
      }
    }
  }

  /** Reading never adds to the text. */
  lemma {:induction false} ReadTotal(g: Grammar, e: Expr, r: Reader, pos: nat, fuel: nat)
    requires pos <= |r.buf|
    ensures Total(Read(g, e, r, pos, fuel).reader) <= Total(r)
    decreases fuel, e
  {
    match e
    case Str(s) => StringTotal(r, pos, s);
    case Then(first, second) =>
      ReadTotal(g, first, r, pos, fuel);
      var a := Read(g, first, r, pos, fuel);
      if a.result.Ok? {
        ReadTotal(g, second, a.reader, a.result.pos, fuel);
      }
    case Or(first, second) =>
      ReadTotal(g, first, r, pos, fuel);
      ReadTotal(g, second, Read(g, first, r, pos, fuel).reader, pos, fuel);
    case Star(body) =>
      ReadTotal(g, body, r, pos, fuel);
      var a := Read(g, body, r, pos, fuel);
      if a.result.Ok? && fuel > 0 {
        ReadTotal(g, e, a.reader, a.result.pos, fuel - 1);
      }
    case Opt(body) => ReadTotal(g, body, r, pos, fuel);
    case Not(body) => ReadTotal(g, body, r, pos, fuel);
    case And(body) => ReadTotal(g, body, r, pos, fuel);
    case Call(rule) =>
      if fuel > 0 {
        ReadTotal(g, g(rule).body, r, pos, fuel - 1);
      }
    case _ =>
  }

  /** e answers at pos, logs nothing, and if it matches goes on by at least step. */
  ghost predicate Answers(raw: Raw, pos: nat, step: nat) {
    !raw.result.Diverges? && (raw.result.Ok? ==> raw.result.pos >= pos + step && raw.result.log == [])
  }

  lemma BlanksAnswer(rest: nat -> Rule, r: Reader, pos: nat, fuel: nat)
    requires pos <= |r.buf| && fuel >= 1
    ensures !Read(Markdown(rest), Call(Spacechar), r, pos, fuel).result.Diverges?
    ensures !Read(Markdown(rest), Call(Newline), r, pos, fuel).result.Diverges?
  {
    var g := Markdown(rest);
    var second := Expr.Then(Chr(CR), Opt(Chr(LF)));
    assert g(Spacechar) == Rule(0, Or(Chr(SPACE), Chr(TAB))) && g(Newline) == Rule(0, Or(Chr(LF), second));
    assert !Read(g, Or(Chr(SPACE), Chr(TAB)), r, pos, fuel - 1).result.Diverges?;
    var a := Read(g, Chr(LF), r, pos, fuel - 1);
    SecondNewlineAnswers(g, a.reader, pos, fuel - 1);
    assert !Read(g, Or(Chr(LF), second), r, pos, fuel - 1).result.Diverges?;
  }

  lemma SecondNewlineAnswers(g: Grammar, r: Reader, pos: nat, fuel: nat)
    requires pos <= |r.buf|
    ensures !Read(g, Expr.Then(Chr(CR), Opt(Chr(LF))), r, pos, fuel).result.Diverges?
  {
    var a := Read(g, Chr(CR), r, pos, fuel);
    if a.result.Ok? {
      assert !Read(g, Chr(LF), a.reader, a.result.pos, fuel).result.Diverges?;
      assert !Read(g, Opt(Chr(LF)), a.reader, a.result.pos, fuel).result.Diverges?;
    }
  }

  /** A negative look-ahead in front of what answers. */
  lemma NotThenAnswers(g: Grammar, no: Expr, e: Expr, r: Reader, pos: nat, fuel: nat, step: nat)
    requires pos <= |r.buf| && !Read(g, no, r, pos, fuel).result.Diverges?
    requires Answers(Read(g, e, Read(g, no, r, pos, fuel).reader, pos, fuel), pos, step)
    ensures Answers(Read(g, Expr.Then(Not(no), e), r, pos, fuel), pos, step)
  {
    var a := Read(g, Not(no), r, pos, fuel);
    assert a.result.Ok? ==> a.result == Ok(pos, []);
  }

  lemma NonspacecharAnswers(rest: nat -> Rule, r: Reader, pos: nat, fuel: nat)
    requires pos <= |r.buf| && fuel >= 2
    ensures Answers(Read(Markdown(rest), Call(Nonspacechar), r, pos, fuel), pos, 1)
  {
    var g := Markdown(rest);
    var last := Expr.Then(Not(Call(Newline)), Dot);
    assert g(Nonspacechar) == Rule(0, Expr.Then(Not(Call(Spacechar)), last));
    BlanksAnswer(rest, r, pos, fuel - 1);
    var r1 := Read(g, Call(Spacechar), r, pos, fuel - 1).reader;
    BlanksAnswer(rest, r1, pos, fuel - 1);
    var r2 := Read(g, Call(Newline), r1, pos, fuel - 1).reader;
    assert Answers(Read(g, Dot, r2, pos, fuel - 1), pos, 1);
    NotThenAnswers(g, Call(Newline), Dot, r1, pos, fuel - 1, 1);
    NotThenAnswers(g, Call(Spacechar), last, r, pos, fuel - 1, 1);
  }

  lemma InRunAnswers(rest: nat -> Rule, r: Reader, pos: nat, fuel: nat)
    requires pos <= |r.buf| && fuel >= 2
    ensures Answers(Read(Markdown(rest), InRun, r, pos, fuel), pos, 1)
  {
    var g := Markdown(rest);
    var third := Expr.Then(Not(Chr(GREATER)), Call(Nonspacechar));
    var second := Expr.Then(Not(Chr(CLOSE)), third);
    var r1 := Read(g, Chr(OPEN), r, pos, fuel).reader;
    var r2 := Read(g, Chr(CLOSE), r1, pos, fuel).reader;
    var r3 := Read(g, Chr(GREATER), r2, pos, fuel).reader;
    NonspacecharAnswers(rest, r3, pos, fuel);
    NotThenAnswers(g, Chr(GREATER), Call(Nonspacechar), r2, pos, fuel, 1);
    NotThenAnswers(g, Chr(CLOSE), third, r1, pos, fuel, 1);
    NotThenAnswers(g, Chr(OPEN), second, r, pos, fuel, 1);
  }

  /** One round of a repetition. */
  lemma StarAnswers(g: Grammar, body: Expr, r: Reader, pos: nat, fuel: nat)
    requires pos <= |r.buf| && Answers(Read(g, body, r, pos, fuel), pos, 1)
    requires var a := Read(g, body, r, pos, fuel);
             a.result.Ok? ==>
               fuel > 0 && Answers(Read(g, Star(body), a.reader, a.result.pos, fuel - 1), a.result.pos, 0)
    ensures Answers(Read(g, Star(body), r, pos, fuel), pos, 0)
  {
  }

  lemma {:induction false} RunAnswers(rest: nat -> Rule, r: Reader, pos: nat, fuel: nat)
    requires pos <= |r.buf| && fuel >= Total(r) - pos + 2
    ensures Answers(Read(Markdown(rest), Star(InRun), r, pos, fuel), pos, 0)
    decreases fuel
  {
    var g := Markdown(rest);
    InRunAnswers(rest, r, pos, fuel);
    var a := Read(g, InRun, r, pos, fuel);
    if a.result.Ok? {
      ReadTotal(g, InRun, r, pos, fuel);
      RunAnswers(rest, a.reader, a.result.pos, fuel - 1);
    }
    StarAnswers(g, InRun, r, pos, fuel);
  }

  lemma ThenAnswers(g: Grammar, first: Expr, second: Expr, r: Reader, pos: nat, fuel: nat, step: nat)
    requires pos <= |r.buf| && Answers(Read(g, first, r, pos, fuel), pos, step)
    requires var a := Read(g, first, r, pos, fuel);
             a.result.Ok? ==> Answers(Read(g, second, a.reader, a.result.pos, fuel), a.result.pos, 0)
    ensures Answers(Read(g, Expr.Then(first, second), r, pos, fuel), pos, step)
  {
  }

  lemma RunsAnswer(rest: nat -> Rule, r: Reader, pos: nat, fuel: nat)
    requires pos <= |r.buf| && fuel >= Total(r) - pos + 2
    ensures Answers(Read(Markdown(rest), Run, r, pos, fuel), pos, 1)
  {
    var g := Markdown(rest);
    InRunAnswers(rest, r, pos, fuel);
    var a := Read(g, InRun, r, pos, fuel);
    if a.result.Ok? {
      ReadTotal(g, InRun, r, pos, fuel);
      RunAnswers(rest, a.reader, a.result.pos, fuel);
    }
    ThenAnswers(g, InRun, Star(InRun), r, pos, fuel, 1);
  }

  lemma GroupAnswers(rest: nat -> Rule, r: Reader, pos: nat, fuel: nat)
    requires pos <= |r.buf| && fuel >= 1
    requires var a := Read(Markdown(rest), Chr(OPEN), r, pos, fuel);
             a.result.Ok? ==>
               Answers(Read(Markdown(rest), Star(InSource), a.reader, a.result.pos, fuel - 1), a.result.pos, 0)
    ensures Answers(Read(Markdown(rest), Group, r, pos, fuel), pos, 1)
  {
    var g := Markdown(rest);
    assert g(SourceContents) == Rule(0, Star(InSource));
    var a := Read(g, Chr(OPEN), r, pos, fuel);
    if a.result.Ok? {
      var b := Read(g, Call(SourceContents), a.reader, a.result.pos, fuel);
      assert Answers(b, a.result.pos, 0);
      ThenAnswers(g, Call(SourceContents), Chr(CLOSE), a.reader, a.result.pos, fuel, 0);
    }
    ThenAnswers(g, Chr(OPEN), Tail, r, pos, fuel, 1);
  }

  /** On every input the rule comes to an end, succeeds, and logs nothing. */
  lemma {:induction false} SourceAnswers(rest: nat -> Rule, r: Reader, pos: nat, fuel: nat)
    requires pos <= |r.buf| && fuel >= Total(r) - pos + 3
    ensures Answers(Read(Markdown(rest), Star(InSource), r, pos, fuel), pos, 0)
    ensures Read(Markdown(rest), Star(InSource), r, pos, fuel).result.Ok?
    decreases fuel
  {
    var g := Markdown(rest);
    RunsAnswer(rest, r, pos, fuel);
    ReadTotal(g, Run, r, pos, fuel);
    var r1 := Read(g, Run, r, pos, fuel).reader;
    var open := Read(g, Chr(OPEN), r1, pos, fuel);
    if open.result.Ok? {
      ReadTotal(g, Chr(OPEN), r1, pos, fuel);
      SourceAnswers(rest, open.reader, open.result.pos, fuel - 1);
    }
    GroupAnswers(rest, r1, pos, fuel);
    assert InSource == Or(Run, Group);
    var a := Read(g, InSource, r, pos, fuel);
    assert Answers(a, pos, 1);
    if a.result.Ok? {
      ReadTotal(g, InSource, r, pos, fuel);
      SourceAnswers(rest, a.reader, a.result.pos, fuel - 1);
    }
    StarAnswers(g, InSource, r, pos, fuel);
  }

  // ------------------------------------------------------------ a parse

  lemma SourceParses(rest: nat -> Rule, r: Reader, fuel: nat)
    requires fuel >= Total(r) + 4
    ensures var result := Read(Markdown(rest), Call(SourceContents), r, 0, fuel).result;
            result.Ok? && result.log == [] && Actions(result.log) == []
  {
    assert Markdown(rest)(SourceContents) == Rule(0, Star(InSource));
    SourceAnswers(rest, r, 0, fuel - 1);
  }

  /** Parsing SourceContents with the runtime, from any state a parse can start in and
      on every input: it matches and runs nothing.  If nothing still to be read is a
      byte 0xff, it takes exactly the longest well-nested prefix of the text, read in
      or not, and leaves the rest for the next parse. */
  method ParseSource(c: Context, rest: nat -> Rule, fuel: nat) returns (outcome: Outcome)
    requires c.Valid() && c.pos == 0
    requires forall j: nat :: Scoped(rest(j).body, rest(j).vars)
    requires fuel >= |c.Text()| + 4
    modifies c
    ensures c.Valid() && outcome == Matched && c.val == 0 && c.ran == old(c.ran)
    ensures old(Clean(c.input)) ==>
              exists end: nat ::
                && WellNested(old(c.Text()), 0, end)
                && (forall j: nat :: WellNested(old(c.Text()), 0, j) ==> j <= end)
                && c.Text() == old(c.Text())[end..]
  {
    MarkdownIsScoped(rest);
    var g := Markdown(rest);
    ghost var r, text := c.View(), c.Text();
    SourceParses(rest, r, fuel);
    SourceContentsIsLongest(rest, text, 0, fuel);
    ghost var end := Eval(g, Call(SourceContents), text, 0, fuel).pos;
    outcome := c.ParseFrom(g, SourceContents, fuel);
    assert WellNested(text, 0, end);
  }
}
