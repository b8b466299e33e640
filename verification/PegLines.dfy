/**
 The rules of the markdown grammar that cut a text into lines.
 */
module PegLines {
  import opened Peg
  import opened PegMarkdown

  predicate EndsLine(c: Byte) { c == LF || c == CR }

  /** Where the line at p stops, before its newline. */
  function LineEnd(text: seq<Byte>, p: nat): (q: nat)
    requires p <= |text|
    ensures p <= q <= |text|
    ensures forall m :: p <= m < q ==> !EndsLine(text[m])
    ensures q < |text| ==> EndsLine(text[q])
    decreases |text| - p
  {
    if p < |text| && !EndsLine(text[p]) then LineEnd(text, p + 1) else p
  }

  /** Behind the newline at q, which may be a CR and an LF. */
  function NextLine(text: seq<Byte>, q: nat): (r: nat)
    requires q < |text|
    ensures q < r <= |text|
  {
    if text[q] == CR && q + 1 < |text| && text[q + 1] == LF then q + 2 else q + 1
  }

  lemma NewlineTakes(rest: nat -> Rule, text: seq<Byte>, p: nat, fuel: nat)
    requires p <= |text| && fuel >= 1
    ensures Eval(Markdown(rest), Call(Newline), text, p, fuel) ==
            if p < |text| && EndsLine(text[p]) then Ok(NextLine(text, p), []) else Fail
  {
    var g := Markdown(rest);
    var second := Expr.Then(Chr(CR), Opt(Chr(LF)));
    assert g(Newline) == Rule(0, Or(Chr(LF), second));
    assert Eval(g, Chr(LF), text, p, fuel - 1) == if p < |text| && text[p] == LF then Ok(p + 1, []) else Fail;
    CrTakes(g, text, p, fuel - 1);
    assert Eval(g, Or(Chr(LF), second), text, p, fuel - 1) ==
           if p < |text| && EndsLine(text[p]) then Ok(NextLine(text, p), []) else Fail;
  }

  lemma CrTakes(g: Grammar, text: seq<Byte>, p: nat, fuel: nat)
    requires p <= |text|
    ensures Eval(g, Expr.Then(Chr(CR), Opt(Chr(LF))), text, p, fuel) ==
            if p < |text| && text[p] == CR then Ok(NextLine(text, p), []) else Fail
  {
    if p < |text| && text[p] == CR {
      assert Eval(g, Opt(Chr(LF)), text, p + 1, fuel) == Ok(NextLine(text, p), []);
    }
  }

  const InLine: Expr := Expr.Then(Not(Chr(CR)), Expr.Then(Not(Chr(LF)), Dot))

  lemma InLineTakes(g: Grammar, text: seq<Byte>, p: nat, fuel: nat)
    requires p <= |text|
    ensures Eval(g, InLine, text, p, fuel) == if p < |text| && !EndsLine(text[p]) then Ok(p + 1, []) else Fail
  {
    NotCharMeans(g, CR, text, p, fuel);
    NotCharMeans(g, LF, text, p, fuel);
    assert Eval(g, Expr.Then(Not(Chr(LF)), Dot), text, p, fuel) ==
           if p < |text| && text[p] != LF then Ok(p + 1, []) else Fail;
  }

  lemma {:induction false} LineTakes(g: Grammar, text: seq<Byte>, p: nat, fuel: nat)
    requires p <= |text| && fuel >= |text| - p
    ensures Eval(g, Star(InLine), text, p, fuel) == Ok(LineEnd(text, p), [])
    decreases |text| - p
  {
    InLineTakes(g, text, p, fuel);
    if p < |text| && !EndsLine(text[p]) {
      LineTakes(g, text, p + 1, fuel - 1);
      StarStep(g, InLine, text, p, fuel, p + 1, LineEnd(text, p));
    } else {
      StarStop(g, InLine, text, p, fuel);
    }
  }

  lemma {:induction false} DotsTakeAll(g: Grammar, text: seq<Byte>, p: nat, fuel: nat)
    requires p <= |text| && fuel >= |text| - p
    ensures Eval(g, Star(Dot), text, p, fuel) == Ok(|text|, [])
    decreases |text| - p
  {
    if p < |text| {
      DotsTakeAll(g, text, p + 1, fuel - 1);
    }
  }

  lemma LastLineTakes(rest: nat -> Rule, text: seq<Byte>, p: nat, fuel: nat)
    requires p <= |text| && fuel >= |text| - p + 1
    ensures Eval(Markdown(rest), Expr.Then(Dot, Expr.Then(Star(Dot), Call(Eof))), text, p, fuel) ==
            if p < |text| then Ok(|text|, []) else Fail
  {
    var g := Markdown(rest);
    if p < |text| {
      DotsTakeAll(g, text, p + 1, fuel);
      assert g(Eof) == Rule(0, Not(Dot));
      assert Eval(g, Not(Dot), text, |text|, fuel - 1) == Ok(|text|, []);
      assert Eval(g, Call(Eof), text, |text|, fuel) == Ok(|text|, []);
      assert Eval(g, Expr.Then(Star(Dot), Call(Eof)), text, p + 1, fuel) == Ok(|text|, []);
    }
  }

  /** RawLine fails at the end of the text only, and otherwise takes exactly one line
      with its newline, which the last line may be without. */
  lemma RawLineTakesOneLine(rest: nat -> Rule, text: seq<Byte>, p: nat, fuel: nat)
    requires p <= |text| && fuel >= |text| - p + 2
    ensures Eval(Markdown(rest), Call(RawLine), text, p, fuel) ==
            if p == |text| then Fail
            else if LineEnd(text, p) < |text| then Ok(NextLine(text, LineEnd(text, p)), [])
            else Ok(|text|, [])
  {
    var g, q := Markdown(rest), LineEnd(text, p);
    var first := Expr.Then(Star(InLine), Call(Newline));
    var second := Expr.Then(Dot, Expr.Then(Star(Dot), Call(Eof)));
    assert g(RawLine) == Rule(0, Or(first, second));
    LineTakes(g, text, p, fuel - 1);
    NewlineTakes(rest, text, q, fuel - 1);
    LastLineTakes(rest, text, p, fuel - 1);
    assert Eval(g, first, text, p, fuel - 1) == if q < |text| then Ok(NextLine(text, q), []) else Fail;
    assert Eval(g, Or(first, second), text, p, fuel - 1) ==
           if q < |text| then Ok(NextLine(text, q), []) else if p < |text| then Ok(|text|, []) else Fail;
  }

  /** Behind the spaces and tabs at p. */
  function SkipBlanks(text: seq<Byte>, p: nat): (q: nat)
    requires p <= |text|
    ensures p <= q <= |text|
    decreases |text| - p
  {
    if p < |text| && (text[p] == SPACE || text[p] == TAB) then SkipBlanks(text, p + 1) else p
  }

  lemma {:induction false} BlanksTake(rest: nat -> Rule, text: seq<Byte>, p: nat, fuel: nat)
    requires p <= |text| && fuel >= |text| - p + 1
    ensures Eval(Markdown(rest), Star(Call(Spacechar)), text, p, fuel) == Ok(SkipBlanks(text, p), [])
    decreases |text| - p
  {
    var g := Markdown(rest);
    SpacecharMeans(rest, text, p, fuel);
    if p < |text| && (text[p] == SPACE || text[p] == TAB) {
      BlanksTake(rest, text, p + 1, fuel - 1);
      StarStep(g, Call(Spacechar), text, p, fuel, p + 1, SkipBlanks(text, p));
    } else {
      StarStop(g, Call(Spacechar), text, p, fuel);
    }
  }

  /** BlankLine takes a line, newline included, exactly if it is blank and has a newline. */
  lemma BlankLineTakesBlankLine(rest: nat -> Rule, text: seq<Byte>, p: nat, fuel: nat)
    requires p <= |text| && fuel >= |text| - p + 3
    ensures Eval(Markdown(rest), Call(BlankLine), text, p, fuel) ==
            if SkipBlanks(text, p) == LineEnd(text, p) < |text| then Ok(NextLine(text, LineEnd(text, p)), []) else Fail
  {
    var g, q := Markdown(rest), SkipBlanks(text, p);
    BlanksAreInLine(text, p);
    assert g(BlankLine) == Rule(0, Expr.Then(Call(Sp), Call(Newline))) && g(Sp) == Rule(0, Star(Call(Spacechar)));
    BlanksTake(rest, text, p, fuel - 2);
    assert Eval(g, Call(Sp), text, p, fuel - 1) == Ok(q, []);
    NewlineTakes(rest, text, q, fuel - 1);
    assert Eval(g, Expr.Then(Call(Sp), Call(Newline)), text, p, fuel - 1) ==
           if q < |text| && EndsLine(text[q]) then Ok(NextLine(text, q), []) else Fail;
  }

  lemma {:induction false} BlanksAreInLine(text: seq<Byte>, p: nat)
    requires p <= |text|
    ensures var q := SkipBlanks(text, p); q <= LineEnd(text, p) && LineEnd(text, q) == LineEnd(text, p)
    decreases |text| - p
  {
    if p < |text| && (text[p] == SPACE || text[p] == TAB) {
      BlanksAreInLine(text, p + 1);
    }
  }
}
