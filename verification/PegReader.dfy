/**
 What the generated parser does on every input: the meaning of an expression as
 Peg gives it, but reading its text byte by byte, and taking the byte 0xff for
 the end of the input whenever it comes to it.
 */
module PegReader {
  import opened Peg

  const FF: Byte := 255

  /** YY_INPUT reads a plain char; 0xff then compares equal to EOF. */
  predicate Clean(input: seq<Byte>) { FF !in input }

  /** What was read in, and what is still to come. */
  datatype Reader = Reader(buf: seq<Byte>, rest: seq<Byte>) {
    function Text(): seq<Byte> { buf + rest }
  }

  /** After asking for the byte at pos, which is there if pos is then inside buf.  A
      byte 0xff is lost, and the question answered no. */
  function Peek(r: Reader, pos: nat): (r': Reader)
    requires pos <= |r.buf|
    ensures r.buf <= r'.buf
    ensures pos < |r'.buf| <==> pos < |r.buf| || (r.rest != [] && r.rest[0] != FF)
  {
    if pos < |r.buf| || r.rest == [] then r
    else if r.rest[0] == FF then r.(rest := r.rest[1..])
    else Reader(r.buf + [r.rest[0]], r.rest[1..])
  }

  datatype Raw = Raw(reader: Reader, result: Result)

  function ReadString(r: Reader, pos: nat, s: seq<Byte>): (raw: Raw)
    requires pos <= |r.buf|
    ensures r.buf <= raw.reader.buf && pos <= |raw.reader.buf|
    ensures raw.result.Fail? || (raw.result == Ok(pos + |s|, []) && pos + |s| <= |raw.reader.buf|)
    decreases |s|
  {
    if s == [] then Raw(r, Ok(pos, []))
    else
      var r' := Peek(r, pos);
      if pos == |r'.buf| || r'.buf[pos] != s[0] then Raw(r', Fail) else ReadString(r', pos + 1, s[1..])
  }

  function ReadByte(r: Reader, pos: nat, bits: set<Byte>): Raw
    requires pos <= |r.buf|
  {
    var r' := Peek(r, pos);
    Raw(r', if pos < |r'.buf| && r'.buf[pos] in bits then Ok(pos + 1, []) else Fail)
  }

  function Read(g: Grammar, e: Expr, r: Reader, pos: nat, fuel: nat): (raw: Raw)
    requires pos <= |r.buf|
    ensures r.buf <= raw.reader.buf
    ensures raw.result.Ok? ==> pos <= raw.result.pos <= |raw.reader.buf|
    decreases fuel, e
  {
    match e
    case Dot =>
      var r' := Peek(r, pos);
      Raw(r', if pos < |r'.buf| then Ok(pos + 1, []) else Fail)
    case Chr(c) => ReadByte(r, pos, {c})
    case Str(s) => ReadString(r, pos, s)
    case Class(bits) => ReadByte(r, pos, bits)
    case Guard(on) => Raw(r, if on then Ok(pos, []) else Fail)
    case Do(thunk) => Raw(r, Ok(pos, [thunk]))
    case Then(first, second) =>
      var a := Read(g, first, r, pos, fuel);
      if a.result.Ok? then After(a.result.log, Read(g, second, a.reader, a.result.pos, fuel)) else a
    case Or(first, second) =>
      var a := Read(g, first, r, pos, fuel);
      if a.result.Fail? then Read(g, second, a.reader, pos, fuel) else a
    case Star(body) =>
      var a := Read(g, body, r, pos, fuel);
      if a.result.Fail? then Raw(a.reader, Ok(pos, []))
      else if a.result.Diverges? || fuel == 0 then Raw(a.reader, Diverges)
      else After(a.result.log, Read(g, e, a.reader, a.result.pos, fuel - 1))
    case Opt(body) =>
      var a := Read(g, body, r, pos, fuel);
      if a.result.Fail? then Raw(a.reader, Ok(pos, [])) else a
    case Not(body) =>
      var a := Read(g, body, r, pos, fuel);
      Raw(a.reader, if a.result.Fail? then Ok(pos, []) else if a.result.Ok? then Fail else Diverges)
    case And(body) =>
      var a := Read(g, body, r, pos, fuel);
      if a.result.Ok? then Raw(a.reader, Ok(pos, [])) else a
    case Call(rule) =>
      if fuel == 0 then Raw(r, Diverges)
      else
        var a := Read(g, g(rule).body, r, pos, fuel - 1);
        if a.result.Ok? then Raw(a.reader, Ok(a.result.pos, Framed(g(rule).vars, a.result.log))) else a
  }

  /** raw, when this much was logged before it. */
  function After(log: seq<Thunk>, raw: Raw): Raw {
    if raw.result.Ok? then Raw(raw.reader, Ok(raw.result.pos, log + raw.result.log)) else raw
  }

  /** More fuel never changes an answer, nor what was read for it. */
  lemma {:induction false} FuelIsEnough(g: Grammar, e: Expr, r: Reader, pos: nat, fuel: nat, fuel': nat)
    requires pos <= |r.buf| && fuel <= fuel' && !Read(g, e, r, pos, fuel).result.Diverges?
    ensures Read(g, e, r, pos, fuel') == Read(g, e, r, pos, fuel)
    decreases fuel, e
  {
    match e
    case Then(first, second) =>
      FuelIsEnough(g, first, r, pos, fuel, fuel');
      var a := Read(g, first, r, pos, fuel);
      if a.result.Ok? {
        FuelIsEnough(g, second, a.reader, a.result.pos, fuel, fuel');
      }
    case Or(first, second) =>
      FuelIsEnough(g, first, r, pos, fuel, fuel');
      var a := Read(g, first, r, pos, fuel);
      if a.result.Fail? {
        FuelIsEnough(g, second, a.reader, pos, fuel, fuel');
      }
    case Star(body) =>
      FuelIsEnough(g, body, r, pos, fuel, fuel');
      var a := Read(g, body, r, pos, fuel);
      if a.result.Ok? {
        FuelIsEnough(g, e, a.reader, a.result.pos, fuel - 1, fuel' - 1);
      }
    case Opt(body) => FuelIsEnough(g, body, r, pos, fuel, fuel');
    case Not(body) => FuelIsEnough(g, body, r, pos, fuel, fuel');
    case And(body) => FuelIsEnough(g, body, r, pos, fuel, fuel');
    case Call(rule) => FuelIsEnough(g, g(rule).body, r, pos, fuel - 1, fuel' - 1);
    case _ =>
  }

  // ------------------------------------------------------------ on clean input it is the meaning of the whole text

  lemma PeekIsClean(r: Reader, pos: nat)
    requires pos <= |r.buf| && Clean(r.rest)
    ensures var r' := Peek(r, pos);
            && r'.Text() == r.Text() && Clean(r'.rest)
            && (pos < |r'.buf| <==> pos < |r.Text()|) && (pos < |r'.buf| ==> r'.buf[pos] == r.Text()[pos])
  {
    if pos == |r.buf| && r.rest != [] {
      assert r.rest == [r.rest[0]] + r.rest[1..] && r.rest[0] in r.rest;
      assert forall b :: b in r.rest[1..] ==> b in r.rest;
    }
  }

  lemma {:induction false} StringIsEval(r: Reader, pos: nat, s: seq<Byte>)
    requires pos <= |r.buf| && Clean(r.rest)
    ensures var raw := ReadString(r, pos, s);
            && raw.reader.Text() == r.Text() && Clean(raw.reader.rest)
            && (raw.result.Ok? <==> s <= r.Text()[pos..])
    decreases |s|
  {
    if s != [] {
      var r', tail := Peek(r, pos), r.Text()[pos..];
      PeekIsClean(r, pos);
      if pos < |r'.buf| && r'.buf[pos] == s[0] {
        StringIsEval(r', pos + 1, s[1..]);
        assert tail == [s[0]] + r.Text()[pos + 1..] && s == [s[0]] + s[1..];
        assert s <= tail <==> s[1..] <= tail[1..];
      }
    }
  }

  /** The text and the answer are those of the meaning. */
  ghost predicate Agrees(raw: Raw, r: Reader, result: Result) {
    raw.reader.Text() == r.Text() && Clean(raw.reader.rest) && raw.result == result
  }

  predicate IsLeaf(e: Expr) { e.Dot? || e.Chr? || e.Str? || e.Class? || e.Guard? || e.Do? }

  lemma LeafIsEval(g: Grammar, e: Expr, r: Reader, pos: nat, fuel: nat)
    requires pos <= |r.buf| && Clean(r.rest) && IsLeaf(e)
    ensures Agrees(Read(g, e, r, pos, fuel), r, Eval(g, e, r.Text(), pos, fuel))
  {
    PeekIsClean(r, pos);
    if e.Str? {
      StringIsEval(r, pos, e.s);
    }
  }

  /** On input without the byte 0xff, what is read byte by byte is what the grammar means on the whole text. */
  lemma {:induction false} ReadIsEval(g: Grammar, e: Expr, r: Reader, pos: nat, fuel: nat)
    requires pos <= |r.buf| && Clean(r.rest)
    ensures Agrees(Read(g, e, r, pos, fuel), r, Eval(g, e, r.Text(), pos, fuel))
    decreases fuel, e
  {
    match e
    case Then(first, second) =>
      ReadIsEval(g, first, r, pos, fuel);
      var a := Read(g, first, r, pos, fuel);
      if a.result.Ok? {
        ReadIsEval(g, second, a.reader, a.result.pos, fuel);
      }
    case Or(first, second) =>
      ReadIsEval(g, first, r, pos, fuel);
      ReadIsEval(g, second, Read(g, first, r, pos, fuel).reader, pos, fuel);
    case Star(body) =>
      ReadIsEval(g, body, r, pos, fuel);
      var a := Read(g, body, r, pos, fuel);
      if a.result.Ok? && fuel > 0 {
        ReadIsEval(g, e, a.reader, a.result.pos, fuel - 1);
      }
    case Opt(body) => ReadIsEval(g, body, r, pos, fuel);
    case Not(body) => ReadIsEval(g, body, r, pos, fuel);
    case And(body) => ReadIsEval(g, body, r, pos, fuel);
    case Call(rule) =>
      if fuel > 0 {
        ReadIsEval(g, g(rule).body, r, pos, fuel - 1);
      }
    case _ => LeafIsEval(g, e, r, pos, fuel);
  }

  // ------------------------------------------------------------ and on no other

  /** What is handed over before the end of the input is first reported. */
  function Delivered(input: seq<Byte>): seq<Byte> {
    if input == [] || input[0] == FF then [] else [input[0]] + Delivered(input[1..])
  }

  lemma {:induction false} AllDeliveredIff(input: seq<Byte>)
    ensures |Delivered(input)| == |input| <==> Clean(input)
    ensures |Delivered(input)| <= |input|
  {
    if input != [] {
      AllDeliveredIff(input[1..]);
      assert input == [input[0]] + input[1..];
    }
  }

  /** The rule that takes all there is takes what is delivered. */
  lemma {:induction false} DotsTakeDelivered(g: Grammar, r: Reader, pos: nat, fuel: nat)
    requires pos <= |r.buf| && fuel >= |r.buf| - pos + |r.rest|
    ensures Read(g, Star(Dot), r, pos, fuel).result == Ok(|r.buf| + |Delivered(r.rest)|, [])
    decreases fuel
  {
    var r' := Peek(r, pos);
    if pos < |r'.buf| {
      DotsTakeDelivered(g, r', pos + 1, fuel - 1);
    }
  }

  function Dots(): Grammar { (r: RuleName) => Rule(0, Star(Dot)) }

  lemma DotsDisagree(r: Reader)
    requires !Clean(r.rest)
    ensures ScopedGrammar(Dots())
    ensures var fuel := |r.Text()| + 1;
            Read(Dots(), Call(Eof), r, 0, fuel).result != Eval(Dots(), Call(Eof), r.Text(), 0, fuel)
  {
    var fuel, whole := |r.Text()| + 1, Reader(r.Text(), []);
    DotsTakeDelivered(Dots(), r, 0, fuel - 1);
    AllDeliveredIff(r.rest);
    DotsTakeDelivered(Dots(), whole, 0, fuel - 1);
    assert whole.Text() == r.Text();
    ReadIsEval(Dots(), Star(Dot), whole, 0, fuel - 1);
    assert Dots()(Eof) == Rule(0, Star(Dot));
  }

  ghost predicate AgreesOn(r: Reader, g: Grammar, start: RuleName, fuel: nat) {
    Read(g, Call(start), r, 0, fuel).result == Eval(g, Call(start), r.Text(), 0, fuel)
  }

  /** A parse answers as the grammar does on the whole text, whatever the grammar and
      the start rule, if and only if what is still to be read has no byte 0xff. */
  lemma ReadsWholeTextIff(r: Reader)
    ensures (forall g, start, fuel :: ScopedGrammar(g) ==> AgreesOn(r, g, start, fuel)) <==> Clean(r.rest)
  {
    if Clean(r.rest) {
      forall g, start, fuel | ScopedGrammar(g)
        ensures AgreesOn(r, g, start, fuel)
      {
        ReadIsEval(g, Call(start), r, 0, fuel);
      }
    } else {
      DotsDisagree(r);
      assert !AgreesOn(r, Dots(), Eof, |r.Text()| + 1);
    }
  }

  // ------------------------------------------------------------ the log, on every input

  lemma AfterBalanced(log: seq<Thunk>, raw: Raw, vars: nat)
    requires Balanced(log, vars) && (raw.result.Ok? ==> Balanced(raw.result.log, vars))
    ensures After(log, raw).result.Ok? ==> Balanced(After(log, raw).result.log, vars)
  {
    if raw.result.Ok? {
      BalancedAppend(log, raw.result.log, vars);
    }
  }

  /** Whatever matched, whatever the input, and however much was tried and given up on
      the way, the log that is left is balanced. */
  lemma {:induction false} LogIsBalanced(g: Grammar, e: Expr, vars: nat, r: Reader, pos: nat, fuel: nat)
    requires ScopedGrammar(g) && Scoped(e, vars) && pos <= |r.buf|
    ensures var result := Read(g, e, r, pos, fuel).result; result.Ok? ==> Balanced(result.log, vars)
    decreases fuel, e
  {
    match e
    case Do(thunk) =>
      assert [thunk][..0] == [];
    case Then(first, second) =>
      LogIsBalanced(g, first, vars, r, pos, fuel);
      var a := Read(g, first, r, pos, fuel);
      if a.result.Ok? {
        LogIsBalanced(g, second, vars, a.reader, a.result.pos, fuel);
        AfterBalanced(a.result.log, Read(g, second, a.reader, a.result.pos, fuel), vars);
      }
    case Or(first, second) =>
      LogIsBalanced(g, first, vars, r, pos, fuel);
      LogIsBalanced(g, second, vars, Read(g, first, r, pos, fuel).reader, pos, fuel);
    case Star(body) =>
      LogIsBalanced(g, body, vars, r, pos, fuel);
      var a := Read(g, body, r, pos, fuel);
      if a.result.Ok? && fuel > 0 {
        LogIsBalanced(g, e, vars, a.reader, a.result.pos, fuel - 1);
        AfterBalanced(a.result.log, Read(g, e, a.reader, a.result.pos, fuel - 1), vars);
      }
    case Opt(body) => LogIsBalanced(g, body, vars, r, pos, fuel);
    case Call(rule) =>
      if fuel > 0 {
        LogIsBalanced(g, g(rule).body, g(rule).vars, r, pos, fuel - 1);
        var a := Read(g, g(rule).body, r, pos, fuel - 1);
        if a.result.Ok? {
          FramedIsBalanced(g(rule).vars, a.result.log, vars);
        }
      }
    case _ =>
  }
}
