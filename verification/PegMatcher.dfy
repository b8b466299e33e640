/**
 The runtime of the generated parser: a buffer filled one byte at a time, a
 position that backtracking resets, and a log of deferred actions that shrinks
 with it.  A machine that runs the code templates of the generator is proved to
 do what PegReader says on every input, which on clean input is the meaning of
 Peg over the whole text.
 */
module PegMatcher {
  import opened Peg
  import opened PegReader

  datatype Outcome = Matched | Failed | GaveUp

  class Context {
    var buf: seq<Byte>        // allocated, of which the first limit bytes are read in
    var pos: nat
    var limit: nat
    var thunks: seq<Thunk>    // allocated, of which the first thunkpos are logged
    var thunkpos: nat
    var val: int              // value pointer, counted from the base of the value stack
    var input: seq<Byte>      // charbuf, up to its terminating zero
    var ran: seq<nat>         // the actions executed so far

    constructor (input: seq<Byte>)
      ensures Valid() && Text() == input && this.input == input
      ensures pos == 0 && limit == 0 && thunkpos == 0 && val == 0 && ran == []
    {
      this.input := input;
      buf, thunks := [], [];
      pos, limit, thunkpos, val, ran := 0, 0, 0, 0, [];
    }

    ghost predicate Valid()
      reads this
    {
      pos <= limit <= |buf| && thunkpos <= |thunks|
    }

    /** Buffer and log are allocated. */
    ghost predicate Ready()
      reads this
    {
      Valid() && |buf| > 0 && |thunks| > 0
    }

    /** What was read in already, and what is still to come. */
    ghost function View(): Reader
      requires limit <= |buf|
      reads this
    {
      Reader(buf[..limit], input)
    }

    ghost function Text(): seq<Byte>
      requires limit <= |buf|
      reads this
    {
      View().Text()
    }

    ghost function Log(): seq<Thunk>
      requires thunkpos <= |thunks|
      reads this
    {
      thunks[..thunkpos]
    }

    // ---------------------------------------------------------- matching a byte

    /** Reads one byte into the buffer.  A byte 0xff is taken for the end of the input, and lost. */
    method Refill() returns (more: bool)
      requires Ready() && pos == limit
      modifies this`buf, this`limit, this`input
      ensures Ready() && View() == Peek(old(View()), pos)
      ensures more == (pos < limit) == (old(input) != [] && old(input)[0] != FF)
    {
      while |buf| - pos < 512
        invariant pos == limit <= |buf| && |buf| > 0 && limit == old(limit) && input == old(input)
        invariant buf[..limit] == old(buf[..limit])
        decreases 512 - (|buf| - pos)
      {
        buf := buf + seq(|buf|, i => 0);
      }
      if input == [] {
        return false;
      }
      var c := input[0];
      input := input[1..];
      if c == FF {
        return false;
      }
      buf := buf[pos := c];
      limit := limit + 1;
      assert buf[..limit] == old(buf[..limit]) + [c];
      return true;
    }

    /** Whether there is a byte at pos, fetching it if need be. */
    method HasByte() returns (more: bool)
      requires Ready()
      modifies this`buf, this`limit, this`input
      ensures Ready() && View() == Peek(old(View()), pos)
      ensures more == (pos < limit)
      ensures more == (pos < old(limit) || (old(input) != [] && old(input)[0] != FF))
    {
      if pos < limit {
        return true;
      }
      more := Refill();
    }

    method MatchDot() returns (ok: bool)
      requires Ready()
      modifies this`buf, this`limit, this`input, this`pos
      ensures Ready() && View() == Peek(old(View()), old(pos))
      ensures ok == (old(pos) < old(limit) || (old(input) != [] && old(input)[0] != FF))
      ensures pos == if ok then old(pos) + 1 else old(pos)
    {
      ok := HasByte();
      if ok {
        pos := pos + 1;
      }
    }

    method MatchChar(c: Byte) returns (ok: bool)
      requires Ready()
      modifies this`buf, this`limit, this`input, this`pos
      ensures Ready() && View() == Peek(old(View()), old(pos))
      ensures ok == if old(pos) < old(limit) then old(buf)[old(pos)] == c
                    else old(input) != [] && old(input)[0] != FF && old(input)[0] == c
      ensures pos == if ok then old(pos) + 1 else old(pos)
    {
      var more := HasByte();
      if !more {
        return false;
      }
      assert View().buf[pos] == buf[pos];
      if buf[pos] == c {
        pos := pos + 1;
        return true;
      }
      return false;
    }

    method MatchClass(bits: set<Byte>) returns (ok: bool)
      requires Ready()
      modifies this`buf, this`limit, this`input, this`pos
      ensures Ready() && View() == Peek(old(View()), old(pos))
      ensures ok == if old(pos) < old(limit) then old(buf)[old(pos)] in bits
                    else old(input) != [] && old(input)[0] != FF && old(input)[0] in bits
      ensures pos == if ok then old(pos) + 1 else old(pos)
    {
      var more := HasByte();
      if !more {
        return false;
      }
      assert View().buf[pos] == buf[pos];
      if buf[pos] in bits {
        pos := pos + 1;
        return true;
      }
      return false;
    }

    /** At the end of the input this fails without going back; its callers do that. */
    method MatchString(s: seq<Byte>) returns (ok: bool)
      requires Ready()
      modifies this`buf, this`limit, this`input, this`pos
      ensures Ready() && limit >= old(limit)
      ensures var raw := ReadString(old(View()), old(pos), s); View() == raw.reader && ok == raw.result.Ok?
      ensures StringIsNext(old(View()), old(pos), s, ok)
      ensures ok ==> pos == old(pos) + |s|
    {
      StringIsPlain(View(), pos, s);
      var saved := pos;
      ghost var raw := ReadString(View(), pos, s);
      var i := 0;
      while i < |s|
        invariant 0 <= i <= |s| && Ready() && limit >= old(limit) && pos == saved + i
        invariant raw == ReadString(View(), pos, s[i..])
      {
        StringStep(View(), pos, s, i);
        ghost var r := Peek(View(), pos);
        var more := HasByte();
        assert View() == r;
        if !more {
          return false;
        }
        assert View().buf[pos] == buf[pos];
        if buf[pos] != s[i] {
          pos := saved;
          return false;
        }
        i := i + 1;
        pos := pos + 1;
      }
      return true;
    }

    // ---------------------------------------------------------- deferred actions

    method LogAction(thunk: Thunk)
      requires Ready()
      modifies this`thunks, this`thunkpos
      ensures Ready() && |thunks| >= |old(thunks)| && Log() == old(Log()) + [thunk]
    {
      while thunkpos >= |thunks|
        invariant thunkpos <= |thunks| && |thunks| >= |old(thunks)| > 0 && Log() == old(Log())
        decreases thunkpos - |thunks|
      {
        thunks := thunks + seq(|thunks|, i => Pop(0));
      }
      thunks := thunks[thunkpos := thunk];
      thunkpos := thunkpos + 1;
    }

    /** Runs the log: the value pointer moves as the log says and every action runs once, in order. */
    method Done()
      requires Valid()
      modifies this`val, this`ran, this`thunkpos
      ensures Valid() && thunkpos == 0
      ensures val == old(val) + Height(old(Log())) && ran == old(ran) + Actions(old(Log()))
      ensures exists ps, ids :: Picks(old(Log()), ps, ids) && ran == old(ran) + ids
    {
      ghost var log := Log();
      var j := 0;
      while j < thunkpos
        invariant 0 <= j <= thunkpos == old(thunkpos) && log == old(Log())
        invariant val == old(val) + Height(log[..j]) && ran == old(ran) + Actions(log[..j])
      {
        assert log[..j + 1][..j] == log[..j];
        match thunks[j] {
          case Push(n) => val := val + n;
          case Pop(n) => val := val - n;
          case Set(_) =>
          case Action(id) => ran := ran + [id];
        }
        j := j + 1;
      }
      assert log[..j] == log;
      thunkpos := 0;
      ghost var ps := ActionsArePicked(log);
    }

    /** Forgets the matched part of the buffer and the log. */
    method Commit()
      requires Valid()
      modifies this`buf, this`limit, this`pos, this`thunkpos
      ensures Valid() && pos == 0 && thunkpos == 0
      ensures View() == Reader(old(View()).buf[old(pos)..], old(input))
    {
      limit := limit - pos;
      if limit != 0 {
        buf := buf[pos..pos + limit] + buf[limit..];
      }
      pos, thunkpos := 0, 0;
      assert buf[..limit] == old(buf[..limit])[old(pos)..];
    }

    // ---------------------------------------------------------- the code templates

    /** What was allocated and read in stays, and nothing is executed. */
    twostate predicate Grew()
      reads this
    {
      Ready() && limit >= old(limit) && |thunks| >= |old(thunks)| && val == old(val) && ran == old(ran)
    }

    /** What running a piece of grammar has to achieve: to have read what raw has read,
        and to answer what it answers; a match logs exactly its actions, and a failure
        leaves at least the log there was, so that whoever saved its length can go
        back to it. */
    twostate predicate Does(raw: Raw, outcome: Outcome)
      requires old(thunkpos) <= |old(thunks)| && thunkpos <= |thunks| && limit <= |buf|
      reads this
    {
      && View() == raw.reader
      && match raw.result
         case Ok(p, log) => outcome == Matched && pos == p && Log() == old(Log()) + log
         case Fail => outcome == Failed && old(Log()) <= Log()
         case Diverges => outcome == GaveUp
    }

    /** Runs the generated code of e: for every grammar and every input, it reads,
        answers and logs what PegReader says. */
    method Run(g: Grammar, e: Expr, fuel: nat) returns (outcome: Outcome)
      requires Ready()
      modifies this
      ensures Grew() && Does(Read(g, e, old(View()), old(pos), fuel), outcome)
      ensures e.Call? && outcome == Failed ==> pos == old(pos) && thunkpos == old(thunkpos)
      decreases fuel, e, 1
    {
      match e
      case Then(first, second) => outcome := RunThen(g, first, second, fuel);
      case Or(first, second) => outcome := RunOr(g, first, second, fuel);
      case Star(body) => outcome := RunStar(g, body, fuel);
      case Opt(body) =>
        outcome := RunOrGoBack(g, body, fuel);
        if outcome == Failed {
          outcome := Matched;
        }
      case Not(body) =>
        outcome := RunOrGoBack(g, body, fuel);
        if outcome == Failed {
          outcome := Matched;
        } else if outcome == Matched {
          outcome := Failed;
        }
      case And(body) => outcome := RunAnd(g, body, fuel);
      case Call(rule) =>
        if fuel == 0 {
          outcome := GaveUp;
        } else {
          outcome := RunRule(g, g(rule), fuel - 1);
        }
      case _ => outcome := RunLeaf(g, e, fuel);
    }

    method RunLeaf(g: Grammar, e: Expr, fuel: nat) returns (outcome: Outcome)
      requires Ready() && IsLeaf(e)
      modifies this
      ensures Grew() && Does(Read(g, e, old(View()), old(pos), fuel), outcome)
    {
      var ok := true;
      match e {
        case Dot => ok := MatchDot();
        case Chr(c) => ok := MatchChar(c);
        case Str(s) => ok := MatchString(s);
        case Class(bits) => ok := MatchClass(bits);
        case Guard(on) => ok := on;
        case Do(thunk) => LogAction(thunk);
      }
      outcome := if ok then Matched else Failed;
    }

    /** The frame of an optional or repeated part and of a negative look-ahead:
        position and log are saved, and put back when the part fails. */
    method RunOrGoBack(g: Grammar, body: Expr, fuel: nat) returns (outcome: Outcome)
      requires Ready()
      modifies this
      ensures Grew() && Does(Read(g, body, old(View()), old(pos), fuel), outcome)
      ensures outcome == Failed ==> pos == old(pos) && thunkpos == old(thunkpos) && Log() == old(Log())
      decreases fuel, body, 2
    {
      var pos0, thunkpos0 := pos, thunkpos;
      outcome := Run(g, body, fuel);
      if outcome == Failed {
        pos, thunkpos := pos0, thunkpos0;
      }
    }

    method RunAnd(g: Grammar, body: Expr, fuel: nat) returns (outcome: Outcome)
      requires Ready()
      modifies this
      ensures Grew() && Does(Read(g, And(body), old(View()), old(pos), fuel), outcome)
      decreases fuel, And(body), 0
    {
      var pos0, thunkpos0 := pos, thunkpos;
      outcome := Run(g, body, fuel);
      if outcome == Matched {
        pos, thunkpos := pos0, thunkpos0;
      }
    }

    method RunThen(g: Grammar, first: Expr, second: Expr, fuel: nat) returns (outcome: Outcome)
      requires Ready()
      modifies this
      ensures Grew() && Does(Read(g, Expr.Then(first, second), old(View()), old(pos), fuel), outcome)
      decreases fuel, Expr.Then(first, second), 0
    {
      ghost var log0 := Log();
      outcome := Run(g, first, fuel);
      if outcome == Matched {
        ghost var log1 := Log();
        outcome := Run(g, second, fuel);
        AppendsTwice(log0, log1, Log());
      }
    }

    method RunOr(g: Grammar, first: Expr, second: Expr, fuel: nat) returns (outcome: Outcome)
      requires Ready()
      modifies this
      ensures Grew() && Does(Read(g, Or(first, second), old(View()), old(pos), fuel), outcome)
      decreases fuel, Or(first, second), 0
    {
      var pos0, thunkpos0 := pos, thunkpos;
      ghost var log0 := Log();
      outcome := Run(g, first, fuel);
      if outcome == Failed {
        pos, thunkpos := pos0, thunkpos0;
        assert Log() == log0;
        outcome := Run(g, second, fuel);
      }
    }

    /** A rule logs the making of its frame, runs its body and logs the frame's end;
        when the body fails, position and log are put back. */
    method RunRule(g: Grammar, rule: Rule, fuel: nat) returns (outcome: Outcome)
      requires Ready()
      modifies this
      ensures Grew()
      ensures var a := Read(g, rule.body, old(View()), old(pos), fuel);
              var framed := if a.result.Ok? then Ok(a.result.pos, Framed(rule.vars, a.result.log)) else a.result;
              Does(Raw(a.reader, framed), outcome)
      ensures outcome == Failed ==> pos == old(pos) && thunkpos == old(thunkpos)
      decreases fuel, rule.body, 2
    {
      var pos0, thunkpos0 := pos, thunkpos;
      ghost var log0 := Log();
      if rule.vars > 0 {
        LogAction(Push(rule.vars));
      }
      ghost var log1 := Log();
      outcome := Run(g, rule.body, fuel);
      if outcome == Matched {
        if rule.vars > 0 {
          ghost var log := Read(g, rule.body, old(View()), old(pos), fuel).result.log;
          LogAction(Pop(rule.vars));
          assert Log() == log0 + ([Push(rule.vars)] + log + [Pop(rule.vars)]);
        }
      } else if outcome == Failed {
        pos, thunkpos := pos0, thunkpos0;
        assert log0 <= log1;
      }
    }

    method RunStar(g: Grammar, body: Expr, fuel: nat) returns (outcome: Outcome)
      requires Ready()
      modifies this
      ensures Grew() && Does(Read(g, Star(body), old(View()), old(pos), fuel), outcome)
      decreases fuel, Star(body), 0
    {
      var left := fuel;
      ghost var log: seq<Thunk> := [];
      ghost var whole := Read(g, Star(body), View(), pos, fuel);
      assert Log() == old(Log()) + log;
      while true
        invariant Grew() && 0 <= left <= fuel && Log() == old(Log()) + log
        invariant whole == After(log, Read(g, Star(body), View(), pos, left))
        decreases left
      {
        ghost var a := Read(g, body, View(), pos, left);
        outcome := RunOrGoBack(g, body, left);
        if outcome == Failed {
          assert log + [] == log;
          return Matched;
        }
        if outcome == GaveUp || left == 0 {
          return GaveUp;
        }
        AfterTwice(log, a.result.log, Read(g, Star(body), a.reader, a.result.pos, left - 1));
        log := log + a.result.log;
        left := left - 1;
      }
    }

    // ---------------------------------------------------------- a parse

    /** YYPARSEFROM, on every input: what is left is what the rule did not match; the
        actions of the match run, in order, and the value stack is back at its base.
        Without a byte 0xff still to be read, the answer is that of the grammar on the
        whole text. */
    method ParseFrom(g: Grammar, start: RuleName, fuel: nat) returns (outcome: Outcome)
      requires Valid() && pos == 0
      requires ScopedGrammar(g)
      modifies this
      ensures Valid() && (outcome != GaveUp ==> pos == 0 && thunkpos == 0 && val == 0)
      ensures var raw := Read(g, Call(start), old(View()), 0, fuel);
              match raw.result
              case Ok(p, log) => outcome == Matched && View() == Reader(raw.reader.buf[p..], raw.reader.rest)
                                 && ran == old(ran) + Actions(log)
              case Fail => outcome == Failed && View() == raw.reader && ran == old(ran)
              case Diverges => outcome == GaveUp && ran == old(ran)
      ensures old(Clean(input)) ==>
                match Eval(g, Call(start), old(Text()), 0, fuel)
                case Ok(p, log) => outcome == Matched && Text() == old(Text())[p..] && ran == old(ran) + Actions(log)
                case Fail => outcome == Failed && Text() == old(Text())
                case Diverges => outcome == GaveUp
    {
      if |buf| == 0 {
        buf := seq(1024, i => 0);
        thunks := seq(32, i => Pop(0));
      } else if |thunks| == 0 {
        thunks := seq(32, i => Pop(0));
      }
      thunkpos := 0;
      val := 0;
      ghost var r := View();
      assert r == old(View());
      ghost var raw := Read(g, Call(start), r, 0, fuel);
      CleanParse(g, start, r, fuel);
      LogIsBalanced(g, Call(start), 0, r, 0, fuel);
      outcome := Run(g, Call(start), fuel);
      if outcome == GaveUp {
        return;
      }
      if outcome == Matched {
        assert Log() == raw.result.log;
        Done();
      }
      Commit();
    }
  }

  lemma CleanParse(g: Grammar, start: RuleName, r: Reader, fuel: nat)
    ensures var raw := Read(g, Call(start), r, 0, fuel);
            Clean(r.rest) ==>
              && raw.result == Eval(g, Call(start), r.Text(), 0, fuel)
              && raw.reader.Text() == r.Text()
              && (raw.result.Ok? ==>
                    Reader(raw.reader.buf[raw.result.pos..], raw.reader.rest).Text() == r.Text()[raw.result.pos..])
  {
    if Clean(r.rest) {
      ReadIsEval(g, Call(start), r, 0, fuel);
    }
  }

  lemma StringStep(r: Reader, pos: nat, s: seq<Byte>, i: nat)
    requires pos <= |r.buf| && i < |s|
    ensures var r' := Peek(r, pos);
            ReadString(r, pos, s[i..]) ==
            if pos == |r'.buf| || r'.buf[pos] != s[i] then Raw(r', Fail) else ReadString(r', pos + 1, s[i + 1..])
  {
    assert s[i..][0] == s[i] && s[i..][1..] == s[i + 1..];
  }

  /** On clean input a string matches where it is next in the whole text. */
  ghost predicate StringIsNext(r: Reader, pos: nat, s: seq<Byte>, ok: bool)
    requires pos <= |r.buf|
  {
    Clean(r.rest) ==> ok == (s <= r.Text()[pos..])
  }

  lemma StringIsPlain(r: Reader, pos: nat, s: seq<Byte>)
    requires pos <= |r.buf|
    ensures StringIsNext(r, pos, s, ReadString(r, pos, s).result.Ok?)
  {
    if Clean(r.rest) {
      StringIsEval(r, pos, s);
    }
  }

  lemma AppendsTwice<T>(a: seq<T>, b: seq<T>, c: seq<T>)
    ensures a <= b <= c ==> a <= c
    ensures forall x, y :: b == a + x && c == b + y ==> c == a + (x + y)
  {
  }

  lemma AfterTwice(done: seq<Thunk>, more: seq<Thunk>, raw: Raw)
    ensures After(done, After(more, raw)) == After(done + more, raw)
  {
    if raw.result.Ok? {
      assert done + (more + raw.result.log) == done + more + raw.result.log;
    }
  }

  /** A parse at a byte 0xff sees the end of the input there, whatever comes after it. */
  method FailsAt(rest: seq<Byte>) returns (c: Context, outcome: Outcome)
    ensures outcome == Failed && c.Valid() && c.Text() == rest
  {
    c := new Context([FF] + rest);
    var g: Grammar := (r: RuleName) => Rule(0, Dot);
    assert g(Eof) == Rule(0, Dot);
    assert Read(g, Call(Eof), Reader([], [FF] + rest), 0, 1).result == Fail;
    outcome := c.ParseFrom(g, Eof, 1);
  }
}
