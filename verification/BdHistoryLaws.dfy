/**
 What the operations of the message history do to the lists and the timeline, said
 message by message.
 */
module BdHistoryLaws {
  import opened ConnectNode
  import opened BdTable
  import opened BdHistory

  /** Recording adds exactly this message: to the timeline, and to the list the tree
      finds for the peer, or as the first of a new one; all other lists stay. */
  lemma RecordingAdds(s: State, id: PeerId, item: Item, now: nat, t: Tree)
    requires Size(t) == |s.history| && Timed(s)
    ensures var s', es, x := Recorded(s, id, item, now, t), s.history, (now as int, item);
            && Timed(s')
            && multiset(s'.timeline) == multiset(s.timeline) + multiset{(now as int, Register(id, item))}
            && match Find(KeysOf(es), id, t)
               case Some(i) =>
                 && es[i].0 == id && s'.history == es[i := (id, s'.history[i].1)]
                 && multiset(s'.history[i].1) == multiset(es[i].1) + multiset{x}
               case None => exists j :: 0 <= j <= |es| && s'.history == es[..j] + [(id, [x])] + es[j..]
  {
    var es, s' := s.history, Recorded(s, id, item, now, t);
    FoundIsEqual(KeysOf(es), id, t);
    InsertedMeans(s.timeline, (now, Register(id, item)));
    var found := Find(KeysOf(es), id, t);
    if found.Some? {
      InsertedMeans(es[found.value].1, (now, item));
    } else {
      var j := LowerBound(KeysOf(es), id, t, 0);
      var mid := es[..j] + [(id, [])] + es[j..];
      assert Entered(es, id, t) == (mid, j) && Inserted([], (now as int, item)) == [(now as int, item)];
      assert mid[j := (id, [(now as int, item)])] == es[..j] + [(id, [(now as int, item)])] + es[j..];
    }
  }

  /** Meeting a peer gives it a list if the tree finds none, and changes nothing else. */
  lemma MeetingEnters(s: State, id: PeerId, t: Tree)
    requires Size(t) == |s.history|
    ensures var s', es := Met(s, id, t), s.history;
            && s'.timeline == s.timeline
            && if Find(KeysOf(es), id, t).Some? then s'.history == es
               else exists j :: 0 <= j <= |es| && s'.history == es[..j] + [(id, [])] + es[j..]
  {
    FoundIsEqual(KeysOf(s.history), id, t);
  }

  /** Clearing a list before a time leaves its end from the first message that is not
      earlier; before time zero it leaves nothing. */
  lemma ClearingLeaves(xs: Items, before: int)
    requires InTime(xs)
    ensures before == 0 ==> Cleared(xs, before) == []
    ensures before != 0 ==>
              exists i :: 0 <= i <= |xs| && Cleared(xs, before) == xs[i..]
                          && (forall j :: 0 <= j < i ==> xs[j].0 < before)
                          && forall j :: i <= j < |xs| ==> xs[j].0 >= before
  {
    if before != 0 {
      var i := 0;
      while i < |xs| && xs[i].0 < before
        invariant 0 <= i <= |xs| && forall j :: 0 <= j < i ==> xs[j].0 < before
      {
        i := i + 1;
      }
      DroppingFrontKeeps(xs, i, before);
    }
  }

  /** A cleanup takes what is older than the store period from the timeline, and from
      the lists that looking up the peers concerned reaches; with period zero nothing. */
  lemma CleanupTakes(s: State, period: int, now: int, t: Tree)
    requires Size(t) == |s.history| && Timed(s)
    ensures var s', before, es := Cleaned(s, period, now, t), now - period, s.history;
            if period == 0 then s' == s
            else
              && |s'.history| == |es|
              && (forall x :: multiset(s'.timeline)[x] == if x.0 < before then 0 else multiset(s.timeline)[x])
              && forall i :: 0 <= i < |es| ==>
                   if (exists x :: x in s.timeline && x.0 < before && x.1.id == es[i].0)
                      && Find(KeysOf(es), es[i].0, t) == Some(i)
                   then s'.history[i] == (es[i].0, Cleared(es[i].1, before))
                   else s'.history[i] == es[i]
  {
    if period != 0 {
      var before, es, s' := now - period, s.history, Cleaned(s, period, now, t);
      forall x
        ensures multiset(s'.timeline)[x] == if x.0 < before then 0 else multiset(s.timeline)[x]
      {
        KeptMembers(s.timeline, before, x);
      }
      forall i | 0 <= i < |es|
        ensures es[i].0 in Touched(s.timeline, before) <==>
                exists x :: x in s.timeline && x.0 < before && x.1.id == es[i].0
      {
      }
    }
  }

  /** Forgetting empties every list, keeps its peer, and leaves the timeline alone. */
  lemma ForgettingEmpties(s: State)
    ensures var s' := Forgotten(s);
            && s'.timeline == s.timeline && |s'.history| == |s.history|
            && forall i :: 0 <= i < |s.history| ==> s'.history[i] == (s.history[i].0, [])
  {
  }

  /** The positions of the messages in a closed interval. */
  function Positions(xs: Items, from: int, to: int): set<nat> { set i: nat | i < |xs| && from <= xs[i].0 <= to }

  /** The count is that of all messages in the interval. */
  lemma {:induction false} CountIsOfAll(xs: Items, from: int, to: int)
    ensures Between(xs, from, to) == |Positions(xs, from, to)|
  {
    if xs != [] {
      var init := xs[..|xs| - 1];
      CountIsOfAll(init, from, to);
      var last := |xs| - 1;
      assert Positions(xs, from, to) ==
             if from <= xs[last].0 <= to then Positions(init, from, to) + {last} else Positions(init, from, to);
    }
  }
}
