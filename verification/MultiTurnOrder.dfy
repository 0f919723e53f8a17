/** In which order the multi-turn driver serves its clients: requests and responses are taken first come, first
    served, and the follow-up questions come from the end of their pool. */
module MultiTurnOrder {
  import opened Sequences
  import opened Options
  import opened MultiTurn
  import opened MultiTurnPlaces

  /** The client whose response the event handles gets a follow-up question. */
  ghost predicate FollowsUp(cfg: Config, s: State, e: Event)
    requires Fits(cfg, s) && Enabled(cfg, s, e)
  {
    e.Handle? && var c := Replier(cfg, s); |Next(cfg, s, e).log.asked[c]| > |s.log.asked[c]|
  }

  ghost function Replier(cfg: Config, s: State): (c: nat)
    requires Fits(cfg, s) && s.q.responses != []
    ensures c < |cfg.inputs|
  {
    assert s.q.responses[0] in s.q.returning + s.q.responses;
    s.q.responses[0].client
  }

  /** The requests that wait to be sent, at the barrier or not. */
  function Line(s: State): seq<nat>
  {
    Clients(s.q.ready) + Clients(s.q.waiting)
  }

  /** The responses that wait to be handled. */
  function Inbox(q: Queues): seq<nat>
  {
    Repliers(q.responses) + Repliers(q.returning)
  }

  // ----- what happened in a run

  /** The state before the last event. */
  ghost function Prior(cfg: Config, es: seq<Event>): (s: State)
    requires es != [] && Run(cfg, es).Some?
    ensures Fits(cfg, s) && Enabled(cfg, s, es[|es| - 1]) && Run(cfg, es).value == Next(cfg, s, es[|es| - 1])
    ensures Run(cfg, es[..|es| - 1]) == Some(s)
  {
    Run(cfg, es[..|es| - 1]).value
  }

  /** Whose requests were lined up, in order: all clients at the start, then each with its follow-up question. */
  ghost function LinedUp(cfg: Config, es: seq<Event>): seq<nat>
    requires Run(cfg, es).Some?
    decreases |es|
  {
    if es == [] then seq(|cfg.inputs|, i => i)
    else
      var init, e, s := es[..|es| - 1], es[|es| - 1], Prior(cfg, es);
      LinedUp(cfg, init) + if FollowsUp(cfg, s, e) then [Replier(cfg, s)] else []
  }

  /** Whose requests were sent, in order. */
  ghost function Sends(cfg: Config, es: seq<Event>): seq<nat>
    requires Run(cfg, es).Some?
    decreases |es|
  {
    if es == [] then []
    else
      var init, e, s := es[..|es| - 1], es[|es| - 1], Prior(cfg, es);
      Sends(cfg, init) + if e.Send? then [s.q.ready[e.index].client] else []
  }

  /** Whose requests the server answered, in order. */
  ghost function Answers(cfg: Config, es: seq<Event>): seq<nat>
    requires Run(cfg, es).Some?
    decreases |es|
  {
    if es == [] then []
    else
      var init, e, s := es[..|es| - 1], es[|es| - 1], Prior(cfg, es);
      Answers(cfg, init) + if e.Finish? then [s.q.flying[e.index].client] else []
  }

  /** Whose responses were handled, in order. */
  ghost function Handlings(cfg: Config, es: seq<Event>): seq<nat>
    requires Run(cfg, es).Some?
    decreases |es|
  {
    if es == [] then []
    else
      var init, e, s := es[..|es| - 1], es[|es| - 1], Prior(cfg, es);
      Handlings(cfg, init) + if e.Handle? then [Replier(cfg, s)] else []
  }

  /** The follow-up questions, in the order in which they were asked. */
  ghost function Questions(cfg: Config, es: seq<Event>): seq<Tokens>
    requires Run(cfg, es).Some?
    decreases |es|
  {
    if es == [] then []
    else
      var init, e, s := es[..|es| - 1], es[|es| - 1], Prior(cfg, es);
      Questions(cfg, init) +
      if FollowsUp(cfg, s, e) then
        var asked := Run(cfg, es).value.log.asked[Replier(cfg, s)];
        [asked[|asked| - 1]]
      else []
  }

  // ----- one step

  ghost predicate OnlyAtBarrier(cfg: Config, s: State)
  {
    !cfg.barrier ==> s.q.waiting == []
  }

  lemma LineStep(cfg: Config, s: State, e: Event)
    requires Fits(cfg, s) && Enabled(cfg, s, e) && OnlyAtBarrier(cfg, s) && cfg.policy.Fifo?
    ensures OnlyAtBarrier(cfg, Next(cfg, s, e))
    ensures Line(s) + (if FollowsUp(cfg, s, e) then [Replier(cfg, s)] else [])
            == (if e.Send? then [s.q.ready[e.index].client] else []) + Line(Next(cfg, s, e))
  {
    var s' := Next(cfg, s, e);
    match e {
      case Send(i) => hide Fits; SentLine(s, s');
      case Handle => HandledLine(cfg, s);
      case _ => hide Fits; SameLine(s, s');
    }
  }

  lemma SentLine(s: State, s': State)
    requires s.q.ready != [] && s'.q.ready == Without(s.q.ready, 0) && s'.q.waiting == s.q.waiting
    ensures Line(s) == [s.q.ready[0].client] + Line(s')
  {
    assert Clients(s.q.ready) == [s.q.ready[0].client] + Clients(s'.q.ready);
  }

  lemma SameLine(s: State, s': State)
    requires s'.q.ready == s.q.ready && s'.q.waiting == s.q.waiting
    ensures Line(s') == Line(s)
  {
  }

  lemma HandledLine(cfg: Config, s: State)
    requires Fits(cfg, s) && Enabled(cfg, s, Handle) && OnlyAtBarrier(cfg, s)
    ensures OnlyAtBarrier(cfg, Handled(cfg, s))
    ensures Line(Handled(cfg, s)) == Line(s) + if FollowsUp(cfg, s, Handle) then [Replier(cfg, s)] else []
  {
    var c, s' := Replier(cfg, s), Handled(cfg, s);
    if FollowsUp(cfg, s, Handle) {
      var item := Item(c, History);
      assert s'.q.ready + s'.q.waiting == s.q.ready + s.q.waiting + [item];
      LineOf(s);
      LineOf(s');
      assert Clients(s.q.ready + s.q.waiting + [item]) == Clients(s.q.ready + s.q.waiting) + [c];
    } else {
      assert s'.q.ready == s.q.ready && s'.q.waiting == s.q.waiting;
    }
  }

  lemma LineOf(s: State)
    ensures Line(s) == Clients(s.q.ready + s.q.waiting)
  {
  }

  lemma InboxStep(cfg: Config, s: State, e: Event)
    requires Fits(cfg, s) && Enabled(cfg, s, e)
    ensures Inbox(s.q) + (if e.Finish? then [s.q.flying[e.index].client] else [])
            == (if e.Handle? then [Replier(cfg, s)] else []) + Inbox(Next(cfg, s, e).q)
  {
    hide Inbox;
    hide Fits;
    var q, q' := s.q, Next(cfg, s, e).q;
    match e {
      case Finish(i, output) => Arrived(q, q', Reply(q.flying[i].client, output));
      case Return => Moved(q, q');
      case Handle => Opened(q, q');
      case _ => Untouched(q, q');
    }
  }

  lemma Arrived(q: Queues, q': Queues, x: Reply)
    requires q'.responses == q.responses && q'.returning == q.returning + [x]
    ensures Inbox(q') == Inbox(q) + [x.client]
  {
    RepliersNext(q.returning, x);
  }

  lemma Moved(q: Queues, q': Queues)
    requires q.returning != [] && q'.returning == q.returning[1..] && q'.responses == q.responses + [q.returning[0]]
    ensures Inbox(q') == Inbox(q)
  {
    RepliersNext(q.responses, q.returning[0]);
    RepliersFirst(q.returning);
    hide Repliers;
    Regrouped(Repliers(q.responses), [q.returning[0].client], Repliers(q'.returning));
  }

  lemma RepliersNext(xs: seq<Reply>, x: Reply)
    ensures Repliers(xs + [x]) == Repliers(xs) + [x.client]
  {
  }

  lemma RepliersFirst(xs: seq<Reply>)
    requires xs != []
    ensures Repliers(xs) == [xs[0].client] + Repliers(xs[1..])
  {
  }

  lemma Regrouped(a: seq<nat>, b: seq<nat>, c: seq<nat>)
    ensures a + b + c == a + (b + c)
  {
  }

  lemma Opened(q: Queues, q': Queues)
    requires q.responses != [] && q'.responses == q.responses[1..] && q'.returning == q.returning
    ensures Inbox(q) == [q.responses[0].client] + Inbox(q')
  {
    RepliersFirst(q.responses);
  }

  lemma Untouched(q: Queues, q': Queues)
    requires q'.responses == q.responses && q'.returning == q.returning
    ensures Inbox(q') == Inbox(q)
  {
  }

  lemma PoolStep(cfg: Config, s: State, e: Event)
    requires Fits(cfg, s) && Enabled(cfg, s, e)
    ensures var s' := Next(cfg, s, e);
            if FollowsUp(cfg, s, e) then
              var asked := s'.log.asked[Replier(cfg, s)];
              s.r.pool == s'.r.pool + [asked[|asked| - 1]]
            else s'.r.pool == s.r.pool
  {
  }

  // ----- every run

  /** First come, first served: the requests sent, followed by those that wait, are the requests lined up, whether
      there is a barrier or not. */
  lemma {:induction false} RequestsAreSentInOrder(cfg: Config, es: seq<Event>)
    requires Run(cfg, es).Some? && cfg.policy.Fifo?
    ensures Sends(cfg, es) + Line(Run(cfg, es).value) == LinedUp(cfg, es)
    ensures OnlyAtBarrier(cfg, Run(cfg, es).value)
    decreases |es|
  {
    if es == [] {
      assert Clients(Initial(cfg).q.ready) == seq(|cfg.inputs|, i => i);
    } else {
      hide Line;
      hide Next;
      var init, e, s := es[..|es| - 1], es[|es| - 1], Prior(cfg, es);
      RequestsAreSentInOrder(cfg, init);
      LineStep(cfg, s, e);
      Shifted(Sends(cfg, init), Line(s), if FollowsUp(cfg, s, e) then [Replier(cfg, s)] else [],
              if e.Send? then [s.q.ready[e.index].client] else [], Line(Run(cfg, es).value));
    }
  }

  /** Responses are handled in the order in which the server gave them. */
  lemma {:induction false} ResponsesAreHandledInOrder(cfg: Config, es: seq<Event>)
    requires Run(cfg, es).Some?
    ensures Handlings(cfg, es) + Inbox(Run(cfg, es).value.q) == Answers(cfg, es)
    decreases |es|
  {
    if es != [] {
      hide Inbox;
      hide Next;
      var init, e, s := es[..|es| - 1], es[|es| - 1], Prior(cfg, es);
      ResponsesAreHandledInOrder(cfg, init);
      InboxStep(cfg, s, e);
      Shifted(Handlings(cfg, init), Inbox(s.q), if e.Finish? then [s.q.flying[e.index].client] else [],
              if e.Handle? then [Replier(cfg, s)] else [], Inbox(Run(cfg, es).value.q));
    }
  }

  lemma Shifted(done: seq<nat>, before: seq<nat>, joined: seq<nat>, left: seq<nat>, after: seq<nat>)
    requires before + joined == left + after
    ensures done + left + after == done + before + joined
  {
    assert done + left + after == done + (left + after);
    assert done + before + joined == done + (before + joined);
  }

  /** The questions are taken from the end of the list, and the pool is what is left. */
  ghost predicate FromTheEnd(all: seq<Tokens>, qs: seq<Tokens>, pool: seq<Tokens>)
  {
    && |qs| <= |all| && pool == all[..|all| - |qs|]
    && forall k :: 0 <= k < |qs| ==> qs[k] == all[|all| - 1 - k]
  }

  lemma TakenFromTheEnd(all: seq<Tokens>, qs: seq<Tokens>, pool: seq<Tokens>, rest: seq<Tokens>, q: Tokens)
    requires FromTheEnd(all, qs, pool) && pool == rest + [q]
    ensures FromTheEnd(all, qs + [q], rest)
  {
    assert rest == pool[..|pool| - 1] && q == pool[|pool| - 1];
  }

  /** The `k`-th follow-up question of a run, whoever gets it, is the `k`-th from the end of those that were drawn. */
  lemma {:induction false} QuestionsComeFromTheEnd(cfg: Config, es: seq<Event>)
    requires Run(cfg, es).Some?
    ensures FromTheEnd(cfg.questions, Questions(cfg, es), Run(cfg, es).value.r.pool)
    decreases |es|
  {
    if es != [] {
      hide Next;
      hide Run;
      hide FollowsUp;
      hide Fits;
      hide Enabled;
      hide FromTheEnd;
      var init, e, s, s' := es[..|es| - 1], es[|es| - 1], Prior(cfg, es), Run(cfg, es).value;
      QuestionsComeFromTheEnd(cfg, init);
      PoolStep(cfg, s, e);
      if FollowsUp(cfg, s, e) {
        TakenFromTheEnd(cfg.questions, Questions(cfg, init), s.r.pool, s'.r.pool, s.r.pool[|s.r.pool| - 1]);
      }
    }
  }
}
