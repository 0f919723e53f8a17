/** What lost requests do to the multi-turn workload. */
module MultiTurnLosses {
  import opened Options
  import opened MultiTurn
  import opened MultiTurnPlaces
  import opened MultiTurnRounds
  import opened MultiTurnTheorems

  /** A request that came to nothing: whose it was, in which round, and whether it was reported as a failed response
      or never came back at all. */
  datatype Loss = Loss(client: nat, round: nat, reported: bool)

  ghost function LossOf(cfg: Config, s: State, e: Event): seq<Loss>
    requires Fits(cfg, s) && Enabled(cfg, s, e)
  {
    match e
    case Abandon(i) =>
      assert s.q.flying[i] in s.q.ready + s.q.flying + s.q.waiting;
      [Loss(s.q.flying[i].client, s.r.rounds[s.q.flying[i].client], false)]
    case Handle =>
      assert s.q.responses[0] in s.q.returning + s.q.responses;
      if s.q.responses[0].output.None? then [Loss(s.q.responses[0].client, s.r.rounds[s.q.responses[0].client], true)]
      else []
    case _ => []
  }

  /** The losses of a run, in order. */
  ghost function Losses(cfg: Config, es: seq<Event>): seq<Loss>
    requires Run(cfg, es).Some?
    decreases |es|
  {
    if es == [] then []
    else
      var before := es[..|es| - 1];
      Losses(cfg, before) + LossOf(cfg, Run(cfg, before).value, es[|es| - 1])
  }

  /** What a client's place says about its loss. */
  ghost predicate Explained(s: State, ls: seq<Loss>, c: nat)
    requires c < |s.log.where| == |s.r.rounds| == |s.log.fails|
  {
    && (forall l :: l in ls && l.client == c ==>
          s.log.where[c] == Lost && l.round == s.r.rounds[c] && (l.reported <==> s.log.fails[c] == 1))
    && (s.log.where[c] == Lost ==> Loss(c, s.r.rounds[c], s.log.fails[c] == 1) in ls)
  }

  /** Exactly the lost clients have a loss, in the round they had come to. */
  ghost predicate Noted(cfg: Config, s: State, ls: seq<Loss>)
    requires Fits(cfg, s)
  {
    && |ls| == s.log.lost
    && (forall l :: l in ls ==> l.client < |cfg.inputs|)
    && (forall c :: 0 <= c < |cfg.inputs| ==> Explained(s, ls, c))
  }

  /** A client that is not touched by a step stays explained. */
  lemma StaysExplained(s: State, s': State, ls: seq<Loss>, more: seq<Loss>, c: nat)
    requires c < |s.log.where| == |s.r.rounds| == |s.log.fails| && Explained(s, ls, c)
    requires |s'.log.where| == |s'.r.rounds| == |s'.log.fails| == |s.log.where|
    requires s.log.where[c] == Lost ==>
             s'.log.where[c] == Lost && s'.r.rounds[c] == s.r.rounds[c] && s'.log.fails[c] == s.log.fails[c]
    requires s.log.where[c] != Lost ==> s'.log.where[c] != Lost
    requires forall l :: l in more ==> l.client != c
    ensures Explained(s', ls + more, c)
  {
  }

  lemma HandleNoted(cfg: Config, s: State, ls: seq<Loss>, c: nat)
    requires Fits(cfg, s) && Located(s) && AllLimited(cfg, s) && Noted(cfg, s, ls) && s.q.responses != []
    requires Fits(cfg, Handled(cfg, s)) && Enabled(cfg, s, Handle) && c < |cfg.inputs|
    ensures Explained(Handled(cfg, s), ls + LossOf(cfg, s, Handle), c)
  {
    var d := s.q.responses[0].client;
    assert Repliers(s.q.responses)[0] == d;
    assert Limited(cfg, s, c) && Explained(s, ls, c);
    if c != d {
      HandledOthers(cfg, s, c);
      StaysExplained(s, Handled(cfg, s), ls, LossOf(cfg, s, Handle), c);
    }
  }

  lemma NextNoted(cfg: Config, s: State, e: Event, ls: seq<Loss>)
    requires Good(cfg, s) && Noted(cfg, s, ls) && Enabled(cfg, s, e) && Fits(cfg, Next(cfg, s, e))
    ensures Noted(cfg, Next(cfg, s, e), ls + LossOf(cfg, s, e))
  {
    var s', more := Next(cfg, s, e), LossOf(cfg, s, e);
    forall c | 0 <= c < |cfg.inputs|
      ensures Explained(s', ls + more, c)
    {
      if e.Handle? {
        HandleNoted(cfg, s, ls, c);
      } else {
        OthersNoted(cfg, s, e, ls, c);
      }
    }
    LostGrows(cfg, s, e);
    ClientsOfLosses(cfg, s, e);
  }

  lemma LostGrows(cfg: Config, s: State, e: Event)
    requires Fits(cfg, s) && Enabled(cfg, s, e)
    ensures Next(cfg, s, e).log.lost == s.log.lost + |LossOf(cfg, s, e)|
  {
  }

  lemma ClientsOfLosses(cfg: Config, s: State, e: Event)
    requires Fits(cfg, s) && Enabled(cfg, s, e)
    ensures forall l :: l in LossOf(cfg, s, e) ==> l.client < |cfg.inputs|
  {
  }

  lemma OthersNoted(cfg: Config, s: State, e: Event, ls: seq<Loss>, c: nat)
    requires Fits(cfg, s) && Located(s) && AllLimited(cfg, s) && c < |cfg.inputs| && Explained(s, ls, c)
    requires Enabled(cfg, s, e) && !e.Handle? && Fits(cfg, Next(cfg, s, e))
    ensures Explained(Next(cfg, s, e), ls + LossOf(cfg, s, e), c)
  {
    assert forall i :: 0 <= i < |s.q.ready| ==> Clients(s.q.ready)[i] == s.q.ready[i].client;
    assert forall i :: 0 <= i < |s.q.flying| ==> Clients(s.q.flying)[i] == s.q.flying[i].client;
    assert forall i :: 0 <= i < |s.q.returning| ==> Repliers(s.q.returning)[i] == s.q.returning[i].client;
    assert Limited(cfg, s, c);
  }

  lemma {:induction false} RunNoted(cfg: Config, es: seq<Event>)
    requires ValidConfig(cfg) && Run(cfg, es).Some?
    ensures Noted(cfg, Run(cfg, es).value, Losses(cfg, es))
    decreases |es|
  {
    if es != [] {
      var before := es[..|es| - 1];
      RunNoted(cfg, before);
      RunGood(cfg, before);
      NextNoted(cfg, Run(cfg, before).value, es[|es| - 1], Losses(cfg, before));
    }
  }

  // ----- what losses do

  /** A loss that does no harm: a failed response in its client's last round. */
  predicate Harmless(cfg: Config, l: Loss)
  {
    l.reported && l.round == cfg.rounds - 1
  }

  /** At rest, with losses to spare, every client is at the barrier, done or lost. */
  lemma RestingClients(cfg: Config, s: State, c: nat)
    requires Good(cfg, s) && Quiet(cfg, s) && s.t.sending && s.t.handling && s.log.lost < cfg.maxParallel
    requires c < |cfg.inputs|
    ensures s.log.where[c] == Waiting || s.log.where[c] == Done || s.log.where[c] == Lost
  {
    QuietQueues(cfg, s);
    assert Clients(s.q.ready) == [] && Clients(s.q.flying) == [];
    assert Repliers(s.q.returning) == [] && Repliers(s.q.responses) == [];
  }

  /** If every loss is harmless nobody is left at the barrier. */
  lemma HarmlessFinish(cfg: Config, s: State, ls: seq<Loss>, c: nat)
    requires Good(cfg, s) && Quiet(cfg, s) && s.t.sending && s.t.handling && s.log.lost < cfg.maxParallel
    requires Noted(cfg, s, ls) && (forall l :: l in ls ==> Harmless(cfg, l)) && c < |cfg.inputs| && cfg.rounds >= 1
    ensures s.r.rounds[c] + s.log.fails[c] == cfg.rounds
  {
    assert Limited(cfg, s, c) && Explained(s, ls, c);
    RestingClients(cfg, s, c);
    NobodyStuck(cfg, s, ls, c);
  }

  lemma NobodyStuck(cfg: Config, s: State, ls: seq<Loss>, c: nat)
    requires Good(cfg, s) && Quiet(cfg, s) && s.t.sending && s.t.handling && s.log.lost < cfg.maxParallel
    requires Noted(cfg, s, ls) && (forall l :: l in ls ==> Harmless(cfg, l)) && c < |cfg.inputs| && cfg.rounds >= 1
    ensures s.log.where[c] != Waiting
  {
    if s.log.where[c] == Waiting {
      assert c in Clients(s.q.waiting);
      assert s.q.waiting != [] && cfg.barrier;
      var p :| Phased(s, p);
      forall d | 0 <= d < |cfg.inputs|
        ensures s.log.where[d] == Waiting || s.log.where[d] == Done
      {
        RestingClients(cfg, s, d);
        assert InRound(s, c, p) && InRound(s, d, p) && Limited(cfg, s, c) && Explained(s, ls, d);
      }
      NobodyWaitsForever(cfg, s);
    }
  }

  /** At rest, the sender can leave its loop exactly if there were fewer losses than requests allowed in parallel and
      every one of them was a failed response in its client's last round.  Otherwise it waits forever. */
  lemma SenderLeavesIff(cfg: Config, es: seq<Event>)
    requires ValidConfig(cfg) && cfg.rounds >= 1 && Run(cfg, es).Some?
    requires var s := Run(cfg, es).value; s.t.sending && s.t.handling && Quiet(cfg, s)
    ensures Enabled(cfg, Run(cfg, es).value, StopSending)
            <==> |Losses(cfg, es)| < cfg.maxParallel && forall l :: l in Losses(cfg, es) ==> Harmless(cfg, l)
  {
    hide Run;
    hide Losses;
    RunGood(cfg, es);
    RunNoted(cfg, es);
    LeavesIff(cfg, Run(cfg, es).value, Losses(cfg, es));
  }

  lemma LeavesIff(cfg: Config, s: State, ls: seq<Loss>)
    requires Good(cfg, s) && Quiet(cfg, s) && s.t.sending && s.t.handling && Noted(cfg, s, ls) && cfg.rounds >= 1
    ensures Enabled(cfg, s, StopSending) <==> |ls| < cfg.maxParallel && forall l :: l in ls ==> Harmless(cfg, l)
  {
    QuietQueues(cfg, s);
    ShownIsTotalIff(cfg, s);
    if Enabled(cfg, s, StopSending) {
      forall l | l in ls
        ensures Harmless(cfg, l)
      {
        assert Limited(cfg, s, l.client) && Explained(s, ls, l.client);
      }
    } else if |ls| < cfg.maxParallel && forall l :: l in ls ==> Harmless(cfg, l) {
      forall c | 0 <= c < |cfg.inputs|
        ensures s.r.rounds[c] + s.log.fails[c] == cfg.rounds
      {
        HarmlessFinish(cfg, s, ls, c);
      }
    }
  }

  /** With the barrier on, one loss before the last round stops everybody: at rest all other clients that are not lost
      themselves have finished that round and wait at the barrier. */
  lemma EarlyLossStopsAll(cfg: Config, es: seq<Event>, l: Loss, c: nat)
    requires ValidConfig(cfg) && cfg.barrier && cfg.rounds >= 1 && Run(cfg, es).Some?
    requires var s := Run(cfg, es).value; s.t.sending && s.t.handling && Quiet(cfg, s)
    requires |Losses(cfg, es)| < cfg.maxParallel && l in Losses(cfg, es) && l.round < cfg.rounds - 1 && c < |cfg.inputs|
    ensures var s := Run(cfg, es).value;
            if s.log.where[c] == Lost then s.r.rounds[c] == l.round
            else s.log.where[c] == Waiting && s.r.rounds[c] == l.round + 1
  {
    hide Run;
    hide Losses;
    RunGood(cfg, es);
    RunNoted(cfg, es);
    var s, ls := Run(cfg, es).value, Losses(cfg, es);
    RestingClients(cfg, s, c);
    var p :| Phased(s, p);
    assert InRound(s, c, p) && InRound(s, l.client, p) && Limited(cfg, s, c);
    assert Explained(s, ls, l.client);
  }
}
