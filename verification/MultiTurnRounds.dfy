/** What holds in every run of the multi-turn workload: the counters, the round barrier, the question pool, and
    the prompts. */
module MultiTurnRounds {
  import opened Options
  import opened Arithmetic
  import opened Places
  import opened MultiTurn
  import opened MultiTurnPlaces

  function Lengths(xs: seq<seq<Tokens>>): seq<nat>
  {
    seq(|xs|, c requires 0 <= c < |xs| => |xs[c]|)
  }

  function Capped(xs: seq<nat>, cap: nat): seq<nat>
  {
    seq(|xs|, c requires 0 <= c < |xs| => if xs[c] < cap then xs[c] else cap)
  }

  /** Every client is asked at least once, even if no rounds are wanted. */
  function Rounds(cfg: Config): nat
  {
    Max(cfg.rounds, 1)
  }

  // ----- counters

  ghost predicate Counted(cfg: Config, s: State)
  {
    && s.n.sent == s.n.completed + |s.q.flying| + |s.q.returning| + |s.q.responses| + s.log.lost
    && s.n.sent == Sum(Lengths(s.log.prompts))
    && s.n.completed == Sum(s.r.rounds)
    && s.n.shown == s.n.completed + Sum(s.log.fails) + |s.q.returning| + |s.q.responses|
    && Sum(s.log.fails) <= s.log.lost
    && s.n.sent <= s.n.completed + cfg.maxParallel
    && |s.q.returning| <= 1
  }

  lemma InitialCounted(cfg: Config)
    ensures Counted(cfg, Initial(cfg))
  {
    var n := |cfg.inputs|;
    SumZeros(n);
    assert Lengths(seq(n, _ => [])) == seq(n, _ => 0);
  }

  lemma HandledCounted(cfg: Config, s: State)
    requires Fits(cfg, s) && Counted(cfg, s) && s.q.responses != []
    ensures Counted(cfg, Handled(cfg, s))
  {
    var c := s.q.responses[0].client;
    assert s.q.responses[0] in s.q.returning + s.q.responses;
    if s.q.responses[0].output.None? {
      SumUpdate(s.log.fails, c, s.log.fails[c] + 1);
    } else {
      hide Handled;
      SumUpdate(s.r.rounds, c, s.r.rounds[c] + 1);
      HandledAnswer(cfg, s);
    }
  }

  /** What handling an answer does to the counters and to what they count. */
  lemma HandledAnswer(cfg: Config, s: State)
    requires Fits(cfg, s) && s.q.responses != [] && s.q.responses[0].output.Some? && s.q.responses[0].client < |s.r.rounds|
    ensures var c, s' := s.q.responses[0].client, Handled(cfg, s);
            && s'.r.rounds == s.r.rounds[c := s.r.rounds[c] + 1] && s'.n == s.n.(completed := s.n.completed + 1)
            && s'.q.responses == s.q.responses[1..] && s'.q.returning == s.q.returning && s'.q.flying == s.q.flying
            && s'.log.prompts == s.log.prompts && s'.log.fails == s.log.fails && s'.log.lost == s.log.lost
  {
  }

  lemma NextCounted(cfg: Config, s: State, e: Event)
    requires Fits(cfg, s) && Counted(cfg, s) && Enabled(cfg, s, e)
    ensures Counted(cfg, Next(cfg, s, e))
  {
    match e
    case Send(i) =>
      var x := s.q.ready[i];
      assert x in s.q.ready + s.q.flying + s.q.waiting;
      SumUpdate(Lengths(s.log.prompts), x.client, |s.log.prompts[x.client]| + 1);
      assert Lengths(Sent(s, i).log.prompts) == Lengths(s.log.prompts)[x.client := |s.log.prompts[x.client]| + 1];
    case Handle => HandledCounted(cfg, s);
    case _ =>
  }

  // ----- rounds, the barrier and the question pool

  /** How far a client has come, according to where it is. */
  ghost predicate Limited(cfg: Config, s: State, c: nat)
    requires c < |s.log.where| == |s.r.rounds| == |s.log.fails|
  {
    match s.log.where[c]
    case Done => s.r.rounds[c] == Rounds(cfg) && s.log.fails[c] == 0
    case Lost => s.r.rounds[c] < Rounds(cfg) && s.log.fails[c] <= 1 && s.log.lost > 0
    case _ => s.r.rounds[c] < Rounds(cfg) && s.log.fails[c] == 0
  }

  ghost predicate AllLimited(cfg: Config, s: State)
    requires |s.log.where| == |s.r.rounds| == |s.log.fails|
  {
    forall c :: 0 <= c < |s.log.where| ==> Limited(cfg, s, c)
  }

  /** With the barrier on, the whole workload is in round `p`: the clients at the barrier and those that are
      done have finished it, all others are still in it. */
  ghost predicate InRound(s: State, c: nat, p: nat)
    requires c < |s.log.where| == |s.r.rounds|
  {
    s.r.rounds[c] == if s.log.where[c] == Waiting || s.log.where[c] == Done then p + 1 else p
  }

  ghost predicate Phased(s: State, p: nat)
    requires |s.log.where| == |s.r.rounds|
  {
    forall c :: 0 <= c < |s.log.where| ==> InRound(s, c, p)
  }

  ghost predicate Gated(cfg: Config, s: State)
  {
    if cfg.barrier then cfg.inputs != [] ==> |s.q.waiting| < |cfg.inputs| else s.q.waiting == []
  }

  ghost predicate Stocked(cfg: Config, s: State)
  {
    && !s.t.poolError
    && |s.r.pool| + Sum(Capped(s.r.rounds, Rounds(cfg) - 1)) == |cfg.inputs| * Max(cfg.rounds - 1, 1)
  }

  lemma CappedStep(xs: seq<nat>, cap: nat, c: nat)
    requires c < |xs|
    ensures Sum(Capped(xs[c := xs[c] + 1], cap)) == Sum(Capped(xs, cap)) + if xs[c] < cap then 1 else 0
    ensures xs[c] < cap ==> Sum(Capped(xs, cap)) < |xs| * cap
  {
    var ys := Capped(xs, cap);
    var v := if xs[c] + 1 < cap then xs[c] + 1 else cap;
    SumUpdate(ys, c, v);
    assert Capped(xs[c := xs[c] + 1], cap) == ys[c := v];
    SumBound(ys, cap);
  }

  /** The pool of follow-up questions is never found empty. */
  lemma HandledStocked(cfg: Config, s: State)
    requires Fits(cfg, s) && AllLimited(cfg, s) && Located(s) && Stocked(cfg, s) && s.q.responses != []
    ensures Stocked(cfg, Handled(cfg, s))
    ensures s.q.responses[0].output.Some? && s.r.rounds[s.q.responses[0].client] + 1 < cfg.rounds ==> s.r.pool != []
  {
    var c := s.q.responses[0].client;
    assert Repliers(s.q.responses)[0] == c;
    CappedStep(s.r.rounds, Rounds(cfg) - 1, c);
  }

  /** What handling a response does to the other clients: at most, it opens the barrier for them. */
  lemma HandledOthers(cfg: Config, s: State, d: nat)
    requires Fits(cfg, s) && s.q.responses != [] && d < |s.log.where| && d != s.q.responses[0].client
    ensures var s' := Handled(cfg, s);
            && |s'.log.where| == |s'.r.rounds| == |s'.log.fails| == |s.log.where|
            && s'.r.rounds[d] == s.r.rounds[d] && s'.log.fails[d] == s.log.fails[d] && s'.log.lost >= s.log.lost
            && (s'.log.where[d] == s.log.where[d] || (s.log.where[d] == Waiting && s'.log.where[d] == Ready))
  {
  }

  lemma HandledOwn(cfg: Config, s: State)
    requires Fits(cfg, s) && Located(s) && AllLimited(cfg, s) && Stocked(cfg, s) && s.q.responses != []
    ensures var s' := Handled(cfg, s);
            && |s'.log.where| == |s'.r.rounds| == |s'.log.fails| == |s.log.where|
            && s.q.responses[0].client < |s.log.where| && Limited(cfg, s', s.q.responses[0].client)
  {
    var c := s.q.responses[0].client;
    assert Repliers(s.q.responses)[0] == c;
    assert Limited(cfg, s, c);
    HandledStocked(cfg, s);
  }

  /** Handling a response keeps clients within their rounds. */
  lemma HandledLimited(cfg: Config, s: State)
    requires Fits(cfg, s) && Located(s) && AllLimited(cfg, s) && Stocked(cfg, s) && s.q.responses != []
    ensures var s' := Handled(cfg, s);
            |s'.log.where| == |s'.r.rounds| == |s'.log.fails| == |s.log.where| && AllLimited(cfg, s')
  {
    var c, s' := s.q.responses[0].client, Handled(cfg, s);
    HandledOwn(cfg, s);
    forall d | 0 <= d < |s.log.where|
      ensures Limited(cfg, s', d)
    {
      if d != c {
        assert Limited(cfg, s, d);
        HandledOthers(cfg, s, d);
      }
    }
  }

  lemma NextLimited(cfg: Config, s: State, e: Event)
    requires Fits(cfg, s) && Located(s) && AllLimited(cfg, s) && Stocked(cfg, s) && Enabled(cfg, s, e)
    ensures Fits(cfg, Next(cfg, s, e)) && AllLimited(cfg, Next(cfg, s, e))
  {
    NextFits(cfg, s, e);
    var s' := Next(cfg, s, e);
    if e.Handle? {
      HandledLimited(cfg, s);
    } else {
      assert forall i :: 0 <= i < |s.q.ready| ==> Clients(s.q.ready)[i] == s.q.ready[i].client;
      assert forall i :: 0 <= i < |s.q.flying| ==> Clients(s.q.flying)[i] == s.q.flying[i].client;
      assert forall i :: 0 <= i < |s.q.returning| ==> Repliers(s.q.returning)[i] == s.q.returning[i].client;
      forall d | 0 <= d < |s'.log.where|
        ensures Limited(cfg, s', d)
      {
        assert Limited(cfg, s, d);
      }
    }
  }

  // ----- the barrier

  /** The response to be handled is the last one of its round. */
  ghost predicate BarrierOpens(cfg: Config, s: State)
    requires Fits(cfg, s) && s.q.responses != []
  {
    && s.q.responses[0].output.Some? && s.r.rounds[s.q.responses[0].client] + 1 < cfg.rounds
    && |s.q.waiting| + 1 == |cfg.inputs|
  }

  /** With the barrier on, handling a response either stays in round `p` or, once the last client has arrived,
      moves everybody to the next round. */
  lemma HandledPhased(cfg: Config, s: State, p: nat)
    requires Fits(cfg, s) && Located(s) && AllLimited(cfg, s) && Stocked(cfg, s) && Gated(cfg, s)
    requires cfg.barrier && s.q.responses != [] && Phased(s, p)
    ensures var s' := Handled(cfg, s);
            && |s'.log.where| == |s'.r.rounds|
            && Gated(cfg, s') && Phased(s', if BarrierOpens(cfg, s) then p + 1 else p)
  {
    var c, s' := s.q.responses[0].client, Handled(cfg, s);
    assert Repliers(s.q.responses)[0] == c;
    assert InRound(s, c, p) && Limited(cfg, s, c);
    HandledStocked(cfg, s);
    if s.q.responses[0].output.Some? && s.r.rounds[c] + 1 < cfg.rounds {
      HandledAsks(cfg, s, p);
    } else {
      forall d | 0 <= d < |s.log.where|
        ensures InRound(s', d, p)
      {
        assert InRound(s, d, p);
      }
    }
  }

  lemma HandledAsks(cfg: Config, s: State, p: nat)
    requires Fits(cfg, s) && Located(s) && AllLimited(cfg, s) && Stocked(cfg, s) && Gated(cfg, s)
    requires cfg.barrier && s.q.responses != [] && Phased(s, p)
    requires s.q.responses[0].output.Some? && s.r.pool != []
    requires s.q.responses[0].client < |s.r.rounds| && s.r.rounds[s.q.responses[0].client] + 1 < cfg.rounds
    ensures var s' := Handled(cfg, s);
            && |s'.log.where| == |s'.r.rounds|
            && Gated(cfg, s') && Phased(s', if BarrierOpens(cfg, s) then p + 1 else p)
  {
    var c, s' := s.q.responses[0].client, Handled(cfg, s);
    var asked := Asked(cfg, Recorded(s), c);
    assert Repliers(s.q.responses)[0] == c;
    TakenLocated(s, Recorded(s), Done);
    AskedLocated(cfg, Recorded(s), c);
    assert Phased(asked, p) by {
      forall d | 0 <= d < |s.log.where|
        ensures InRound(asked, d, p)
      {
        assert InRound(s, d, p);
      }
    }
    if |asked.q.waiting| == |cfg.inputs| {
      Full(Clients(asked.q.waiting), asked.log.where, Waiting);
      var q := p + 1;
      forall d | 0 <= d < |s.log.where|
        ensures InRound(s', d, q)
      {
        assert InRound(asked, d, p);
      }
    }
  }
}
