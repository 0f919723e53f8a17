/** The promises of the multi-turn workload, over all interleavings. */
module MultiTurnTheorems {
  import opened Arithmetic
  import opened Places
  import opened MultiTurn
  import opened MultiTurnPlaces
  import opened MultiTurnRounds

  // ----- what the prompts are

  /** The prompt of round `k`: the opening prompt, and then each answer with the question that followed it. */
  function Talk(first: Tokens, outputs: seq<Tokens>, asked: seq<Tokens>, k: nat): Tokens
    requires k <= |outputs| && k <= |asked|
  {
    if k == 0 then first else Talk(first, outputs, asked, k - 1) + outputs[k - 1] + asked[k - 1]
  }

  lemma {:induction false} TalkGrows(first: Tokens, outputs: seq<Tokens>, asked: seq<Tokens>, o: seq<Tokens>, a: seq<Tokens>,
                                     k: nat)
    requires k <= |outputs| && k <= |asked|
    ensures Talk(first, outputs + o, asked + a, k) == Talk(first, outputs, asked, k)
  {
    if k > 0 {
      TalkGrows(first, outputs, asked, o, a, k - 1);
    }
  }

  predicate Underway(p: Place)
  {
    p == Flying || p == Returning || p == Answered || p == Lost
  }

  /** One conversation after `k` rounds: what was answered and asked, what was sent, and the history. */
  ghost predicate Talked(first: Tokens, k: nat, p: Place, o: seq<Tokens>, a: seq<Tokens>, sent: seq<Tokens>, history: Tokens)
  {
    && |o| == k
    && |a| + (if p == Done then 1 else 0) == k
    && |sent| == (if Underway(p) then k + 1 else k)
    && (forall j :: 0 <= j < |sent| ==> sent[j] == Talk(first, o, a, j))
    && history == if p == Done then Talk(first, o, a, k - 1) + o[k - 1] else Talk(first, o, a, k)
  }

  ghost predicate Conversed(cfg: Config, s: State, c: nat)
    requires Fits(cfg, s) && c < |cfg.inputs|
  {
    Talked(cfg.inputs[c], s.r.rounds[c], s.log.where[c], s.log.outputs[c], s.log.asked[c], s.log.prompts[c], s.r.histories[c])
  }

  lemma TalkedAnswer(first: Tokens, k: nat, p: Place, o: seq<Tokens>, a: seq<Tokens>, sent: seq<Tokens>, history: Tokens,
                     output: Tokens)
    requires Talked(first, k, p, o, a, sent, history) && Underway(p)
    ensures Talked(first, k + 1, Done, o + [output], a, sent, history + output)
  {
    assert a + [] == a;
    forall j | 0 <= j <= |a|
      ensures Talk(first, o + [output], a, j) == Talk(first, o, a, j)
    {
      TalkGrows(first, o, a, [output], [], j);
    }
  }

  lemma TalkedQuestion(first: Tokens, k: nat, p: Place, o: seq<Tokens>, a: seq<Tokens>, sent: seq<Tokens>, history: Tokens,
                       question: Tokens)
    requires Talked(first, k, Done, o, a, sent, history) && k > 0 && (p == Waiting || p == Ready)
    ensures Talked(first, k, p, o, a + [question], sent, history + question)
  {
    forall j | 0 <= j <= |a|
      ensures Talk(first, o, a + [question], j) == Talk(first, o, a, j)
    {
      TalkGrowsQuestion(first, o, a, question, j);
    }
    assert Talk(first, o, a + [question], k) == Talk(first, o, a, k - 1) + o[k - 1] + question;
  }

  lemma TalkGrowsQuestion(first: Tokens, o: seq<Tokens>, a: seq<Tokens>, question: Tokens, j: nat)
    requires j <= |o| && j <= |a|
    ensures Talk(first, o, a + [question], j) == Talk(first, o, a, j)
  {
    assert o + [] == o;
    TalkGrows(first, o, a, [], [question], j);
  }

  /** A request with a list of its own carries what its client's history holds. */
  ghost predicate Same(s: State, x: Item)
  {
    x.payload.Own? ==> x.client < |s.r.histories| && x.payload.tokens == s.r.histories[x.client]
  }

  ghost predicate AllConversed(cfg: Config, s: State)
    requires Fits(cfg, s)
  {
    && (forall c :: 0 <= c < |cfg.inputs| ==> Conversed(cfg, s, c))
    && (forall x :: x in s.q.ready + s.q.flying + s.q.waiting ==> Same(s, x))
  }

  /** Between two steps a client has at most one request, and as long as it is outstanding nobody touches the
      list it carries: the server may read the prompt at any time. */
  lemma OutstandingPromptIsFixed(cfg: Config, s: State, e: Event, x: Item)
    requires Fits(cfg, s) && Located(s) && Enabled(cfg, s, e)
    requires x in s.q.ready + s.q.flying + s.q.waiting
    ensures x.client < |s.r.histories| == |Next(cfg, s, e).r.histories|
    ensures Prompt(Next(cfg, s, e).r.histories, x) == Prompt(s.r.histories, x)
    ensures Next(cfg, s, e).r.histories[x.client] == s.r.histories[x.client]
  {
    OutstandingPlace(s, x);
    if e.Handle? {
      assert Repliers(s.q.responses)[0] == s.q.responses[0].client;
      HandledHistories(cfg, s, x.client);
    }
  }

  lemma OutstandingPlace(s: State, x: Item)
    requires Located(s) && x in s.q.ready + s.q.flying + s.q.waiting
    ensures x.client < |s.log.where| && s.log.where[x.client] != Answered
  {
    if x in s.q.ready {
      var i :| 0 <= i < |s.q.ready| && s.q.ready[i] == x;
      assert Clients(s.q.ready)[i] == x.client;
    } else if x in s.q.flying {
      var i :| 0 <= i < |s.q.flying| && s.q.flying[i] == x;
      assert Clients(s.q.flying)[i] == x.client;
    } else {
      var i :| 0 <= i < |s.q.waiting| && s.q.waiting[i] == x;
      assert Clients(s.q.waiting)[i] == x.client;
    }
  }

  lemma HandledHistories(cfg: Config, s: State, d: nat)
    requires Fits(cfg, s) && s.q.responses != [] && d < |s.r.histories| && d != s.q.responses[0].client
    ensures |Handled(cfg, s).r.histories| == |s.r.histories| && Handled(cfg, s).r.histories[d] == s.r.histories[d]
  {
  }

  lemma NextSame(cfg: Config, s: State, e: Event)
    requires Fits(cfg, s) && Located(s) && Enabled(cfg, s, e) && AllConversed(cfg, s)
    ensures var s' := Next(cfg, s, e); forall x :: x in s'.q.ready + s'.q.flying + s'.q.waiting ==> Same(s', x)
  {
    var s' := Next(cfg, s, e);
    forall x | x in s'.q.ready + s'.q.flying + s'.q.waiting && x.payload.Own?
      ensures Same(s', x)
    {
      OwnItemsStay(cfg, s, e, x);
      assert Same(s, x);
      OutstandingPromptIsFixed(cfg, s, e, x);
    }
  }

  /** Requests with a list of their own are made before the start only. */
  lemma OwnItemsStay(cfg: Config, s: State, e: Event, x: Item)
    requires Fits(cfg, s) && Enabled(cfg, s, e) && x.payload.Own?
    requires var s' := Next(cfg, s, e); x in s'.q.ready + s'.q.flying + s'.q.waiting
    ensures x in s.q.ready + s.q.flying + s.q.waiting
  {
  }

  lemma SentConversed(cfg: Config, s: State, i: nat, c: nat)
    requires Fits(cfg, s) && Located(s) && AllConversed(cfg, s) && i < |s.q.ready| && c < |cfg.inputs|
    requires Fits(cfg, Sent(s, i))
    ensures Conversed(cfg, Sent(s, i), c)
  {
    hide Talk;
    var x := s.q.ready[i];
    assert Clients(s.q.ready)[i] == x.client;
    assert x in s.q.ready + s.q.flying + s.q.waiting;
    assert Same(s, x);
    assert Conversed(cfg, s, c);
  }

  lemma RecordedConversed(cfg: Config, s: State, c: nat)
    requires Fits(cfg, s) && Located(s) && AllConversed(cfg, s) && s.q.responses != [] && c < |cfg.inputs|
    requires s.q.responses[0].output.Some? && s.q.responses[0].client < |s.log.where| && Fits(cfg, Recorded(s))
    ensures Conversed(cfg, Recorded(s), c)
  {
    assert Conversed(cfg, s, c);
    if c == s.q.responses[0].client {
      assert Repliers(s.q.responses)[0] == c;
      TalkedAnswer(cfg.inputs[c], s.r.rounds[c], s.log.where[c], s.log.outputs[c], s.log.asked[c], s.log.prompts[c],
                   s.r.histories[c], s.q.responses[0].output.value);
    }
  }

  lemma AskedConversed(cfg: Config, s: State, d: nat, c: nat)
    requires Fits(cfg, s) && d < |cfg.inputs| && c < |cfg.inputs| && s.r.pool != [] && s.log.where[d] == Done
    requires s.r.rounds[d] > 0 && Conversed(cfg, s, c) && Fits(cfg, Asked(cfg, s, d))
    ensures Conversed(cfg, Asked(cfg, s, d), c)
  {
    if c == d {
      TalkedQuestion(cfg.inputs[c], s.r.rounds[c], Asked(cfg, s, d).log.where[c], s.log.outputs[c], s.log.asked[c],
                     s.log.prompts[c], s.r.histories[c], s.r.pool[|s.r.pool| - 1]);
    }
  }

  lemma ReleasedConversed(cfg: Config, s: State, c: nat)
    requires Fits(cfg, s) && c < |cfg.inputs| && Conversed(cfg, s, c) && Fits(cfg, Released(s))
    ensures Conversed(cfg, Released(s), c)
  {
  }

  lemma HandledConversed(cfg: Config, s: State, c: nat)
    requires Fits(cfg, s) && Located(s) && AllConversed(cfg, s) && AllLimited(cfg, s) && Stocked(cfg, s)
    requires s.q.responses != [] && c < |cfg.inputs| && Fits(cfg, Handled(cfg, s))
    ensures Conversed(cfg, Handled(cfg, s), c)
  {
    var d := s.q.responses[0].client;
    assert Repliers(s.q.responses)[0] == d;
    assert Conversed(cfg, s, c);
    HandledStocked(cfg, s);
    if s.q.responses[0].output.Some? {
      RecordedFits(cfg, s);
      RecordedConversed(cfg, s, c);
      if s.r.rounds[d] + 1 < cfg.rounds {
        FollowedUpConversed(cfg, s, Recorded(s), d, c);
      }
    }
  }

  lemma FollowedUpConversed(cfg: Config, s: State, recorded: State, d: nat, c: nat)
    requires Fits(cfg, s) && s.q.responses != [] && s.q.responses[0].output.Some? && s.r.pool != []
    requires d == s.q.responses[0].client && d < |cfg.inputs| && s.r.rounds[d] + 1 < cfg.rounds
    requires recorded == Recorded(s) && Fits(cfg, recorded) && c < |cfg.inputs| && Conversed(cfg, recorded, c)
    requires Fits(cfg, Handled(cfg, s))
    ensures Conversed(cfg, Handled(cfg, s), c)
  {
    AskedFits(cfg, recorded, d);
    AskedConversed(cfg, recorded, d, c);
    var asked := Asked(cfg, recorded, d);
    if cfg.barrier && |asked.q.waiting| == |cfg.inputs| {
      ReleasedConversed(cfg, asked, c);
    }
  }

  lemma RecordedFits(cfg: Config, s: State)
    requires Fits(cfg, s) && s.q.responses != [] && s.q.responses[0].output.Some?
    requires s.q.responses[0].client < |s.log.where|
    ensures Fits(cfg, Recorded(s))
  {
    assert forall x :: x in s.q.returning + s.q.responses[1..] ==> x in s.q.returning + s.q.responses;
  }

  lemma AskedFits(cfg: Config, s: State, c: nat)
    requires Fits(cfg, s) && c < |cfg.inputs| && s.r.pool != []
    ensures Fits(cfg, Asked(cfg, s, c))
  {
    var s' := Asked(cfg, s, c);
    assert forall x :: x in s'.q.ready + s'.q.flying + s'.q.waiting
             ==> x in s.q.ready + s.q.flying + s.q.waiting || x == Item(c, History);
  }

  lemma NextConversedAt(cfg: Config, s: State, e: Event, c: nat)
    requires Fits(cfg, s) && Located(s) && AllConversed(cfg, s) && AllLimited(cfg, s) && Stocked(cfg, s)
    requires Enabled(cfg, s, e) && Fits(cfg, Next(cfg, s, e)) && c < |cfg.inputs|
    ensures Conversed(cfg, Next(cfg, s, e), c)
  {
    match e
    case Send(i) => SentConversed(cfg, s, i, c);
    case Handle => HandledConversed(cfg, s, c);
    case Finish(i, _) =>
      assert Clients(s.q.flying)[i] == s.q.flying[i].client;
      KeepsConversed(cfg, s, Next(cfg, s, e), c);
    case Abandon(i) =>
      assert Clients(s.q.flying)[i] == s.q.flying[i].client;
      KeepsConversed(cfg, s, Next(cfg, s, e), c);
    case Return =>
      assert Repliers(s.q.returning)[0] == s.q.returning[0].client;
      KeepsConversed(cfg, s, Next(cfg, s, e), c);
    case _ => KeepsConversed(cfg, s, Next(cfg, s, e), c);
  }

  lemma KeepsConversed(cfg: Config, s: State, s': State, c: nat)
    requires Fits(cfg, s) && Fits(cfg, s') && AllConversed(cfg, s) && c < |cfg.inputs|
    requires s'.r == s.r && s'.log.prompts == s.log.prompts && s'.log.outputs == s.log.outputs && s'.log.asked == s.log.asked
    requires s'.log.where[c] == s.log.where[c] || (Underway(s'.log.where[c]) && Underway(s.log.where[c]))
    ensures Conversed(cfg, s', c)
  {
    assert Conversed(cfg, s, c);
  }

  lemma NextConversed(cfg: Config, s: State, e: Event)
    requires Fits(cfg, s) && Located(s) && AllConversed(cfg, s) && AllLimited(cfg, s) && Stocked(cfg, s)
    requires Enabled(cfg, s, e) && Fits(cfg, Next(cfg, s, e))
    ensures AllConversed(cfg, Next(cfg, s, e))
  {
    NextSame(cfg, s, e);
    forall c | 0 <= c < |cfg.inputs|
      ensures Conversed(cfg, Next(cfg, s, e), c)
    {
      NextConversedAt(cfg, s, e, c);
    }
  }

  // ----- all runs

  ghost predicate Good(cfg: Config, s: State)
  {
    && Fits(cfg, s) && Located(s) && Counted(cfg, s) && AllLimited(cfg, s) && Stocked(cfg, s) && Gated(cfg, s)
    && (cfg.barrier ==> exists p :: Phased(s, p))
    && AllConversed(cfg, s)
  }

  lemma InitialGood(cfg: Config)
    requires ValidConfig(cfg)
    ensures Good(cfg, Initial(cfg))
  {
    hide AllConversed;
    hide Located;
    hide Counted;
    hide Stocked;
    InitialLocated(cfg);
    InitialCounted(cfg);
    InitialStocked(cfg);
    InitialConversed(cfg);
    assert Phased(Initial(cfg), 0);
  }

  lemma InitialStocked(cfg: Config)
    requires ValidConfig(cfg)
    ensures Stocked(cfg, Initial(cfg))
  {
    SumZeros(|cfg.inputs|);
    assert Capped(Initial(cfg).r.rounds, Rounds(cfg) - 1) == seq(|cfg.inputs|, _ => 0);
  }

  lemma InitialConversed(cfg: Config)
    ensures Fits(cfg, Initial(cfg)) && AllConversed(cfg, Initial(cfg)) && AllLimited(cfg, Initial(cfg))
  {
    InitialFits(cfg);
  }

  lemma NextPhased(cfg: Config, s: State, e: Event, p: nat)
    requires Fits(cfg, s) && Located(s) && AllLimited(cfg, s) && Stocked(cfg, s) && Gated(cfg, s)
    requires cfg.barrier && Phased(s, p) && Enabled(cfg, s, e) && Fits(cfg, Next(cfg, s, e))
    ensures exists p' :: Phased(Next(cfg, s, e), p')
  {
    var s' := Next(cfg, s, e);
    if e.Handle? {
      HandledPhased(cfg, s, p);
      assert Phased(s', if BarrierOpens(cfg, s) then p + 1 else p);
    } else {
      assert forall i :: 0 <= i < |s.q.ready| ==> Clients(s.q.ready)[i] == s.q.ready[i].client;
      assert forall i :: 0 <= i < |s.q.flying| ==> Clients(s.q.flying)[i] == s.q.flying[i].client;
      assert forall i :: 0 <= i < |s.q.returning| ==> Repliers(s.q.returning)[i] == s.q.returning[i].client;
      forall c | 0 <= c < |s.log.where|
        ensures InRound(s', c, p)
      {
        assert InRound(s, c, p);
      }
      assert Phased(s', p);
    }
  }

  lemma HandledGated(cfg: Config, s: State)
    requires Fits(cfg, s) && Gated(cfg, s) && s.q.responses != []
    ensures Gated(cfg, Handled(cfg, s))
  {
  }

  lemma NextGood(cfg: Config, s: State, e: Event)
    requires Good(cfg, s) && Enabled(cfg, s, e)
    ensures Good(cfg, Next(cfg, s, e))
  {
    NextFits(cfg, s, e);
    NextLocated(cfg, s, e);
    NextCounted(cfg, s, e);
    NextLimited(cfg, s, e);
    NextConversed(cfg, s, e);
    if e.Handle? {
      HandledStocked(cfg, s);
      HandledGated(cfg, s);
    }
    if cfg.barrier {
      var p :| Phased(s, p);
      NextPhased(cfg, s, e, p);
    }
  }

  lemma {:induction false} RunGood(cfg: Config, es: seq<Event>)
    requires ValidConfig(cfg) && Run(cfg, es).Some?
    ensures Good(cfg, Run(cfg, es).value)
    decreases |es|
  {
    if es == [] {
      InitialGood(cfg);
    } else {
      RunGood(cfg, es[..|es| - 1]);
      NextGood(cfg, Run(cfg, es[..|es| - 1]).value, es[|es| - 1]);
    }
  }

  /** With the barrier on, in every interleaving: clients are at most one round apart, and whenever a request of
      some round is ready or in flight, every client's responses of all earlier rounds have been handled. */
  lemma RoundBarrier(cfg: Config, es: seq<Event>, c: nat, d: nat)
    requires ValidConfig(cfg) && cfg.barrier && Run(cfg, es).Some? && c < |cfg.inputs| && d < |cfg.inputs|
    ensures var s := Run(cfg, es).value;
            && s.r.rounds[c] <= s.r.rounds[d] + 1
            && (c in Clients(s.q.ready) || c in Clients(s.q.flying) ==> s.r.rounds[c] <= s.r.rounds[d])
  {
    RunGood(cfg, es);
    var s := Run(cfg, es).value;
    var p :| Phased(s, p);
    assert InRound(s, c, p) && InRound(s, d, p);
  }

  /** In every interleaving the prompt of each round is the opening prompt followed by all answers and questions
      so far, the pool is never found empty, and no more than the allowed number of requests is out at once. */
  lemma EveryPromptIsTheConversation(cfg: Config, es: seq<Event>, c: nat, k: nat)
    requires ValidConfig(cfg) && Run(cfg, es).Some? && c < |cfg.inputs| && k < |Run(cfg, es).value.log.prompts[c]|
    ensures var log := Run(cfg, es).value.log;
            && k <= |log.outputs[c]| && k <= |log.asked[c]|
            && log.prompts[c][k] == Talk(cfg.inputs[c], log.outputs[c], log.asked[c], k)
            && (k > 0 ==> log.prompts[c][k] == log.prompts[c][k - 1] + log.outputs[c][k - 1] + log.asked[c][k - 1])
  {
    RunGood(cfg, es);
    assert Conversed(cfg, Run(cfg, es).value, c);
  }

  lemma BoundedLoad(cfg: Config, es: seq<Event>)
    requires ValidConfig(cfg) && Run(cfg, es).Some?
    ensures var s := Run(cfg, es).value;
            && !s.t.poolError
            && |s.q.flying| + |s.q.returning| + |s.q.responses| <= s.n.sent - s.n.completed <= cfg.maxParallel
  {
    RunGood(cfg, es);
  }

  // ----- progress

  /** No thread and no request can take a step. */
  ghost predicate Quiet(cfg: Config, s: State)
  {
    forall e: Event :: e.StopSending? || e.StopHandling? || !Enabled(cfg, s, e)
  }

  lemma QuietQueues(cfg: Config, s: State)
    requires Good(cfg, s) && Quiet(cfg, s) && s.t.sending && s.t.handling
    ensures s.q.flying == [] && s.q.returning == [] && s.q.responses == []
    ensures s.q.ready == [] || s.log.lost >= cfg.maxParallel
  {
    assert !Enabled(cfg, s, Return) && !Enabled(cfg, s, Handle);
    assert !Enabled(cfg, s, Abandon(0));
    assert !Enabled(cfg, s, Send(0));
  }

  /** Nobody is left at the barrier: the last one to arrive opens it. */
  lemma NobodyWaitsForever(cfg: Config, s: State)
    requires Good(cfg, s)
    requires forall c :: 0 <= c < |cfg.inputs| ==> s.log.where[c] == Waiting || s.log.where[c] == Done
    ensures forall c :: 0 <= c < |cfg.inputs| ==> s.log.where[c] == Done
  {
    if c :| 0 <= c < |cfg.inputs| && s.log.where[c] == Waiting {
      assert c in Clients(s.q.waiting);
      var p :| Phased(s, p);
      forall d | 0 <= d < |cfg.inputs|
        ensures d in Clients(s.q.waiting)
      {
        assert InRound(s, c, p) && InRound(s, d, p) && Limited(cfg, s, c) && Limited(cfg, s, d);
      }
      Pigeons(Clients(s.q.waiting), |cfg.inputs|);
    }
  }

  lemma NobodyLost(cfg: Config, s: State)
    requires Good(cfg, s) && s.log.lost == 0
    ensures Sum(s.log.fails) == 0 && forall c :: 0 <= c < |cfg.inputs| ==> s.log.where[c] != Lost
  {
    forall c | 0 <= c < |cfg.inputs|
      ensures s.log.where[c] != Lost
    {
      assert Limited(cfg, s, c);
    }
  }

  /** How many requests each client has sent is bounded by the rounds. */
  lemma SentBound(cfg: Config, s: State)
    requires Good(cfg, s)
    ensures s.n.sent <= |cfg.inputs| * Rounds(cfg)
    ensures s.n.sent == |cfg.inputs| * Rounds(cfg)
            <==> forall c :: 0 <= c < |cfg.inputs| ==> |s.log.prompts[c]| == Rounds(cfg)
  {
    var lens := Lengths(s.log.prompts);
    forall c | 0 <= c < |cfg.inputs|
      ensures lens[c] <= Rounds(cfg)
    {
      assert Limited(cfg, s, c) && Conversed(cfg, s, c);
    }
    SumBound(lens, Rounds(cfg));
    assert forall c :: 0 <= c < |cfg.inputs| ==> lens[c] == |s.log.prompts[c]|;
  }

  lemma AllDone(cfg: Config, s: State)
    requires Good(cfg, s) && cfg.rounds >= 1 && forall c :: 0 <= c < |cfg.inputs| ==> s.log.where[c] == Done
    ensures s.n.completed == Total(cfg) && forall c :: 0 <= c < |cfg.inputs| ==> s.r.rounds[c] == cfg.rounds
  {
    forall c | 0 <= c < |cfg.inputs|
      ensures s.r.rounds[c] == cfg.rounds
    {
      assert Limited(cfg, s, c);
    }
    SumBound(s.r.rounds, cfg.rounds);
  }

  lemma RestingPlaces(cfg: Config, s: State)
    requires Good(cfg, s) && Quiet(cfg, s) && s.t.sending && s.t.handling && s.log.lost == 0 && cfg.maxParallel >= 1
    ensures s.q.flying == [] && s.q.returning == [] && s.q.responses == []
    ensures forall c :: 0 <= c < |cfg.inputs| ==> s.log.where[c] == Waiting || s.log.where[c] == Done
  {
    QuietQueues(cfg, s);
    NobodyLost(cfg, s);
    assert Clients(s.q.ready) == [] && Clients(s.q.flying) == [];
    assert Repliers(s.q.returning) == [] && Repliers(s.q.responses) == [];
  }

  /** Without lost requests, the workload comes to rest only when every client has had all its rounds. */
  lemma RestIsCompletion(cfg: Config, es: seq<Event>)
    requires ValidConfig(cfg) && cfg.rounds >= 1 && cfg.maxParallel >= 1 && Run(cfg, es).Some?
    requires var s := Run(cfg, es).value; s.t.sending && s.t.handling && Quiet(cfg, s) && s.log.lost == 0
    ensures var s := Run(cfg, es).value;
            && s.n.completed == s.n.sent == s.n.shown == Total(cfg)
            && forall c :: 0 <= c < |cfg.inputs| ==> s.log.where[c] == Done && s.r.rounds[c] == cfg.rounds
  {
    RunGood(cfg, es);
    var s := Run(cfg, es).value;
    RestingPlaces(cfg, s);
    NobodyWaitsForever(cfg, s);
    AllDone(cfg, s);
    NobodyLost(cfg, s);
  }

  /** The number of steps that lead to a state. */
  function Steps(s: State): int
  {
    s.n.sent + 2 * s.n.shown - |s.q.returning| + s.n.completed + s.log.lost
    + (if s.t.sending then 0 else 1) + (if s.t.handling then 0 else 1)
  }

  lemma NextSteps(cfg: Config, s: State, e: Event)
    requires Fits(cfg, s) && AllLimited(cfg, s) && Located(s) && Stocked(cfg, s) && Enabled(cfg, s, e)
    ensures Steps(Next(cfg, s, e)) == Steps(s) + 1
  {
    if e.Handle? {
      HandledStocked(cfg, s);
    }
  }

  /** A request is sent, finishes, is returned and is handled, each at most once. */
  lemma {:induction false} RunLength(cfg: Config, es: seq<Event>)
    requires ValidConfig(cfg) && Run(cfg, es).Some?
    ensures |es| == Steps(Run(cfg, es).value)
    decreases |es|
  {
    if es != [] {
      var before := es[..|es| - 1];
      RunLength(cfg, before);
      RunGood(cfg, before);
      NextSteps(cfg, Run(cfg, before).value, es[|es| - 1]);
    }
  }

  /** Every run is finite, with or without lost requests. */
  lemma EveryRunIsFinite(cfg: Config, es: seq<Event>)
    requires ValidConfig(cfg) && Run(cfg, es).Some?
    ensures |es| <= 4 * (|cfg.inputs| * Rounds(cfg)) + 2
  {
    RunLength(cfg, es);
    RunGood(cfg, es);
    SentBound(cfg, Run(cfg, es).value);
  }

  /** The number of responses shown reaches the total exactly if every client got a response in every round. */
  lemma ShownIsTotalIff(cfg: Config, s: State)
    requires Good(cfg, s) && cfg.rounds >= 1 && s.q.returning == [] && s.q.responses == []
    ensures s.n.shown == Total(cfg)
            <==> forall c :: 0 <= c < |cfg.inputs| ==> s.r.rounds[c] + s.log.fails[c] == cfg.rounds
  {
    SumPlus(s.r.rounds, s.log.fails);
    var both := Plus(s.r.rounds, s.log.fails);
    forall c | 0 <= c < |both|
      ensures both[c] <= cfg.rounds
    {
      assert Limited(cfg, s, c);
    }
    SumBound(both, cfg.rounds);
    assert forall c :: 0 <= c < |both| ==> both[c] == s.r.rounds[c] + s.log.fails[c];
  }

  /** The handler stops on the progress count, which moves before a response is queued: without lost requests
      everything has been handled by then except possibly a response that is just being returned. */
  lemma HandlerMissesAtMostOne(cfg: Config, es: seq<Event>)
    requires ValidConfig(cfg) && cfg.rounds >= 1 && Run(cfg, es).Some?
    requires var s := Run(cfg, es).value; Enabled(cfg, s, StopHandling) && s.log.lost == 0
    ensures var s := Run(cfg, es).value;
            && s.n.completed + |s.q.returning| == Total(cfg) && |s.q.returning| <= 1
            && s.q.ready == [] && s.q.flying == [] && s.q.waiting == []
  {
    RunGood(cfg, es);
    var s := Run(cfg, es).value;
    NobodyLost(cfg, s);
    AllSent(cfg, s);
  }

  /** Once as many requests have been sent as there will ever be, no client has one left to send. */
  lemma AllSent(cfg: Config, s: State)
    requires Good(cfg, s) && cfg.rounds >= 1 && s.n.sent >= Total(cfg)
    ensures s.n.sent == Total(cfg) && s.q.ready == [] && s.q.waiting == []
  {
    SentBound(cfg, s);
    forall c | 0 <= c < |cfg.inputs|
      ensures s.log.where[c] != Ready && s.log.where[c] != Waiting
    {
      assert Limited(cfg, s, c) && Conversed(cfg, s, c);
    }
    NobodyAt(Clients(s.q.ready), s.log.where, Ready);
    NobodyAt(Clients(s.q.waiting), s.log.where, Waiting);
  }
}
