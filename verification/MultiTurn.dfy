/** The multi-turn workload: a sender thread that keeps requests in flight, a handler thread that turns
    responses into follow-up questions, and an optional barrier between rounds.  A run is any interleaving of
    the steps of the two threads and of the server. */
module MultiTurn {
  import opened Arithmetic
  import opened Sequences
  import opened Options

  type Tokens = seq<int>

  datatype Policy = Random | Fifo

  datatype Config = Config(inputs: seq<Tokens>, questions: seq<Tokens>, rounds: nat, maxParallel: nat, barrier: bool,
                           policy: Policy)

  /** The setup draws one opening prompt for each client, and the follow-up questions of all clients together. */
  ghost predicate ValidConfig(cfg: Config)
  {
    |cfg.questions| == |cfg.inputs| * Max(cfg.rounds - 1, 1)
  }

  /** What a request carries: its own list of tokens, or the history list of its client. */
  datatype Payload = Own(tokens: Tokens) | History

  datatype Item = Item(client: nat, payload: Payload)

  /** A response; `None` if the request did not succeed. */
  datatype Reply = Reply(client: nat, output: Option<Tokens>)

  datatype Queues = Queues(ready: seq<Item>, flying: seq<Item>, returning: seq<Reply>, responses: seq<Reply>,
                           waiting: seq<Item>)

  datatype Counters = Counters(sent: nat, completed: nat, shown: nat)

  datatype Records = Records(rounds: seq<nat>, histories: seq<Tokens>, pool: seq<Tokens>)

  datatype Threads = Threads(sending: bool, handling: bool, poolError: bool)

  datatype Place = Ready | Flying | Returning | Answered | Waiting | Done | Lost

  /** What an observer writes down: where each client is, which prompts the server received from it, which
      answers and follow-up questions were added to its history, and which requests came to nothing. */
  datatype Log = Log(where: seq<Place>, prompts: seq<seq<Tokens>>, outputs: seq<seq<Tokens>>,
                     asked: seq<seq<Tokens>>, fails: seq<nat>, lost: nat)

  datatype State = State(q: Queues, n: Counters, r: Records, t: Threads, log: Log)

  function Prompt(histories: seq<Tokens>, x: Item): Tokens
    requires x.client < |histories|
  {
    if x.payload.Own? then x.payload.tokens else histories[x.client]
  }

  function Initial(cfg: Config): State
  {
    var clients := |cfg.inputs|;
    State(Queues(seq(clients, i requires 0 <= i < clients => Item(i, Own(cfg.inputs[i]))), [], [], [], []),
          Counters(0, 0, 0),
          Records(seq(clients, _ => 0), cfg.inputs, cfg.questions),
          Threads(true, true, false),
          Log(seq(clients, _ => Ready), seq(clients, _ => []), seq(clients, _ => []), seq(clients, _ => []),
              seq(clients, _ => 0), 0))
  }

  datatype Event =
    | Send(index: nat)
    | Finish(index: nat, output: Option<Tokens>)
    | Abandon(index: nat)
    | Return
    | Handle
    | StopSending
    | StopHandling

  function Total(cfg: Config): nat
  {
    |cfg.inputs| * cfg.rounds
  }

  /** The queues hold requests of existing clients, and the records cover all clients. */
  ghost predicate Fits(cfg: Config, s: State)
  {
    && |s.r.rounds| == |s.r.histories| == |s.log.where| == |s.log.prompts| == |s.log.outputs| == |s.log.asked|
       == |s.log.fails| == |cfg.inputs|
    && (forall x :: x in s.q.ready + s.q.flying + s.q.waiting ==> x.client < |cfg.inputs|)
    && (forall x :: x in s.q.returning + s.q.responses ==> x.client < |cfg.inputs|)
  }

  /** Which steps can happen.  The sender runs the requests too, so while one of them is returning its response
      the sender does nothing else. */
  ghost predicate Enabled(cfg: Config, s: State, e: Event)
  {
    match e
    case Send(i) =>
      && s.t.sending && s.q.returning == [] && i < |s.q.ready| && (cfg.policy.Fifo? ==> i == 0)
      && s.n.sent - s.n.completed < cfg.maxParallel
    case Finish(i, _) => s.t.sending && s.q.returning == [] && i < |s.q.flying|
    case Abandon(i) => s.t.sending && s.q.returning == [] && i < |s.q.flying|
    case Return => s.q.returning != []
    case Handle => s.t.handling && s.q.responses != []
    case StopSending =>
      && s.t.sending && s.q.returning == []
      && s.n.sent - s.n.completed < cfg.maxParallel && s.n.shown == Total(cfg)
    case StopHandling => s.t.handling && s.q.responses == [] && s.n.shown == Total(cfg)
  }

  function Sent(s: State, i: nat): State
    requires i < |s.q.ready| && s.q.ready[i].client < |s.r.histories| == |s.log.where| == |s.log.prompts|
  {
    var x := s.q.ready[i];
    s.(q := s.q.(ready := Without(s.q.ready, i), flying := s.q.flying + [x]),
       n := s.n.(sent := s.n.sent + 1),
       log := s.log.(where := s.log.where[x.client := Flying],
                     prompts := s.log.prompts[x.client := s.log.prompts[x.client] + [Prompt(s.r.histories, x)]]))
  }

  function Finished(s: State, i: nat, output: Option<Tokens>): State
    requires i < |s.q.flying| && s.q.flying[i].client < |s.log.where|
  {
    var c := s.q.flying[i].client;
    s.(q := s.q.(flying := Without(s.q.flying, i), returning := s.q.returning + [Reply(c, output)]),
       n := s.n.(shown := s.n.shown + 1),
       log := s.log.(where := s.log.where[c := Returning]))
  }

  function Abandoned(s: State, i: nat): State
    requires i < |s.q.flying| && s.q.flying[i].client < |s.log.where|
  {
    s.(q := s.q.(flying := Without(s.q.flying, i)),
       log := s.log.(where := s.log.where[s.q.flying[i].client := Lost], lost := s.log.lost + 1))
  }

  function Returned(s: State): State
    requires s.q.returning != [] && s.q.returning[0].client < |s.log.where|
  {
    s.(q := s.q.(returning := s.q.returning[1..], responses := s.q.responses + [s.q.returning[0]]),
       log := s.log.(where := s.log.where[s.q.returning[0].client := Answered]))
  }

  function Failed(s: State): State
    requires s.q.responses != [] && s.q.responses[0].client < |s.log.where| == |s.log.fails|
  {
    var c := s.q.responses[0].client;
    s.(q := s.q.(responses := s.q.responses[1..]),
       log := s.log.(where := s.log.where[c := Lost], fails := s.log.fails[c := s.log.fails[c] + 1],
                     lost := s.log.lost + 1))
  }

  /** The part of handling a response that every successful one goes through. */
  function Recorded(s: State): State
    requires s.q.responses != [] && s.q.responses[0].output.Some?
    requires s.q.responses[0].client < |s.r.rounds| == |s.r.histories| == |s.log.where| == |s.log.outputs|
  {
    var c, output := s.q.responses[0].client, s.q.responses[0].output.value;
    s.(q := s.q.(responses := s.q.responses[1..]),
       n := s.n.(completed := s.n.completed + 1),
       r := s.r.(rounds := s.r.rounds[c := s.r.rounds[c] + 1], histories := s.r.histories[c := s.r.histories[c] + output]),
       log := s.log.(where := s.log.where[c := Done], outputs := s.log.outputs[c := s.log.outputs[c] + [output]]))
  }

  /** The follow-up question, and its request, which shares the client's history list. */
  function Asked(cfg: Config, s: State, c: nat): State
    requires s.r.pool != [] && c < |s.r.histories| == |s.log.where| == |s.log.asked|
  {
    var question := s.r.pool[|s.r.pool| - 1];
    s.(q := if cfg.barrier then s.q.(waiting := s.q.waiting + [Item(c, History)])
            else s.q.(ready := s.q.ready + [Item(c, History)]),
       r := s.r.(histories := s.r.histories[c := s.r.histories[c] + question], pool := s.r.pool[..|s.r.pool| - 1]),
       log := s.log.(where := s.log.where[c := if cfg.barrier then Waiting else Ready],
                     asked := s.log.asked[c := s.log.asked[c] + [question]]))
  }

  function ReleasedFrom(where: seq<Place>): seq<Place>
  {
    seq(|where|, c requires 0 <= c < |where| => if where[c] == Waiting then Ready else where[c])
  }

  function Released(s: State): State
  {
    s.(q := s.q.(ready := s.q.ready + s.q.waiting, waiting := []), log := s.log.(where := ReleasedFrom(s.log.where)))
  }

  function Handled(cfg: Config, s: State): State
    requires Fits(cfg, s) && s.q.responses != []
  {
    if s.q.responses[0].output.None? then Failed(s)
    else
      var c, s' := s.q.responses[0].client, Recorded(s);
      if s'.r.rounds[c] >= cfg.rounds then s'
      else if s'.r.pool == [] then s'.(t := s'.t.(handling := false, poolError := true))
      else
        var s'' := Asked(cfg, s', c);
        if cfg.barrier && |s''.q.waiting| == |cfg.inputs| then Released(s'') else s''
  }

  function Next(cfg: Config, s: State, e: Event): State
    requires Fits(cfg, s) && Enabled(cfg, s, e)
  {
    match e
    case Send(i) => Sent(s, i)
    case Finish(i, output) => Finished(s, i, output)
    case Abandon(i) => Abandoned(s, i)
    case Return => Returned(s)
    case Handle => Handled(cfg, s)
    case StopSending => s.(t := s.t.(sending := false))
    case StopHandling => s.(t := s.t.(handling := false))
  }

  lemma InitialFits(cfg: Config)
    ensures Fits(cfg, Initial(cfg))
  {
  }

  lemma HandledFits(cfg: Config, s: State)
    requires Fits(cfg, s) && s.q.responses != []
    ensures Fits(cfg, Handled(cfg, s))
  {
    var s' := Handled(cfg, s);
    assert s.q.responses[0] in s.q.returning + s.q.responses;
    assert forall x :: x in s'.q.returning + s'.q.responses ==> x in s.q.returning + s.q.responses;
    assert forall x :: x in s'.q.ready + s'.q.flying + s'.q.waiting
             ==> x in s.q.ready + s.q.flying + s.q.waiting || x == Item(s.q.responses[0].client, History);
  }

  lemma NextFits(cfg: Config, s: State, e: Event)
    requires Fits(cfg, s) && Enabled(cfg, s, e)
    ensures Fits(cfg, Next(cfg, s, e))
  {
    var s' := Next(cfg, s, e);
    match e {
      case Handle => HandledFits(cfg, s);
      case Return =>
        assert forall x :: x in s'.q.returning + s'.q.responses ==> x in s.q.returning + s.q.responses;
      case Finish(i, output) =>
        assert s.q.flying[i] in s.q.ready + s.q.flying + s.q.waiting;
      case _ =>
    }
  }

  /** The state after a sequence of steps, or none if one of them cannot happen. */
  ghost function Run(cfg: Config, es: seq<Event>): (s: Option<State>)
    ensures s.Some? ==> Fits(cfg, s.value)
    decreases |es|
  {
    if es == [] then InitialFits(cfg); Some(Initial(cfg))
    else
      var before, e := Run(cfg, es[..|es| - 1]), es[|es| - 1];
      if before.None? || !Enabled(cfg, before.value, e) then None
      else NextFits(cfg, before.value, e); Some(Next(cfg, before.value, e))
  }
}
