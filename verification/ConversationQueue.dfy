/** Conversations that go through a bounded queue: each is pulled, sends its next turn when it may, and is put
    back at the end of the queue once the turn has been answered.  A run is any interleaving of the puller and
    the requests. */
module ConversationQueue {
  import opened Sequences
  import opened Options
  import opened Places
  import opened Arithmetic

  datatype Turn = Turn(content: string, inputLen: nat, outputLen: nat)

  datatype Message = User(content: string) | Assistant(content: string)

  datatype Answer = Answer(text: string, len: nat)

  datatype Place = Queued | Held | Flying | Done | Dropped

  /** The conversations, and how many requests may be on their way at once, if that is limited. */
  datatype Config = Config(turns: seq<seq<Turn>>, limit: Option<nat>)

  ghost predicate ValidConfig(cfg: Config)
  {
    && (forall c :: 0 <= c < |cfg.turns| ==> cfg.turns[c] != [])
    && (cfg.limit.Some? ==> cfg.limit.value > 0)
  }

  /** The queue, the requests waiting for the semaphore and those that hold it; and each conversation's prompts,
      messages and number of finished prompts, which its requests update in place. */
  datatype State = State(queue: seq<nat>, held: seq<nat>, flying: seq<nat>, pulls: nat, prompts: seq<seq<Turn>>,
                         messages: seq<seq<Message>>, finished: seq<nat>, log: Log)

  /** What an observer writes down: where each conversation is, the message lists and length estimates it sent,
      and the answers it got. */
  datatype Log = Log(where: seq<Place>, sent: seq<seq<seq<Message>>>, lens: seq<seq<nat>>, answers: seq<seq<Answer>>)

  function Initial(cfg: Config): State
  {
    var n := |cfg.turns|;
    State(seq(n, i => i), [], [], 0, cfg.turns, seq(n, _ => []), seq(n, _ => 0),
          Log(seq(n, _ => Queued), seq(n, _ => []), seq(n, _ => []), seq(n, _ => [])))
  }

  datatype Event = Pull | Start(index: nat) | Succeed(index: nat, answer: Answer) | Fail(index: nat)

  /** The number of pulls is fixed before the first one. */
  function Pulls(cfg: Config): nat
  {
    Sum(Lens(cfg.turns))
  }

  function Lens<T>(xs: seq<seq<T>>): seq<nat>
  {
    seq(|xs|, c requires 0 <= c < |xs| => |xs[c]|)
  }

  function PromptLen(turns: seq<Turn>, k: nat): nat
    requires k < |turns|
  {
    Before(turns[..k]) + turns[k].inputLen
  }

  function Before(turns: seq<Turn>): nat
    decreases |turns|
  {
    if turns == [] then 0
    else Before(turns[..|turns| - 1]) + turns[|turns| - 1].inputLen + turns[|turns| - 1].outputLen
  }

  ghost predicate Fits(cfg: Config, s: State)
  {
    && |s.prompts| == |s.messages| == |s.finished| == |s.log.where| == |s.log.sent| == |s.log.lens| == |s.log.answers|
       == |cfg.turns|
    && (forall c :: 0 <= c < |s.prompts| ==> s.finished[c] < |s.prompts[c]|)
    && (forall i :: 0 <= i < |s.queue| ==> s.queue[i] < |cfg.turns|)
    && (forall i :: 0 <= i < |s.held| ==> s.held[i] < |cfg.turns|)
    && (forall i :: 0 <= i < |s.flying| ==> s.flying[i] < |cfg.turns|)
  }

  ghost predicate Enabled(cfg: Config, s: State, e: Event)
  {
    match e
    case Pull => s.queue != [] && s.pulls < Pulls(cfg)
    case Start(i) => i < |s.held| && (cfg.limit.Some? ==> |s.flying| < cfg.limit.value)
    case Succeed(i, _) => i < |s.flying|
    case Fail(i) => i < |s.flying|
  }

  function Pulled(s: State): State
    requires s.queue != [] && s.queue[0] < |s.log.where|
  {
    s.(queue := s.queue[1..], held := s.held + [s.queue[0]], pulls := s.pulls + 1,
       log := s.log.(where := s.log.where[s.queue[0] := Held]))
  }

  /** Adds the user's message to the conversation and sends it all. */
  function Started(s: State, i: nat): State
    requires i < |s.held| && s.held[i] < |s.prompts| == |s.messages| == |s.finished| == |s.log.where|
    requires |s.log.sent| == |s.log.lens| == |s.prompts| && s.finished[s.held[i]] < |s.prompts[s.held[i]]|
  {
    var c := s.held[i];
    var messages := s.messages[c] + [User(s.prompts[c][s.finished[c]].content)];
    s.(held := Without(s.held, i), flying := s.flying + [c], messages := s.messages[c := messages],
       log := s.log.(where := s.log.where[c := Flying], sent := s.log.sent[c := s.log.sent[c] + [messages]],
                     lens := s.log.lens[c := s.log.lens[c] + [PromptLen(s.prompts[c], s.finished[c])]]))
  }

  /** Records the answer, and puts the conversation back if it has a turn left. */
  function Succeeded(s: State, i: nat, answer: Answer): State
    requires i < |s.flying| && s.flying[i] < |s.prompts| == |s.messages| == |s.finished| == |s.log.where|
    requires |s.log.answers| == |s.prompts| && s.finished[s.flying[i]] < |s.prompts[s.flying[i]]|
  {
    var c := s.flying[i];
    var k, turn := s.finished[c], s.prompts[c][s.finished[c]];
    var more := k + 1 < |s.prompts[c]|;
    s.(flying := Without(s.flying, i), queue := if more then s.queue + [c] else s.queue,
       prompts := s.prompts[c := s.prompts[c][k := turn.(outputLen := answer.len)]],
       messages := s.messages[c := s.messages[c] + [Assistant(answer.text)]],
       finished := if more then s.finished[c := k + 1] else s.finished,
       log := s.log.(where := s.log.where[c := if more then Queued else Done],
                     answers := s.log.answers[c := s.log.answers[c] + [answer]]))
  }

  function Failed(s: State, i: nat): State
    requires i < |s.flying| && s.flying[i] < |s.log.where|
  {
    s.(flying := Without(s.flying, i), log := s.log.(where := s.log.where[s.flying[i] := Dropped]))
  }

  function Next(cfg: Config, s: State, e: Event): State
    requires Fits(cfg, s) && Enabled(cfg, s, e)
  {
    match e
    case Pull => Pulled(s)
    case Start(i) => Started(s, i)
    case Succeed(i, answer) => Succeeded(s, i, answer)
    case Fail(i) => Failed(s, i)
  }

  lemma InitialFits(cfg: Config)
    requires ValidConfig(cfg)
    ensures Fits(cfg, Initial(cfg))
  {
  }

  lemma NextFits(cfg: Config, s: State, e: Event)
    requires Fits(cfg, s) && Enabled(cfg, s, e)
    ensures Fits(cfg, Next(cfg, s, e))
  {
    var s' := Next(cfg, s, e);
    match e
    case Pull => assert s' == Pulled(s);
    case Start(i) => assert s' == Started(s, i);
    case Succeed(i, answer) => assert s' == Succeeded(s, i, answer);
    case Fail(i) => assert s' == Failed(s, i);
  }

  ghost function Run(cfg: Config, es: seq<Event>): (s: Option<State>)
    requires ValidConfig(cfg)
    ensures s.Some? ==> Fits(cfg, s.value)
    decreases |es|
  {
    if es == [] then InitialFits(cfg); Some(Initial(cfg))
    else
      var before, e := Run(cfg, es[..|es| - 1]), es[|es| - 1];
      if before.None? || !Enabled(cfg, before.value, e) then None
      else NextFits(cfg, before.value, e); Some(Next(cfg, before.value, e))
  }

  // ----- where the conversations are

  ghost predicate Located(s: State)
  {
    && Lists(s.queue, s.log.where, Queued) && Lists(s.held, s.log.where, Held) && Lists(s.flying, s.log.where, Flying)
  }

  lemma NextLocated(cfg: Config, s: State, e: Event)
    requires Fits(cfg, s) && Located(s) && Enabled(cfg, s, e)
    ensures Located(Next(cfg, s, e))
  {
    var w := s.log.where;
    match e
    case Pull =>
      var c := s.queue[0];
      Leaves(s.queue, w, Queued, 0, Held);
      assert s.queue[1..] == Without(s.queue, 0);
      Joins(s.held, w, Held, c);
      Bystands(s.flying, w, Flying, c, Held);
    case Start(i) =>
      var c := s.held[i];
      Leaves(s.held, w, Held, i, Flying);
      Joins(s.flying, w, Flying, c);
      Bystands(s.queue, w, Queued, c, Flying);
    case Succeed(i, answer) =>
      var c := s.flying[i];
      var p := if s.finished[c] + 1 < |s.prompts[c]| then Queued else Done;
      Leaves(s.flying, w, Flying, i, p);
      if p == Queued {
        Joins(s.queue, w, Queued, c);
      } else {
        Bystands(s.queue, w, Queued, c, Done);
      }
      Bystands(s.held, w, Held, c, p);
    case Fail(i) =>
      Leaves(s.flying, w, Flying, i, Dropped);
      Bystands(s.queue, w, Queued, s.flying[i], Dropped);
      Bystands(s.held, w, Held, s.flying[i], Dropped);
  }
}
