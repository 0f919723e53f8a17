/** What holds of the conversation queue in every interleaving. */
module ConversationTheorems {
  import opened Options
  import opened Places
  import opened Arithmetic
  import opened ConversationQueue

  // ----- what is sent

  /** The message list of turn `k`: the user's prompts alternating with the answers. */
  function Transcript(turns: seq<Turn>, answers: seq<Answer>, k: nat): (ms: seq<Message>)
    requires k < |turns| && k <= |answers|
    ensures |ms| == 2 * k + 1
  {
    if k == 0 then [User(turns[0].content)]
    else Transcript(turns, answers, k - 1) + [Assistant(answers[k - 1].text), User(turns[k].content)]
  }

  /** The list after `k` answers. */
  function Answered(turns: seq<Turn>, answers: seq<Answer>, k: nat): seq<Message>
    requires k <= |turns| && k <= |answers|
  {
    if k == 0 then [] else Transcript(turns, answers, k - 1) + [Assistant(answers[k - 1].text)]
  }

  /** The lengths of all earlier prompts and of the answers they actually got, and of the prompt itself. */
  function ContextLen(turns: seq<Turn>, answers: seq<Answer>, k: nat): nat
    requires k < |turns| && k <= |answers|
  {
    turns[k].inputLen + if k == 0 then 0 else ContextLen(turns, answers, k - 1) + answers[k - 1].len
  }

  /** Users and assistants take turns, the user first. */
  lemma {:induction false} TranscriptAlternates(turns: seq<Turn>, answers: seq<Answer>, k: nat, i: nat)
    requires k < |turns| && k <= |answers| && i < 2 * k + 1
    ensures Transcript(turns, answers, k)[i]
            == if i % 2 == 0 then User(turns[i / 2].content) else Assistant(answers[i / 2].text)
    decreases k
  {
    if k > 0 && i < 2 * k - 1 {
      TranscriptAlternates(turns, answers, k - 1, i);
    }
  }

  lemma {:induction false} TranscriptGrows(turns: seq<Turn>, answers: seq<Answer>, more: Answer, k: nat)
    requires k < |turns| && k <= |answers|
    ensures Transcript(turns, answers + [more], k) == Transcript(turns, answers, k)
    ensures ContextLen(turns, answers + [more], k) == ContextLen(turns, answers, k)
  {
    if k > 0 {
      TranscriptGrows(turns, answers, more, k - 1);
    }
  }

  /** The turns with the answers' actual lengths in place of the requested ones. */
  ghost predicate Updated(prompts: seq<Turn>, turns: seq<Turn>, answers: seq<Answer>)
  {
    && |prompts| == |turns|
    && forall j :: 0 <= j < |turns| ==>
         prompts[j] == if j < |answers| then turns[j].(outputLen := answers[j].len) else turns[j]
  }

  lemma {:induction false} BeforeIs(prompts: seq<Turn>, turns: seq<Turn>, answers: seq<Answer>, k: nat)
    requires Updated(prompts, turns, answers) && k < |turns| && k <= |answers|
    ensures PromptLen(prompts, k) == ContextLen(turns, answers, k)
    decreases k
  {
    if k > 0 {
      BeforeIs(prompts, turns, answers, k - 1);
      assert prompts[..k][..k - 1] == prompts[..k - 1];
      assert prompts[..k][k - 1] == prompts[k - 1];
    }
  }

  predicate Underway(p: Place)
  {
    p == Flying || p == Dropped
  }

  /** One conversation, with `k` prompts finished: its turns have been sent once each and in order. */
  ghost predicate Talked(turns: seq<Turn>, answers: seq<Answer>, k: nat, p: Place, prompts: seq<Turn>,
                         sent: seq<seq<Message>>, lens: seq<nat>, messages: seq<Message>)
    requires k < |turns|
  {
    && Updated(prompts, turns, answers)
    && |answers| == (if p == Done then |turns| else k) && (p == Done ==> k == |turns| - 1)
    && |sent| == |lens| == (if p == Done || Underway(p) then k + 1 else k)
    && (forall j :: 0 <= j < |sent| ==> sent[j] == Transcript(turns, answers, j))
    && (forall j :: 0 <= j < |lens| ==> lens[j] == ContextLen(turns, answers, j))
    && messages == if Underway(p) then Transcript(turns, answers, k) else Answered(turns, answers, |answers|)
  }

  ghost predicate Conversed(cfg: Config, s: State, c: nat)
    requires Fits(cfg, s) && c < |cfg.turns|
  {
    && |s.prompts[c]| == |cfg.turns[c]|
    && Talked(cfg.turns[c], s.log.answers[c], s.finished[c], s.log.where[c], s.prompts[c], s.log.sent[c], s.log.lens[c],
              s.messages[c])
  }

  /** A further answer changes nothing about what was sent before it. */
  lemma SentGrows(turns: seq<Turn>, answers: seq<Answer>, sent: seq<seq<Message>>, lens: seq<nat>, answer: Answer)
    requires |sent| == |lens| == |answers| + 1 <= |turns|
    requires forall j :: 0 <= j < |sent| ==> sent[j] == Transcript(turns, answers, j)
    requires forall j :: 0 <= j < |lens| ==> lens[j] == ContextLen(turns, answers, j)
    ensures forall j :: 0 <= j < |sent| ==> sent[j] == Transcript(turns, answers + [answer], j)
    ensures forall j :: 0 <= j < |lens| ==> lens[j] == ContextLen(turns, answers + [answer], j)
  {
    forall j | 0 <= j < |sent|
      ensures sent[j] == Transcript(turns, answers + [answer], j)
      ensures lens[j] == ContextLen(turns, answers + [answer], j)
    {
      TranscriptGrows(turns, answers, answer, j);
    }
  }

  lemma AnswerTalked(turns: seq<Turn>, answers: seq<Answer>, k: nat, prompts: seq<Turn>,
                     sent: seq<seq<Message>>, lens: seq<nat>, messages: seq<Message>, answer: Answer)
    requires k < |turns| && Talked(turns, answers, k, Flying, prompts, sent, lens, messages)
    ensures var more := k + 1 < |turns|;
            Talked(turns, answers + [answer], if more then k + 1 else k, if more then Queued else Done,
                   prompts[k := prompts[k].(outputLen := answer.len)], sent, lens, messages + [Assistant(answer.text)])
  {
    SentGrows(turns, answers, sent, lens, answer);
    AnsweredNext(turns, answers, answer);
    UpdatedNext(prompts, turns, answers, answer);
  }

  lemma AnsweredNext(turns: seq<Turn>, answers: seq<Answer>, answer: Answer)
    requires |answers| < |turns|
    ensures Answered(turns, answers + [answer], |answers| + 1)
            == Transcript(turns, answers, |answers|) + [Assistant(answer.text)]
  {
    TranscriptGrows(turns, answers, answer, |answers|);
  }

  lemma UpdatedNext(prompts: seq<Turn>, turns: seq<Turn>, answers: seq<Answer>, answer: Answer)
    requires Updated(prompts, turns, answers) && |answers| < |turns|
    ensures Updated(prompts[|answers| := prompts[|answers|].(outputLen := answer.len)], turns, answers + [answer])
  {
  }

  lemma StartedConversed(cfg: Config, s: State, i: nat, c: nat)
    requires Fits(cfg, s) && Located(s) && i < |s.held| && c < |cfg.turns| && Conversed(cfg, s, c)
    requires Fits(cfg, Started(s, i))
    ensures Conversed(cfg, Started(s, i), c)
  {
    if c == s.held[i] {
      BeforeIs(s.prompts[c], cfg.turns[c], s.log.answers[c], s.finished[c]);
    }
  }

  lemma SucceededConversed(cfg: Config, s: State, i: nat, answer: Answer, c: nat)
    requires Fits(cfg, s) && Located(s) && i < |s.flying| && c < |cfg.turns| && Conversed(cfg, s, c)
    requires Fits(cfg, Succeeded(s, i, answer))
    ensures Conversed(cfg, Succeeded(s, i, answer), c)
  {
    if c == s.flying[i] {
      AnswerTalked(cfg.turns[c], s.log.answers[c], s.finished[c], s.prompts[c], s.log.sent[c], s.log.lens[c], s.messages[c],
                   answer);
    }
  }

  lemma NextConversed(cfg: Config, s: State, e: Event, c: nat)
    requires Fits(cfg, s) && Located(s) && Enabled(cfg, s, e) && c < |cfg.turns| && Conversed(cfg, s, c)
    requires Fits(cfg, Next(cfg, s, e))
    ensures Conversed(cfg, Next(cfg, s, e), c)
  {
    hide Transcript;
    hide ContextLen;
    hide Answered;
    hide Updated;
    match e
    case Pull => assert s.log.where[s.queue[0]] == Queued;
    case Start(i) => StartedConversed(cfg, s, i, c);
    case Succeed(i, answer) => SucceededConversed(cfg, s, i, answer, c);
    case Fail(i) => assert s.log.where[s.flying[i]] == Flying;
  }

  // ----- all runs

  ghost predicate Counted(cfg: Config, s: State)
  {
    && s.pulls == Sum(Lens(s.log.sent)) + |s.held| && s.pulls <= Pulls(cfg)
    && (cfg.limit.Some? ==> |s.flying| <= cfg.limit.value)
  }

  lemma NextCounted(cfg: Config, s: State, e: Event)
    requires Fits(cfg, s) && Counted(cfg, s) && Enabled(cfg, s, e)
    ensures Counted(cfg, Next(cfg, s, e))
  {
    var s' := Next(cfg, s, e);
    match e
    case Start(i) =>
      var c := s.held[i];
      SumUpdate(Lens(s.log.sent), c, |s.log.sent[c]| + 1);
      assert Lens(s'.log.sent) == Lens(s.log.sent)[c := |s.log.sent[c]| + 1];
    case _ =>
  }

  ghost predicate Good(cfg: Config, s: State)
  {
    && Fits(cfg, s) && Located(s) && Counted(cfg, s)
    && forall c :: 0 <= c < |cfg.turns| ==> Conversed(cfg, s, c)
  }

  lemma InitialGood(cfg: Config)
    requires ValidConfig(cfg)
    ensures Good(cfg, Initial(cfg))
  {
    var n := |cfg.turns|;
    SumZeros(n);
    assert Lens(Initial(cfg).log.sent) == seq(n, _ => 0);
    forall c | 0 <= c < n
      ensures c in Initial(cfg).queue
    {
      assert Initial(cfg).queue[c] == c;
    }
  }

  lemma {:induction false} RunGood(cfg: Config, es: seq<Event>)
    requires ValidConfig(cfg) && Run(cfg, es).Some?
    ensures Good(cfg, Run(cfg, es).value)
    decreases |es|
  {
    if es == [] {
      InitialGood(cfg);
    } else {
      var before, e := es[..|es| - 1], es[|es| - 1];
      RunGood(cfg, before);
      var s := Run(cfg, before).value;
      NextLocated(cfg, s, e);
      NextCounted(cfg, s, e);
      forall c | 0 <= c < |cfg.turns|
        ensures Conversed(cfg, Next(cfg, s, e), c)
      {
        NextConversed(cfg, s, e, c);
      }
    }
  }

  /** In every run, turn `k` of a conversation is sent once, after turn `k - 1`, with `2k + 1` messages that are
      its prompts and the answers so far in turn, and with a length estimate made from the actual answers. */
  lemma TurnsAreSentInOrder(cfg: Config, es: seq<Event>, c: nat, k: nat)
    requires ValidConfig(cfg) && Run(cfg, es).Some? && c < |cfg.turns| && k < |Run(cfg, es).value.log.sent[c]|
    ensures var log := Run(cfg, es).value.log;
            && k < |log.sent[c]| <= |cfg.turns[c]| && k <= |log.answers[c]| && k < |log.lens[c]|
            && log.sent[c][k] == Transcript(cfg.turns[c], log.answers[c], k) && |log.sent[c][k]| == 2 * k + 1
            && log.lens[c][k] == ContextLen(cfg.turns[c], log.answers[c], k)
  {
    RunGood(cfg, es);
    assert Conversed(cfg, Run(cfg, es).value, c);
  }

  /** A conversation is in the queue at most once, and whenever one is put back there is room for it. */
  lemma PutNeverWaits(cfg: Config, es: seq<Event>, i: nat, j: nat)
    requires ValidConfig(cfg) && Run(cfg, es).Some?
    ensures var s := Run(cfg, es).value;
            && (i < j < |s.queue| ==> s.queue[i] != s.queue[j])
            && (i < |s.flying| ==> |s.queue| < |cfg.turns|)
  {
    RunGood(cfg, es);
    var s := Run(cfg, es).value;
    if i < |s.flying| {
      Covers(s.queue + [s.flying[i]], |cfg.turns|);
    }
  }

  // ----- progress

  ghost predicate Quiet(cfg: Config, s: State)
  {
    forall e: Event :: !Enabled(cfg, s, e)
  }

  lemma QuietQueues(cfg: Config, s: State)
    requires ValidConfig(cfg) && Good(cfg, s) && Quiet(cfg, s)
    ensures s.held == [] && s.flying == [] && (s.queue == [] || s.pulls == Pulls(cfg))
  {
    assert !Enabled(cfg, s, Fail(0));
    assert !Enabled(cfg, s, Start(0));
    assert !Enabled(cfg, s, Pull);
  }

  lemma SentBound(cfg: Config, s: State)
    requires Good(cfg, s)
    ensures Sum(Lens(s.log.sent)) <= Pulls(cfg)
    ensures Sum(Lens(s.log.sent)) == Pulls(cfg)
            <==> forall c :: 0 <= c < |cfg.turns| ==> |s.log.sent[c]| == |cfg.turns[c]|
  {
    var sent, turns := Lens(s.log.sent), Lens(cfg.turns);
    forall c | 0 <= c < |cfg.turns|
      ensures sent[c] <= turns[c]
    {
      assert Conversed(cfg, s, c);
    }
    SumMonotone(sent, turns);
    if forall c :: 0 <= c < |cfg.turns| ==> |s.log.sent[c]| == |cfg.turns[c]| {
      assert sent == turns;
    } else {
      var c :| 0 <= c < |cfg.turns| && |s.log.sent[c]| != |cfg.turns[c]|;
      assert sent[c] != turns[c];
    }
  }

  /** If no request has failed, a run comes to rest only when every conversation is over; by then the queue has
      been pulled from exactly as often as there are turns, and it is empty. */
  lemma RestIsCompletion(cfg: Config, es: seq<Event>)
    requires ValidConfig(cfg) && Run(cfg, es).Some? && Quiet(cfg, Run(cfg, es).value)
    requires forall c :: 0 <= c < |cfg.turns| ==> Run(cfg, es).value.log.where[c] != Dropped
    ensures var s := Run(cfg, es).value;
            && s.pulls == Pulls(cfg) && s.queue == []
            && forall c :: 0 <= c < |cfg.turns| ==> s.log.where[c] == Done && |s.log.sent[c]| == |cfg.turns[c]|
  {
    RunGood(cfg, es);
    var s := Run(cfg, es).value;
    QuietQueues(cfg, s);
    SentBound(cfg, s);
    forall c | 0 <= c < |cfg.turns|
      ensures s.log.where[c] == Done || s.log.where[c] == Queued
      ensures s.log.where[c] == Done <==> |s.log.sent[c]| == |cfg.turns[c]|
    {
      assert Conversed(cfg, s, c);
    }
    NobodyAt(s.queue, s.log.where, Queued);
  }

  // ----- failures

  /** A request that failed: the conversation and its turn. */
  datatype Failure = Failure(conversation: nat, turn: nat)

  ghost function FailureOf(cfg: Config, s: State, e: Event): seq<Failure>
    requires Fits(cfg, s) && Enabled(cfg, s, e)
  {
    if e.Fail? then [Failure(s.flying[e.index], s.finished[s.flying[e.index]])] else []
  }

  /** The failures of a run, in order. */
  ghost function Failures(cfg: Config, es: seq<Event>): seq<Failure>
    requires ValidConfig(cfg) && Run(cfg, es).Some?
    decreases |es|
  {
    if es == [] then []
    else
      var before := es[..|es| - 1];
      Failures(cfg, before) + FailureOf(cfg, Run(cfg, before).value, es[|es| - 1])
  }

  /** Exactly the dropped conversations have failed, at the turn they had come to. */
  ghost predicate Noted(cfg: Config, s: State, fs: seq<Failure>)
    requires Fits(cfg, s)
  {
    && (forall f :: f in fs ==>
          f.conversation < |cfg.turns| && s.log.where[f.conversation] == Dropped && f.turn == s.finished[f.conversation])
    && (forall c :: 0 <= c < |cfg.turns| && s.log.where[c] == Dropped ==> Failure(c, s.finished[c]) in fs)
  }

  lemma NextNoted(cfg: Config, s: State, e: Event, fs: seq<Failure>)
    requires Fits(cfg, s) && Located(s) && Noted(cfg, s, fs) && Enabled(cfg, s, e) && Fits(cfg, Next(cfg, s, e))
    ensures Noted(cfg, Next(cfg, s, e), fs + FailureOf(cfg, s, e))
  {
    match e
    case Pull => assert s.log.where[s.queue[0]] == Queued;
    case Start(i) => assert s.log.where[s.held[i]] == Held;
    case Succeed(i, _) => assert s.log.where[s.flying[i]] == Flying;
    case Fail(i) => assert s.log.where[s.flying[i]] == Flying;
  }

  lemma {:induction false} RunNoted(cfg: Config, es: seq<Event>)
    requires ValidConfig(cfg) && Run(cfg, es).Some?
    ensures Noted(cfg, Run(cfg, es).value, Failures(cfg, es))
    decreases |es|
  {
    if es != [] {
      var before := es[..|es| - 1];
      RunNoted(cfg, before);
      RunGood(cfg, before);
      NextNoted(cfg, Run(cfg, before).value, es[|es| - 1], Failures(cfg, before));
    }
  }

  /** With failures, the puller gets all the requests it waits for exactly if every request that failed was the last
      turn of its conversation: an earlier failure is never made up for. */
  lemma PullsAreServedIff(cfg: Config, es: seq<Event>)
    requires ValidConfig(cfg) && Run(cfg, es).Some? && Quiet(cfg, Run(cfg, es).value)
    ensures Run(cfg, es).value.pulls == Pulls(cfg)
            <==> forall f :: f in Failures(cfg, es) ==>
                   f.conversation < |cfg.turns| && f.turn == |cfg.turns[f.conversation]| - 1
  {
    hide Run;
    RunGood(cfg, es);
    RunNoted(cfg, es);
    ServedIff(cfg, Run(cfg, es).value, Failures(cfg, es));
  }

  lemma ServedIff(cfg: Config, s: State, fs: seq<Failure>)
    requires ValidConfig(cfg) && Good(cfg, s) && Quiet(cfg, s) && Noted(cfg, s, fs)
    ensures s.pulls == Pulls(cfg)
            <==> forall f :: f in fs ==> f.conversation < |cfg.turns| && f.turn == |cfg.turns[f.conversation]| - 1
  {
    QuietQueues(cfg, s);
    SentBound(cfg, s);
    if s.pulls == Pulls(cfg) {
      forall f | f in fs
        ensures f.turn == |cfg.turns[f.conversation]| - 1
      {
        assert Conversed(cfg, s, f.conversation);
      }
    } else if forall f :: f in fs ==> f.conversation < |cfg.turns| && f.turn == |cfg.turns[f.conversation]| - 1 {
      forall c | 0 <= c < |cfg.turns|
        ensures |s.log.sent[c]| == |cfg.turns[c]|
      {
        assert Conversed(cfg, s, c);
        assert s.log.where[c] == Dropped ==> Failure(c, s.finished[c]) in fs;
      }
    }
  }

  function Steps(s: State): int
  {
    s.pulls + 2 * Sum(Lens(s.log.sent)) - |s.flying|
  }

  lemma NextSteps(cfg: Config, s: State, e: Event)
    requires Fits(cfg, s) && Counted(cfg, s) && Enabled(cfg, s, e)
    ensures Steps(Next(cfg, s, e)) == Steps(s) + 1
  {
    NextCounted(cfg, s, e);
  }

  /** Each pull leads to one start and one end. */
  lemma {:induction false} RunLength(cfg: Config, es: seq<Event>)
    requires ValidConfig(cfg) && Run(cfg, es).Some?
    ensures |es| == Steps(Run(cfg, es).value)
    decreases |es|
  {
    if es == [] {
      InitialGood(cfg);
    } else {
      var before := es[..|es| - 1];
      RunLength(cfg, before);
      RunGood(cfg, before);
      NextSteps(cfg, Run(cfg, before).value, es[|es| - 1]);
    }
  }

  lemma EveryRunIsFinite(cfg: Config, es: seq<Event>)
    requires ValidConfig(cfg) && Run(cfg, es).Some?
    ensures |es| <= 3 * Pulls(cfg)
  {
    RunLength(cfg, es);
    RunGood(cfg, es);
    SentBound(cfg, Run(cfg, es).value);
  }

  // ----- shared prefixes

  function Singles<T>(xs: seq<T>): seq<seq<T>>
  {
    seq(|xs|, i requires 0 <= i < |xs| => [xs[i]])
  }

  /** Every request a conversation of its own. */
  function Flattened<T>(groups: seq<seq<T>>): seq<seq<T>>
    decreases |groups|
  {
    if groups == [] then [] else Flattened(groups[..|groups| - 1]) + Singles(groups[|groups| - 1])
  }

  lemma {:induction false} SumOnes<T>(xs: seq<seq<T>>)
    requires forall i :: 0 <= i < |xs| ==> |xs[i]| == 1
    ensures Sum(Lens(xs)) == |xs|
    decreases |xs|
  {
    if xs != [] {
      SumOnes(xs[..|xs| - 1]);
      assert Lens(xs)[..|xs| - 1] == Lens(xs[..|xs| - 1]);
    }
  }

  /** The number of pulls is computed before the groups are flattened and is still right afterwards. */
  lemma {:induction false} FlatteningKeepsPulls<T>(groups: seq<seq<T>>)
    ensures |Flattened(groups)| == Sum(Lens(groups)) == Sum(Lens(Flattened(groups)))
    ensures forall i :: 0 <= i < |Flattened(groups)| ==> |Flattened(groups)[i]| == 1
    decreases |groups|
  {
    if groups != [] {
      FlatteningKeepsPulls(groups[..|groups| - 1]);
      assert Lens(groups)[..|groups| - 1] == Lens(groups[..|groups| - 1]);
    }
    SumOnes(Flattened(groups));
  }

  // ----- the order of the queue

  /** The state before the last event. */
  ghost function Prior(cfg: Config, es: seq<Event>): (s: State)
    requires ValidConfig(cfg) && es != [] && Run(cfg, es).Some?
    ensures Fits(cfg, s) && Enabled(cfg, s, es[|es| - 1]) && Run(cfg, es).value == Next(cfg, s, es[|es| - 1])
    ensures Run(cfg, es[..|es| - 1]) == Some(s)
  {
    Run(cfg, es[..|es| - 1]).value
  }

  /** The conversation that the event answers has a turn left. */
  ghost predicate PutsBack(s: State, e: Event)
    requires e.Succeed? ==> e.index < |s.flying| && s.flying[e.index] < |s.finished| == |s.prompts|
  {
    e.Succeed? && var c := s.flying[e.index]; s.finished[c] + 1 < |s.prompts[c]|
  }

  /** The conversations put into the queue, in order: all of them at the start, then each after an answered turn that
      was not its last. */
  ghost function Puts(cfg: Config, es: seq<Event>): seq<nat>
    requires ValidConfig(cfg) && Run(cfg, es).Some?
    decreases |es|
  {
    if es == [] then seq(|cfg.turns|, i => i)
    else
      var init, e, s := es[..|es| - 1], es[|es| - 1], Prior(cfg, es);
      Puts(cfg, init) + if PutsBack(s, e) then [s.flying[e.index]] else []
  }

  /** The conversations pulled, in order: those that went on to wait for the semaphore. */
  ghost function Taken(cfg: Config, es: seq<Event>): seq<nat>
    requires ValidConfig(cfg) && Run(cfg, es).Some?
    decreases |es|
  {
    if es == [] then []
    else
      var init, e, held := es[..|es| - 1], es[|es| - 1], Run(cfg, es).value.held;
      Taken(cfg, init) + if e.Pull? && held != [] then [held[|held| - 1]] else []
  }

  lemma QueueStep(cfg: Config, s: State, e: Event)
    requires Fits(cfg, s) && Enabled(cfg, s, e)
    ensures var s' := Next(cfg, s, e);
            && (e.Pull? ==> s'.held != [] && s.queue == [s'.held[|s'.held| - 1]] + s'.queue && !PutsBack(s, e))
            && (!e.Pull? ==> s'.queue == s.queue + if PutsBack(s, e) then [s.flying[e.index]] else [])
  {
  }

  /** First come, first served: the conversations pulled, followed by those in the queue, are those put into it. */
  lemma {:induction false} ConversationsTakeTurns(cfg: Config, es: seq<Event>)
    requires ValidConfig(cfg) && Run(cfg, es).Some?
    ensures Taken(cfg, es) + Run(cfg, es).value.queue == Puts(cfg, es)
    decreases |es|
  {
    if es != [] {
      hide Next;
      hide Run;
      hide PutsBack;
      hide Enabled;
      hide Fits;
      var init, e, s, s' := es[..|es| - 1], es[|es| - 1], Prior(cfg, es), Run(cfg, es).value;
      ConversationsTakeTurns(cfg, init);
      QueueStep(cfg, s, e);
      Shifted(Taken(cfg, init), s.queue, if PutsBack(s, e) then [s.flying[e.index]] else [],
              if e.Pull? then [s'.held[|s'.held| - 1]] else [], s'.queue);
    } else {
      assert Taken(cfg, es) == [];
    }
  }

  lemma Shifted(done: seq<nat>, before: seq<nat>, joined: seq<nat>, left: seq<nat>, after: seq<nat>)
    requires before + joined == left + after
    ensures done + left + after == done + before + joined
  {
    assert done + left + after == done + (left + after);
    assert done + before + joined == done + (before + joined);
  }
}
