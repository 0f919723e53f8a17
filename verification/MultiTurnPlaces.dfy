/** Every client is in exactly one place, and the counters say how many are where. */
module MultiTurnPlaces {
  import opened Sequences
  import opened Options
  import opened Places
  import opened MultiTurn

  function Clients(xs: seq<Item>): (ids: seq<nat>)
    ensures |ids| == |xs| && forall i :: 0 <= i < |xs| ==> ids[i] == xs[i].client
  {
    seq(|xs|, i requires 0 <= i < |xs| => xs[i].client)
  }

  function Repliers(xs: seq<Reply>): (ids: seq<nat>)
    ensures |ids| == |xs| && forall i :: 0 <= i < |xs| ==> ids[i] == xs[i].client
  {
    seq(|xs|, i requires 0 <= i < |xs| => xs[i].client)
  }

  lemma Merges(ready: seq<nat>, waiting: seq<nat>, where: seq<Place>)
    requires Lists(ready, where, Ready) && Lists(waiting, where, Waiting)
    ensures Lists(ready + waiting, ReleasedFrom(where), Ready) && Lists([], ReleasedFrom(where), Waiting)
  {
    var where', all := ReleasedFrom(where), ready + waiting;
    forall c | 0 <= c < |where'| && where'[c] == Ready
      ensures c in all
    {
      assert where[c] == Ready || where[c] == Waiting;
    }
  }

  lemma StaysReleased(ids: seq<nat>, where: seq<Place>, p: Place)
    requires Lists(ids, where, p) && p != Ready && p != Waiting
    ensures Lists(ids, ReleasedFrom(where), p)
  {
  }

  /** The queues agree with where the clients are. */
  ghost predicate Located(s: State)
  {
    && Lists(Clients(s.q.ready), s.log.where, Ready)
    && Lists(Clients(s.q.flying), s.log.where, Flying)
    && Lists(Repliers(s.q.returning), s.log.where, Returning)
    && Lists(Repliers(s.q.responses), s.log.where, Answered)
    && Lists(Clients(s.q.waiting), s.log.where, Waiting)
  }

  lemma InitialLocated(cfg: Config)
    ensures Located(Initial(cfg))
  {
    var s := Initial(cfg);
    forall c | 0 <= c < |s.log.where|
      ensures c in Clients(s.q.ready)
    {
      assert Clients(s.q.ready)[c] == c;
    }
  }

  lemma ClientsWithout(xs: seq<Item>, i: nat)
    requires i < |xs|
    ensures Clients(Without(xs, i)) == Without(Clients(xs), i)
  {
  }

  lemma SentLocated(s: State, i: nat)
    requires Located(s) && i < |s.q.ready| && |s.r.histories| == |s.log.where| == |s.log.prompts|
    requires s.q.ready[i].client < |s.log.where|
    ensures Located(Sent(s, i))
  {
    var c, w := s.q.ready[i].client, s.log.where;
    assert Clients(s.q.ready)[i] == c;
    Leaves(Clients(s.q.ready), w, Ready, i, Flying);
    ClientsWithout(s.q.ready, i);
    Joins(Clients(s.q.flying), w, Flying, c);
    assert Clients(s.q.flying + [s.q.ready[i]]) == Clients(s.q.flying) + [c];
    Bystands(Repliers(s.q.returning), w, Returning, c, Flying);
    Bystands(Repliers(s.q.responses), w, Answered, c, Flying);
    Bystands(Clients(s.q.waiting), w, Waiting, c, Flying);
  }

  lemma FinishedLocated(s: State, i: nat, output: Option<Tokens>)
    requires Located(s) && i < |s.q.flying| && s.q.flying[i].client < |s.log.where|
    ensures Located(Finished(s, i, output))
  {
    var c, w := s.q.flying[i].client, s.log.where;
    assert Clients(s.q.flying)[i] == c;
    Leaves(Clients(s.q.flying), w, Flying, i, Returning);
    ClientsWithout(s.q.flying, i);
    Joins(Repliers(s.q.returning), w, Returning, c);
    assert Repliers(s.q.returning + [Reply(c, output)]) == Repliers(s.q.returning) + [c];
    Bystands(Clients(s.q.ready), w, Ready, c, Returning);
    Bystands(Repliers(s.q.responses), w, Answered, c, Returning);
    Bystands(Clients(s.q.waiting), w, Waiting, c, Returning);
  }

  lemma AbandonedLocated(s: State, i: nat)
    requires Located(s) && i < |s.q.flying| && s.q.flying[i].client < |s.log.where|
    ensures Located(Abandoned(s, i))
  {
    var c, w := s.q.flying[i].client, s.log.where;
    assert Clients(s.q.flying)[i] == c;
    Leaves(Clients(s.q.flying), w, Flying, i, Lost);
    ClientsWithout(s.q.flying, i);
    Bystands(Clients(s.q.ready), w, Ready, c, Lost);
    Bystands(Repliers(s.q.returning), w, Returning, c, Lost);
    Bystands(Repliers(s.q.responses), w, Answered, c, Lost);
    Bystands(Clients(s.q.waiting), w, Waiting, c, Lost);
  }

  lemma ReturnedLocated(s: State)
    requires Located(s) && s.q.returning != [] && s.q.returning[0].client < |s.log.where|
    ensures Located(Returned(s))
  {
    var c, w := s.q.returning[0].client, s.log.where;
    assert Repliers(s.q.returning)[0] == c;
    Leaves(Repliers(s.q.returning), w, Returning, 0, Answered);
    assert Repliers(s.q.returning[1..]) == Without(Repliers(s.q.returning), 0);
    Joins(Repliers(s.q.responses), w, Answered, c);
    assert Repliers(s.q.responses + [s.q.returning[0]]) == Repliers(s.q.responses) + [c];
    Bystands(Clients(s.q.ready), w, Ready, c, Answered);
    Bystands(Clients(s.q.flying), w, Flying, c, Answered);
    Bystands(Clients(s.q.waiting), w, Waiting, c, Answered);
  }

  /** Taking the first response out of its queue, to a place that no queue lists. */
  lemma TakenLocated(s: State, s': State, q: Place)
    requires Located(s) && s.q.responses != [] && s.q.responses[0].client < |s.log.where|
    requires q == Lost || q == Done
    requires s'.q == s.q.(responses := s.q.responses[1..])
    requires s'.log.where == s.log.where[s.q.responses[0].client := q]
    ensures Located(s')
  {
    var c, w := s.q.responses[0].client, s.log.where;
    assert Repliers(s.q.responses)[0] == c;
    Leaves(Repliers(s.q.responses), w, Answered, 0, q);
    assert Repliers(s.q.responses[1..]) == Without(Repliers(s.q.responses), 0);
    Bystands(Clients(s.q.ready), w, Ready, c, q);
    Bystands(Clients(s.q.flying), w, Flying, c, q);
    Bystands(Repliers(s.q.returning), w, Returning, c, q);
    Bystands(Clients(s.q.waiting), w, Waiting, c, q);
  }

  lemma AskedLocated(cfg: Config, s: State, c: nat)
    requires Located(s) && s.r.pool != [] && c < |s.r.histories| == |s.log.where| == |s.log.asked|
    requires s.log.where[c] == Done
    ensures Located(Asked(cfg, s, c))
  {
    var w, q, x := s.log.where, if cfg.barrier then Waiting else Ready, Item(c, History);
    if cfg.barrier {
      Joins(Clients(s.q.waiting), w, Waiting, c);
      assert Clients(s.q.waiting + [x]) == Clients(s.q.waiting) + [c];
      Bystands(Clients(s.q.ready), w, Ready, c, q);
    } else {
      Joins(Clients(s.q.ready), w, Ready, c);
      assert Clients(s.q.ready + [x]) == Clients(s.q.ready) + [c];
      Bystands(Clients(s.q.waiting), w, Waiting, c, q);
    }
    Bystands(Clients(s.q.flying), w, Flying, c, q);
    Bystands(Repliers(s.q.returning), w, Returning, c, q);
    Bystands(Repliers(s.q.responses), w, Answered, c, q);
  }

  lemma ReleasedLocated(s: State)
    requires Located(s)
    ensures Located(Released(s))
  {
    Merges(Clients(s.q.ready), Clients(s.q.waiting), s.log.where);
    assert Clients(s.q.ready + s.q.waiting) == Clients(s.q.ready) + Clients(s.q.waiting);
    assert Clients([]) == [];
    StaysReleased(Clients(s.q.flying), s.log.where, Flying);
    StaysReleased(Repliers(s.q.returning), s.log.where, Returning);
    StaysReleased(Repliers(s.q.responses), s.log.where, Answered);
  }

  lemma HandledLocated(cfg: Config, s: State)
    requires Fits(cfg, s) && Located(s) && s.q.responses != []
    ensures Located(Handled(cfg, s))
  {
    var c := s.q.responses[0].client;
    assert s.q.responses[0] in s.q.returning + s.q.responses;
    if s.q.responses[0].output.None? {
      TakenLocated(s, Failed(s), Lost);
    } else {
      var s' := Recorded(s);
      TakenLocated(s, s', Done);
      if s'.r.rounds[c] < cfg.rounds && s'.r.pool != [] {
        AskedLocated(cfg, s', c);
        ReleasedLocated(Asked(cfg, s', c));
      }
    }
  }

  lemma NextLocated(cfg: Config, s: State, e: Event)
    requires Fits(cfg, s) && Located(s) && Enabled(cfg, s, e)
    ensures Located(Next(cfg, s, e))
  {
    match e
    case Send(i) => SentLocated(s, i);
    case Finish(i, output) => FinishedLocated(s, i, output);
    case Abandon(i) => AbandonedLocated(s, i);
    case Return => ReturnedLocated(s);
    case Handle => HandledLocated(cfg, s);
    case _ =>
  }

  /** In every run each client is in exactly one place. */
  lemma {:induction false} EveryClientIsSomewhere(cfg: Config, es: seq<Event>)
    requires Run(cfg, es).Some?
    ensures Located(Run(cfg, es).value)
    decreases |es|
  {
    if es == [] {
      InitialLocated(cfg);
    } else {
      EveryClientIsSomewhere(cfg, es[..|es| - 1]);
      NextLocated(cfg, Run(cfg, es[..|es| - 1]).value, es[|es| - 1]);
    }
  }
}
