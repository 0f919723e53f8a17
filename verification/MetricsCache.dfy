/** The dashboard's metrics cache: refresh threads and readers share a dictionary under a lock.  A step is a single
    statement, so that threads interleave inside critical sections too. */
module MetricsCache {
  import opened Options

  type Data = seq<string>
  type Time = int

  /** Where a thread is.  A refresher tests and sets the flag, fetches, stores data and time, and clears the flag;
      a reader looks at the time and copies the data.  `after` counts the fetches finished when it did. */
  datatype Pc =
    | Start | Checking | Refused | Marked | Fetching
    | Fetched(data: Data) | Storing(data: Data) | HalfStored(data: Data) | Stored
    | Finishing | Clearing | Cleared | Done
    | ReadStart | Reading | SeenTime(time: Option<Time>) | Copied(time: Option<Time>, seen: Data)
    | Answered(time: Option<Time>, seen: Data, after: nat)

  /** The dictionary, the lock, the threads, and a list of all fetches whose result has been stored. */
  datatype State = State(lock: Option<nat>, data: Data, lastUpdated: Option<Time>, updating: bool, pcs: seq<Pc>,
                         fetches: seq<(Data, Time)>)

  function Initial(refreshers: seq<bool>): State
  {
    State(None, [], None, false,
          seq(|refreshers|, t requires 0 <= t < |refreshers| => if refreshers[t] then Start else ReadStart), [])
  }

  /** A thread in a critical section. */
  predicate Inside(pc: Pc)
  {
    match pc
    case Checking | Refused | Marked | Storing(_) | HalfStored(_) | Stored | Clearing | Cleared => true
    case Reading | SeenTime(_) | Copied(_, _) => true
    case _ => false
  }

  /** A thread that waits for the lock. */
  predicate Waiting(pc: Pc)
  {
    pc.Start? || pc.Fetched? || pc.Finishing? || pc.ReadStart?
  }

  /** A thread between setting and clearing the flag. */
  predicate Busy(pc: Pc)
  {
    match pc
    case Marked | Fetching | Fetched(_) | Storing(_) | HalfStored(_) | Stored | Finishing | Clearing => true
    case _ => false
  }

  ghost predicate Enabled(s: State, t: nat)
  {
    && t < |s.pcs| && !s.pcs[t].Done? && !s.pcs[t].Answered?
    && (Waiting(s.pcs[t]) ==> s.lock.None?)
  }

  /** One statement of thread `t`.  A fetch yields some data or fails; the clock shows some time. */
  function Step(s: State, t: nat, fetched: Option<Data>, now: Time): State
    requires t < |s.pcs|
  {
    match s.pcs[t]
    case Start => s.(lock := Some(t), pcs := s.pcs[t := Checking])
    case Checking => if s.updating then s.(pcs := s.pcs[t := Refused]) else s.(updating := true, pcs := s.pcs[t := Marked])
    case Refused => s.(lock := None, pcs := s.pcs[t := Done])
    case Marked => s.(lock := None, pcs := s.pcs[t := Fetching])
    case Fetching => s.(pcs := s.pcs[t := if fetched.Some? then Fetched(fetched.value) else Finishing])
    case Fetched(data) => s.(lock := Some(t), pcs := s.pcs[t := Storing(data)])
    case Storing(data) => s.(data := data, pcs := s.pcs[t := HalfStored(data)])
    case HalfStored(data) => s.(lastUpdated := Some(now), pcs := s.pcs[t := Stored], fetches := s.fetches + [(data, now)])
    case Stored => s.(lock := None, pcs := s.pcs[t := Finishing])
    case Finishing => s.(lock := Some(t), pcs := s.pcs[t := Clearing])
    case Clearing => s.(updating := false, pcs := s.pcs[t := Cleared])
    case Cleared => s.(lock := None, pcs := s.pcs[t := Done])
    case ReadStart => s.(lock := Some(t), pcs := s.pcs[t := Reading])
    case Reading => s.(pcs := s.pcs[t := SeenTime(s.lastUpdated)])
    case SeenTime(time) => s.(pcs := s.pcs[t := Copied(time, s.data)])
    case Copied(time, seen) => s.(lock := None, pcs := s.pcs[t := Answered(time, seen, |s.fetches|)])
    case _ => s
  }

  datatype Event = Event(thread: nat, fetched: Option<Data>, now: Time)

  ghost function Run(refreshers: seq<bool>, es: seq<Event>): Option<State>
    decreases |es|
  {
    if es == [] then Some(Initial(refreshers))
    else
      var before, e := Run(refreshers, es[..|es| - 1]), es[|es| - 1];
      if before.None? || !Enabled(before.value, e.thread) then None
      else Some(Step(before.value, e.thread, e.fetched, e.now))
  }

  // ----- what every run keeps

  /** The lock is held by exactly the thread that is in a critical section. */
  ghost predicate Exclusive(s: State)
  {
    forall t :: 0 <= t < |s.pcs| ==> (Inside(s.pcs[t]) <==> s.lock == Some(t))
  }

  /** The flag is up exactly while some thread is between setting and clearing it, and then it is only one. */
  ghost predicate OneRefresher(s: State)
  {
    && (s.updating <==> exists t :: 0 <= t < |s.pcs| && Busy(s.pcs[t]))
    && forall t, u :: 0 <= t < |s.pcs| && 0 <= u < |s.pcs| && Busy(s.pcs[t]) && Busy(s.pcs[u]) ==> t == u
  }

  /** The content of the cache after the first `n` fetches. */
  function DataAfter(s: State, n: nat): Data
    requires n <= |s.fetches|
  {
    if n == 0 then [] else s.fetches[n - 1].0
  }

  function TimeAfter(s: State, n: nat): Option<Time>
    requires n <= |s.fetches|
  {
    if n == 0 then None else Some(s.fetches[n - 1].1)
  }

  /** What a thread knows of the cache is right. */
  ghost predicate Knows(s: State, pc: Pc)
  {
    match pc
    case HalfStored(data) => s.data == data
    case SeenTime(time) => time == s.lastUpdated
    case Copied(time, seen) => time == s.lastUpdated && seen == s.data
    case Answered(time, seen, after) => after <= |s.fetches| && time == TimeAfter(s, after) && seen == DataAfter(s, after)
    case _ => true
  }

  /** Outside the two statements of a store, data and time are those of the latest finished fetch. */
  ghost predicate Settled(s: State)
  {
    && s.lastUpdated == TimeAfter(s, |s.fetches|)
    && (s.data == DataAfter(s, |s.fetches|) || exists t :: 0 <= t < |s.pcs| && s.pcs[t].HalfStored?)
    && forall t :: 0 <= t < |s.pcs| ==> Knows(s, s.pcs[t])
  }

  ghost predicate Good(s: State)
  {
    Exclusive(s) && OneRefresher(s) && Settled(s)
  }

  lemma StepExclusive(s: State, t: nat, fetched: Option<Data>, now: Time)
    requires Exclusive(s) && Enabled(s, t)
    ensures Exclusive(Step(s, t, fetched, now))
  {
    assert Inside(s.pcs[t]) <==> s.lock == Some(t);
  }

  lemma StepOneRefresher(s: State, t: nat, fetched: Option<Data>, now: Time)
    requires OneRefresher(s) && Enabled(s, t)
    ensures OneRefresher(Step(s, t, fetched, now))
  {
    var s' := Step(s, t, fetched, now);
    assert forall u :: 0 <= u < |s.pcs| && u != t ==> s'.pcs[u] == s.pcs[u];
    if Busy(s'.pcs[t]) {
      assert s'.updating;
    } else if Busy(s.pcs[t]) {
      assert !s'.updating;
    }
  }

  lemma StepSettled(s: State, t: nat, fetched: Option<Data>, now: Time)
    requires Good(s) && Enabled(s, t)
    ensures Settled(Step(s, t, fetched, now))
  {
    var s' := Step(s, t, fetched, now);
    assert Inside(s.pcs[t]) <==> s.lock == Some(t);
    assert Knows(s, s.pcs[t]);
    assert s'.pcs[t].HalfStored? || s'.data == DataAfter(s', |s'.fetches|) || !Inside(s.pcs[t]) by {
      assert forall u :: 0 <= u < |s.pcs| && s.pcs[u].HalfStored? ==> Inside(s.pcs[u]);
    }
    forall u | 0 <= u < |s.pcs|
      ensures Knows(s', s'.pcs[u])
    {
      StepKnows(s, t, fetched, now, u);
    }
  }

  lemma StepKnows(s: State, t: nat, fetched: Option<Data>, now: Time, u: nat)
    requires Exclusive(s) && Settled(s) && Enabled(s, t) && u < |s.pcs|
    ensures Knows(Step(s, t, fetched, now), Step(s, t, fetched, now).pcs[u])
  {
    assert Knows(s, s.pcs[t]) && Knows(s, s.pcs[u]);
    assert Inside(s.pcs[t]) <==> s.lock == Some(t);
    assert Inside(s.pcs[u]) <==> s.lock == Some(u);
    assert forall v :: 0 <= v < |s.pcs| && s.pcs[v].HalfStored? ==> Inside(s.pcs[v]);
  }

  lemma {:induction false} RunGood(refreshers: seq<bool>, es: seq<Event>)
    requires Run(refreshers, es).Some?
    ensures Good(Run(refreshers, es).value)
    decreases |es|
  {
    if es != [] {
      var before, e := es[..|es| - 1], es[|es| - 1];
      RunGood(refreshers, before);
      var s := Run(refreshers, before).value;
      StepExclusive(s, e.thread, e.fetched, e.now);
      StepOneRefresher(s, e.thread, e.fetched, e.now);
      StepSettled(s, e.thread, e.fetched, e.now);
    }
  }

  /** In every interleaving, also with failing fetches: at most one thread is refreshing, the flag says so exactly,
      and no two threads are in critical sections at once. */
  lemma RefreshIsExclusive(refreshers: seq<bool>, es: seq<Event>, t: nat, u: nat)
    requires Run(refreshers, es).Some? && t < |Run(refreshers, es).value.pcs| && u < |Run(refreshers, es).value.pcs|
    ensures var s := Run(refreshers, es).value;
            && (Busy(s.pcs[t]) && Busy(s.pcs[u]) ==> t == u) && (Inside(s.pcs[t]) && Inside(s.pcs[u]) ==> t == u)
            && (s.updating <==> exists v :: 0 <= v < |s.pcs| && Busy(s.pcs[v]))
  {
    RunGood(refreshers, es);
  }

  /** Whatever a reader answers with, its data and its time come from the same fetch: the latest one finished when
      it let go of the lock. */
  lemma ReadersSeeOneFetch(refreshers: seq<bool>, es: seq<Event>, t: nat)
    requires Run(refreshers, es).Some? && t < |Run(refreshers, es).value.pcs| && Run(refreshers, es).value.pcs[t].Answered?
    ensures var s := Run(refreshers, es).value; var pc := s.pcs[t];
            pc.after <= |s.fetches| && pc.time == TimeAfter(s, pc.after) && pc.seen == DataAfter(s, pc.after)
  {
    RunGood(refreshers, es);
    var s := Run(refreshers, es).value;
    assert Knows(s, s.pcs[t]);
  }

  /** Nobody gets stuck: as long as a thread has not ended, some thread can take a step. */
  lemma SomeThreadMoves(refreshers: seq<bool>, es: seq<Event>, t: nat)
    requires Run(refreshers, es).Some? && t < |Run(refreshers, es).value.pcs|
    requires !Run(refreshers, es).value.pcs[t].Done? && !Run(refreshers, es).value.pcs[t].Answered?
    ensures exists u :: Enabled(Run(refreshers, es).value, u)
  {
    RunGood(refreshers, es);
    LockHolderExists(refreshers, es);
    var s := Run(refreshers, es).value;
    assert Enabled(s, if s.lock.Some? then s.lock.value else t);
  }

  lemma {:induction false} LockHolderExists(refreshers: seq<bool>, es: seq<Event>)
    requires Run(refreshers, es).Some?
    ensures var s := Run(refreshers, es).value; s.lock.Some? ==> s.lock.value < |s.pcs| && Inside(s.pcs[s.lock.value])
    decreases |es|
  {
    if es != [] {
      LockHolderExists(refreshers, es[..|es| - 1]);
      RunGood(refreshers, es[..|es| - 1]);
      RunGood(refreshers, es);
    }
  }
}
