/** The JSON database: queued mutations on a copy, persisted by rename, then published. */
module JsonStore {
  import opened Wrappers

  /** What a mutation makes of its copy of the database; None when it throws. */
  type Mutation<!Data> = Data -> Option<Data>

  datatype Phase<!Data> =
    | Idle
    | Mutated(mutation: Mutation<Data>, next: Data)
    | Written(mutation: Mutation<Data>, next: Data)
    | Renamed(mutation: Mutation<Data>, next: Data)

  /** How a submitted mutation ended. */
  datatype Fate = Succeeded | Failed | Lost

  datatype Settled<!Data> = Settled(mutation: Mutation<Data>, fate: Fate)

  /** Memory, the file and its temporary sibling, the queue, the operation in progress, and (for the proofs only) the
      mutations submitted and how the finished ones ended. */
  datatype Store<!Data> = Store(
    data: Data, file: Data, temporary: Option<Data>, queue: seq<Mutation<Data>>, phase: Phase<Data>,
    submitted: seq<Mutation<Data>>, settled: seq<Settled<Data>>)

  datatype Action<!Data> =
    | Submit(mutation: Mutation<Data>)
    | Start
    | WriteTemporary
    | Rename
    | Publish
    | DiskError
    | Crash

  function Fresh<Data>(data: Data): Store<Data> {
    Store(data, data, None, [], Idle, [], [])
  }

  function Finish<Data>(s: Store<Data>, fate: Fate): Store<Data>
    requires !s.phase.Idle?
  {
    s.(phase := Idle, settled := s.settled + [Settled(s.phase.mutation, fate)])
  }

  function AllLost<Data>(mutations: seq<Mutation<Data>>): seq<Settled<Data>> {
    seq(|mutations|, i requires 0 <= i < |mutations| => Settled(mutations[i], Lost))
  }

  /** Memory is gone; what the next start reads is the file. An operation whose rename happened has taken effect. */
  function Restart<Data>(s: Store<Data>): Store<Data> {
    var inFlight := match s.phase
      case Idle => []
      case Renamed(m, _) => [Settled(m, Succeeded)]
      case _ => [Settled(s.phase.mutation, Lost)];
    s.(data := s.file, queue := [], phase := Idle, settled := s.settled + inFlight + AllLost(s.queue))
  }

  /** One step; an action that does not apply changes nothing. */
  function Step<Data>(s: Store<Data>, action: Action<Data>): Store<Data> {
    match action
    case Submit(m) => s.(queue := s.queue + [m], submitted := s.submitted + [m])
    case Start =>
      if !s.phase.Idle? || s.queue == [] then s
      else
        var m, rest := s.queue[0], s.queue[1..];
        var next := m(s.data);
        if next.None? then s.(queue := rest, settled := s.settled + [Settled(m, Failed)])
        else s.(queue := rest, phase := Mutated(m, next.value))
    case WriteTemporary =>
      if s.phase.Mutated? then s.(temporary := Some(s.phase.next), phase := Written(s.phase.mutation, s.phase.next))
      else s
    case Rename =>
      if s.phase.Written?
      then s.(file := s.phase.next, temporary := None, phase := Renamed(s.phase.mutation, s.phase.next)) else s
    case Publish =>
      if s.phase.Renamed? then Finish(s, Succeeded).(data := s.phase.next) else s
    case DiskError =>
      if s.phase.Mutated? || s.phase.Written? then Finish(s, Failed) else s
    case Crash => Restart(s)
  }

  function Run<Data>(initial: Data, actions: seq<Action<Data>>): Store<Data> {
    if actions == [] then Fresh(initial) else Step(Run(initial, actions[..|actions| - 1]), actions[|actions| - 1])
  }

  // ----- Linearizability

  function ApplyOne<Data>(data: Data, done: Settled<Data>): Data {
    if done.fate.Succeeded? && done.mutation(data).Some? then done.mutation(data).value else data
  }

  /** The successful mutations, applied in the order they were submitted. */
  function Fold<Data>(initial: Data, settled: seq<Settled<Data>>): Data {
    if settled == [] then initial else ApplyOne(Fold(initial, settled[..|settled| - 1]), settled[|settled| - 1])
  }

  /** A mutation that succeeded did not throw on the database it was given. */
  ghost predicate Honest<Data>(initial: Data, settled: seq<Settled<Data>>) {
    forall i | 0 <= i < |settled| && settled[i].fate.Succeeded? ::
        settled[i].mutation(Fold(initial, settled[..i])).Some?
  }

  function Mutations<Data>(settled: seq<Settled<Data>>): seq<Mutation<Data>> {
    seq(|settled|, i requires 0 <= i < |settled| => settled[i].mutation)
  }

  function InFlight<Data>(phase: Phase<Data>): seq<Mutation<Data>> {
    if phase.Idle? then [] else [phase.mutation]
  }

  /** Memory is the fold of the successes; mutations are taken strictly in submission order; the file equals memory,
      or is ahead of it by exactly the operation in progress. */
  ghost predicate Linear<Data>(initial: Data, s: Store<Data>) {
    && s.data == Fold(initial, s.settled)
    && Honest(initial, s.settled)
    && s.submitted == Mutations(s.settled) + InFlight(s.phase) + s.queue
    && (!s.phase.Idle? ==> s.phase.mutation(s.data) == Some(s.phase.next))
    && s.file == (if s.phase.Renamed? then s.phase.next else s.data)
    && (s.phase.Written? ==> s.temporary == Some(s.phase.next))
  }

  lemma EmptyMiddle<T>(a: seq<T>, b: seq<T>)
    ensures a + [] + b == a + b
  {
  }

  lemma TakeFirst<T>(a: seq<T>, queue: seq<T>)
    requires queue != []
    ensures a + [] + queue == a + [queue[0]] + queue[1..]
    ensures a + [] + queue == (a + [queue[0]]) + [] + queue[1..]
  {
    EmptyMiddle(a, queue);
    EmptyMiddle(a + [queue[0]], queue[1..]);
    assert queue == [queue[0]] + queue[1..];
  }

  lemma EmptyTail<T>(a: seq<T>)
    ensures a + [] + [] == a
  {
  }

  lemma FoldSnoc<Data>(initial: Data, settled: seq<Settled<Data>>, last: Settled<Data>)
    ensures Fold(initial, settled + [last]) == ApplyOne(Fold(initial, settled), last)
    ensures Mutations(settled + [last]) == Mutations(settled) + [last.mutation]
  {
    assert (settled + [last])[..|settled|] == settled;
  }

  lemma HonestSnoc<Data>(initial: Data, settled: seq<Settled<Data>>, last: Settled<Data>)
    requires Honest(initial, settled)
    requires last.fate.Succeeded? ==> last.mutation(Fold(initial, settled)).Some?
    ensures Honest(initial, settled + [last])
  {
    var longer := settled + [last];
    forall i | 0 <= i < |longer| && longer[i].fate.Succeeded?
      ensures longer[i].mutation(Fold(initial, longer[..i])).Some?
    {
      assert longer[..i] == settled[..i];
      assert settled[..|settled|] == settled;
    }
  }

  lemma {:induction false} LostChangesNothing<Data>(initial: Data, settled: seq<Settled<Data>>,
                                                    lost: seq<Mutation<Data>>)
    requires Honest(initial, settled)
    ensures Fold(initial, settled + AllLost(lost)) == Fold(initial, settled)
    ensures Honest(initial, settled + AllLost(lost))
    ensures Mutations(settled + AllLost(lost)) == Mutations(settled) + lost
  {
    if lost == [] {
      assert settled + AllLost(lost) == settled;
    } else {
      var init, last := lost[..|lost| - 1], Settled(lost[|lost| - 1], Lost);
      LostChangesNothing(initial, settled, init);
      assert settled + AllLost(lost) == settled + AllLost(init) + [last];
      FoldSnoc(initial, settled + AllLost(init), last);
      HonestSnoc(initial, settled + AllLost(init), last);
      assert Mutations(settled) + lost == Mutations(settled) + init + [last.mutation];
    }
  }

  lemma FinishIsLinear<Data>(initial: Data, s: Store<Data>, fate: Fate)
    requires Linear(initial, s) && !s.phase.Idle?
    requires if fate.Succeeded? then s.phase.Renamed? else !s.phase.Renamed?
    ensures Linear(initial, Finish(s, fate).(data := if fate.Succeeded? then s.phase.next else s.data))
  {
    var done := Settled(s.phase.mutation, fate);
    EmptyMiddle(Mutations(s.settled) + [s.phase.mutation], s.queue);
    LinearFacts(initial, s);
    hide Fold, Honest, Mutations;
    FoldSnoc(initial, s.settled, done);
    HonestSnoc(initial, s.settled, done);
  }

  lemma StartIsLinear<Data>(initial: Data, s: Store<Data>)
    requires Linear(initial, s) && s.phase.Idle? && s.queue != []
    ensures Linear(initial, Step(s, Start))
  {
    var m := s.queue[0];
    TakeFirst(Mutations(s.settled), s.queue);
    hide Fold, Honest, Mutations;
    FoldSnoc(initial, s.settled, Settled(m, Failed));
    HonestSnoc(initial, s.settled, Settled(m, Failed));
  }

  lemma SettleInFlight<Data>(initial: Data, s: Store<Data>) returns (idle: Store<Data>)
    requires Linear(initial, s)
    ensures Linear(initial, idle) && idle.phase.Idle? && idle.queue == s.queue && idle.data == s.file
    ensures idle.file == s.file
    ensures Restart(s) == idle.(queue := [], settled := idle.settled + AllLost(s.queue))
  {
    RestartSettled(s);
    LinearFacts(initial, s);
    hide Linear, Fold, Honest, Mutations, AllLost;
    if s.phase.Idle? {
      idle := s;
    } else if s.phase.Renamed? {
      idle := Finish(s, Succeeded).(data := s.phase.next);
      FinishIsLinear(initial, s, Succeeded);
    } else {
      idle := Finish(s, Lost);
      FinishIsLinear(initial, s, Lost);
    }
  }

  lemma RestartIsLinear<Data>(initial: Data, s: Store<Data>)
    requires Linear(initial, s)
    ensures Linear(initial, Restart(s))
  {
    var idle := SettleInFlight(initial, s);
    EmptyMiddle(Mutations(idle.settled), s.queue);
    EmptyTail(Mutations(idle.settled) + s.queue);
    hide Fold, Honest, Mutations, AllLost, Restart;
    LostChangesNothing(initial, idle.settled, s.queue);
  }

  lemma RestartSettled<Data>(s: Store<Data>)
    ensures Restart(s).settled == (if s.phase.Idle? then s.settled
      else if s.phase.Renamed? then s.settled + [Settled(s.phase.mutation, Succeeded)]
      else s.settled + [Settled(s.phase.mutation, Lost)]) + AllLost(s.queue)
  {
    assert s.settled + [] == s.settled;
  }

  lemma StepIsLinear<Data>(initial: Data, s: Store<Data>, action: Action<Data>)
    requires Linear(initial, s)
    ensures Linear(initial, Step(s, action))
  {
    hide Fold, Honest, Mutations, AllLost;
    match action
    case Submit(m) =>
      assert Mutations(s.settled) + InFlight(s.phase) + (s.queue + [m])
           == Mutations(s.settled) + InFlight(s.phase) + s.queue + [m];
    case Start => if s.phase.Idle? && s.queue != [] { StartIsLinear(initial, s); }
    case WriteTemporary =>
    case Rename =>
    case Publish => if s.phase.Renamed? { FinishIsLinear(initial, s, Succeeded); }
    case DiskError => if s.phase.Mutated? || s.phase.Written? { FinishIsLinear(initial, s, Failed); }
    case Crash => RestartIsLinear(initial, s);
  }

  /** Over every run -- any submissions, throwing mutations, disk errors and crashes, at any point -- the store is
      the fold of the successful mutations in submission order. */
  lemma {:induction false} StoreIsLinearizable<Data>(initial: Data, actions: seq<Action<Data>>)
    ensures Linear(initial, Run(initial, actions))
  {
    hide Linear, Step;
    if actions == [] {
      assert Linear(initial, Fresh(initial)) by { FreshIsLinear(initial); }
    } else {
      StoreIsLinearizable(initial, actions[..|actions| - 1]);
      StepIsLinear(initial, Run(initial, actions[..|actions| - 1]), actions[|actions| - 1]);
    }
  }

  lemma FreshIsLinear<Data>(initial: Data)
    ensures Linear(initial, Fresh(initial))
  {
  }

  /** A crash at any step leaves the state after the successful mutations, and the in-flight one if its rename
      happened. */
  lemma CrashKeepsAPrefix<Data>(initial: Data, actions: seq<Action<Data>>)
    ensures var s := Run(initial, actions);
      Step(s, Crash).data == if s.phase.Renamed? then Fold(initial, s.settled + [Settled(s.phase.mutation, Succeeded)])
                             else Fold(initial, s.settled)
  {
    var s := Run(initial, actions);
    StoreIsLinearizable(initial, actions);
    hide Fold, Honest, Mutations, Run;
    if s.phase.Renamed? {
      FoldSnoc(initial, s.settled, Settled(s.phase.mutation, Succeeded));
    }
  }

  /** A mutation that throws, or a disk error, leaves memory and file untouched and the queue free to go on. */
  lemma FailureLeavesNoTrace<Data>(initial: Data, actions: seq<Action<Data>>, action: Action<Data>)
    requires action.Start? || action.DiskError?
    ensures var s, t := Run(initial, actions), Step(Run(initial, actions), action);
      && t.data == s.data && t.file == s.file
      && (|t.settled| > |s.settled| ==> t.phase.Idle? && t.settled[|s.settled|].fate == Failed)
  {
    StoreIsLinearizable(initial, actions);
    hide Fold, Honest, Mutations, Run;
  }

  // ----- The object

  class JsonStore<!Data> {
    var data: Data
    var file: Data
    var temporary: Option<Data>
    var queue: seq<Mutation<Data>>
    var phase: Phase<Data>
    ghost var submitted: seq<Mutation<Data>>
    ghost var settled: seq<Settled<Data>>

    ghost function State(): Store<Data>
      reads this
    {
      Store(data, file, temporary, queue, phase, submitted, settled)
    }

    constructor (initial: Data)
      ensures State() == Fresh(initial)
    {
      data, file, temporary, queue, phase := initial, initial, None, [], Idle;
      submitted, settled := [], [];
    }

    method Enqueue(mutation: Mutation<Data>)
      modifies this
      ensures State() == Step(old(State()), Submit(mutation))
    {
      queue, submitted := queue + [mutation], submitted + [mutation];
    }

    /** Copies the database and runs the next queued mutation on the copy. */
    method Begin() returns (thrown: bool)
      requires phase.Idle? && queue != []
      modifies this
      ensures State() == Step(old(State()), Start)
      ensures thrown <==> phase.Idle?
    {
      var mutation := queue[0];
      queue := queue[1..];
      var next := mutation(data);
      if next.None? {
        settled := settled + [Settled(mutation, Failed)];
        return true;
      }
      phase := Mutated(mutation, next.value);
      return false;
    }

    /** Writes the temporary file and renames it over the database; either may fail. */
    method Persist(writeFails: bool, renameFails: bool) returns (ok: bool)
      requires phase.Mutated?
      modifies this
      ensures ok <==> !writeFails && !renameFails
      ensures writeFails ==> State() == Step(old(State()), DiskError)
      ensures !writeFails && renameFails ==> State() == Step(Step(old(State()), WriteTemporary), DiskError)
      ensures ok ==> State() == Step(Step(old(State()), WriteTemporary), Rename)
    {
      var mutation, next := phase.mutation, phase.next;
      if writeFails {
        phase, settled := Idle, settled + [Settled(mutation, Failed)];
        return false;
      }
      temporary, phase := Some(next), Written(mutation, next);
      if renameFails {
        phase, settled := Idle, settled + [Settled(mutation, Failed)];
        return false;
      }
      file, temporary, phase := next, None, Renamed(mutation, next);
      return true;
    }

    method PublishNext()
      requires phase.Renamed?
      modifies this
      ensures State() == Step(old(State()), Publish)
    {
      data, settled := phase.next, settled + [Settled(phase.mutation, Succeeded)];
      phase := Idle;
    }

    /** The queue's loop, undisturbed: every queued mutation is settled, in order, and one that throws does not block
        the next. */
    method DrainQueue(ghost initial: Data)
      requires Linear(initial, State()) && phase.Idle?
      modifies this
      ensures Linear(initial, State()) && phase.Idle? && queue == [] && submitted == old(submitted)
      ensures |settled| == |old(settled)| + |old(queue)| && AttemptedFrom(initial, settled, |old(settled)|)
    {
      hide Fold, Honest, Mutations, Linear, AttemptedFrom;
      ghost var first := |settled|;
      NothingAttempted(initial, settled);
      while queue != []
        invariant Linear(initial, State()) && phase.Idle? && submitted == old(submitted)
        invariant |settled| + |queue| == first + |old(queue)|
        invariant first <= |settled| && AttemptedFrom(initial, settled, first)
        decreases |queue|
      {
        ghost var before := settled;
        DrainOne(initial);
        AttemptOne(initial, before, settled, first);
      }
    }

    /** A mutation submitted to an undisturbed store runs on what everything queued before it left, and that stays if it
        throws. */
    method Mutate(mutation: Mutation<Data>, ghost initial: Data)
      requires Linear(initial, State()) && phase.Idle?
      modifies this
      ensures Linear(initial, State()) && phase.Idle? && queue == [] && submitted == old(submitted) + [mutation]
      ensures |settled| == |old(settled)| + |old(queue)| + 1 && settled[|settled| - 1].mutation == mutation
      ensures var before := Fold(initial, settled[..|settled| - 1]);
        data == file == if mutation(before).Some? then mutation(before).value else before
    {
      hide Fold, Honest, Mutations, Linear, AttemptedFrom;
      StepIsLinear(initial, State(), Submit(mutation));
      Enqueue(mutation);
      DrainQueue(initial);
      LastSubmitted(initial, State(), old(submitted), mutation, |old(settled)|);
    }

    method DrainOne(ghost initial: Data)
      requires Linear(initial, State()) && phase.Idle? && queue != []
      modifies this
      ensures Linear(initial, State()) && phase.Idle? && queue == old(queue)[1..] && submitted == old(submitted)
      ensures |settled| == |old(settled)| + 1 && settled[..|old(settled)|] == old(settled)
      ensures settled[|old(settled)|].fate
           == if settled[|old(settled)|].mutation(Fold(initial, old(settled))).Some? then Succeeded else Failed
    {
      hide Fold, Honest, Mutations, Linear;
      ghost var s0 := State();
      LinearFacts(initial, s0);
      StepIsLinear(initial, s0, Start);
      var thrown := Begin();
      if !thrown {
        ghost var s1 := State();
        StepIsLinear(initial, s1, WriteTemporary);
        StepIsLinear(initial, Step(s1, WriteTemporary), Rename);
        var _ := Persist(false, false);
        StepIsLinear(initial, State(), Publish);
        PublishNext();
      }
    }
  }

  /** From position `from` on, every mutation that did not throw succeeded. */
  ghost predicate AttemptedFrom<Data>(initial: Data, settled: seq<Settled<Data>>, from: nat) {
    forall i | from <= i < |settled| ::
      settled[i].fate == if settled[i].mutation(Fold(initial, settled[..i])).Some? then Succeeded else Failed
  }

  lemma NothingAttempted<Data>(initial: Data, settled: seq<Settled<Data>>)
    ensures AttemptedFrom(initial, settled, |settled|)
  {
  }

  lemma AttemptOne<Data>(initial: Data, before: seq<Settled<Data>>, after: seq<Settled<Data>>, from: nat)
    requires from <= |before| && AttemptedFrom(initial, before, from)
    requires |after| == |before| + 1 && after[..|before|] == before
    requires after[|before|].fate == if after[|before|].mutation(Fold(initial, before)).Some? then Succeeded else Failed
    ensures AttemptedFrom(initial, after, from)
  {
    hide Fold;
    forall i | from <= i < |after|
      ensures after[i].fate == if after[i].mutation(Fold(initial, after[..i])).Some? then Succeeded else Failed
    {
      if i < |before| {
        assert after[i] == before[i] && after[..i] == before[..i];
      }
    }
  }

  /** With nothing in progress, the mutation submitted last is the one settled last, on what those before it left. */
  lemma LastSubmitted<Data>(initial: Data, s: Store<Data>, submitted: seq<Mutation<Data>>, last: Mutation<Data>,
                            from: nat)
    requires Linear(initial, s) && s.phase.Idle? && s.queue == [] && s.submitted == submitted + [last]
    requires AttemptedFrom(initial, s.settled, from) && from < |s.settled|
    ensures s.settled[|s.settled| - 1].mutation == last
    ensures var before := Fold(initial, s.settled[..|s.settled| - 1]);
      s.data == s.file == if last(before).Some? then last(before).value else before
  {
    LinearFacts(initial, s);
    EmptyTail(Mutations(s.settled));
    assert Mutations(s.settled)[|s.settled| - 1] == s.settled[|s.settled| - 1].mutation;
    hide Linear, Honest;
  }

  lemma LinearFacts<Data>(initial: Data, s: Store<Data>)
    requires Linear(initial, s)
    ensures s.data == Fold(initial, s.settled) && s.submitted == Mutations(s.settled) + InFlight(s.phase) + s.queue
    ensures s.file == (if s.phase.Renamed? then s.phase.next else s.data)
  {
  }
}
