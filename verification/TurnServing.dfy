/** Runs in which the pool serves one published job after the other: each gets a slot, starts, returns and is recorded
    before the next one is taken. The jobs come from the turn itself or from a runner that publishes a tier again. */
module TurnServing {
  import opened Jobs
  import opened PoolProtocol
  import opened PoolSafety

  /** The pool takes every step of the run itself. */
  predicate OwnOnly(steps: seq<Step>) { forall step :: step in steps ==> !step.Register? }

  ghost predicate Leads(s: State, steps: seq<Step>, t: State) {
    Runs(s, steps, t) && OwnOnly(steps)
  }

  lemma LeadsOne(s: State, step: Step, t: State)
    requires Enabled(s, step) && !step.Register? && t == Next(s, step)
    ensures Leads(s, [step], t)
  {
    OneStepRuns(s, step);
  }

  lemma LeadsConcat(s: State, one: seq<Step>, m: State, two: seq<Step>, t: State)
    requires Leads(s, one, m) && Leads(m, two, t)
    ensures Leads(s, one + two, t)
  {
    RunsConcat(s, one, m, two, t);
  }

  predicate Idle(s: State) { s.queue == [] && s.waiting.None? }

  // ---------------------------------------------------------------- one job

  /** Where a job comes from: the turn, or the runner at place `p`. */
  datatype Source = Turn | Publisher(p: nat)

  function Pending(s: State, src: Source): seq<Job> {
    match src
    case Turn => s.outbox
    case Publisher(p) => if p < |s.tasks| && s.tasks[p].pc.Publishing? then s.tasks[p].pc.rest else []
  }

  /** From `s` to `t`, `n` jobs of `src` were taken, `added` runners came up, and nothing else published anything. */
  predicate Took(s: State, src: Source, n: nat, added: nat, t: State) {
    && Idle(t) && |t.tasks| == |s.tasks| + added && t.maxSize == s.maxSize
    && n <= |Pending(s, src)| && Pending(t, src) == Pending(s, src)[n..]
    && (src != Turn ==> t.outbox == s.outbox)
    && forall q :: 0 <= q < |s.tasks| && src != Publisher(q) ==> t.tasks[q] == s.tasks[q]
  }

  lemma QueueOne(s: State, src: Source) returns (steps: seq<Step>, t: State)
    requires Idle(s) && Pending(s, src) != []
    ensures Leads(s, steps, t) && t.queue == [Pending(s, src)[0]] && t.waiting.None? && t.permits == s.permits
    ensures |t.tasks| == |s.tasks| && Pending(t, src) == Pending(s, src)[1..] && (src != Turn ==> t.outbox == s.outbox)
    ensures forall q :: 0 <= q < |s.tasks| && src != Publisher(q) ==> t.tasks[q] == s.tasks[q]
    ensures t.registry == s.registry && t.started == s.started && t.returned == s.returned && t.maxSize == s.maxSize
  {
    var step := if src == Turn then Deliver else Publish(src.p);
    t := Next(s, step);
    steps := [step];
    LeadsOne(s, step, t);
  }

  lemma SpawnQueued(s: State) returns (steps: seq<Step>, t: State)
    requires |s.queue| == 1 && s.waiting.None? && s.permits > 0
    ensures Leads(s, steps, t)
    ensures t == s.(queue := [], permits := s.permits - 1, queuedCount := t.queuedCount,
                    tasks := s.tasks + [Task(s.queue[0], Spawned)])
  {
    var m := Next(s, Receive);
    t := Next(m, Acquire);
    LeadsOne(s, Receive, m);
    LeadsOne(m, Acquire, t);
    LeadsConcat(s, [Receive], m, [Acquire], t);
    steps := [Receive] + [Acquire];
  }

  /** The next job of the source gets a slot. */
  lemma SpawnOne(s: State, src: Source) returns (steps: seq<Step>, t: State)
    requires Idle(s) && Pending(s, src) != [] && s.permits > 0
    ensures Leads(s, steps, t) && Took(s, src, 1, 1, t)
    ensures t.tasks[|s.tasks|] == Task(Pending(s, src)[0], Spawned) && t.permits == s.permits - 1
    ensures t.registry == s.registry && t.started == s.started && t.returned == s.returned
  {
    var one, m := QueueOne(s, src);
    var two;
    two, t := SpawnQueued(m);
    steps := one + two;
    LeadsConcat(s, one, m, two, t);
  }

  /** And starts. */
  lemma StartOne(s: State, src: Source) returns (steps: seq<Step>, t: State)
    requires Idle(s) && Pending(s, src) != [] && s.permits > 0
    ensures Leads(s, steps, t) && Took(s, src, 1, 1, t)
    ensures t.tasks[|s.tasks|].pc.Running? && t.tasks[|s.tasks|].job == Pending(s, src)[0] && t.permits == s.permits - 1
    ensures t.registry == s.registry && t.started == s.started + multiset{Pending(s, src)[0]} && t.returned == s.returned
  {
    var one, m := SpawnOne(s, src);
    var step := Start(|s.tasks|);
    t := Next(m, step);
    LeadsOne(m, step, t);
    LeadsConcat(s, one, m, [step], t);
    steps := one + [step];
  }

  /** The runner at place `i` returns and is recorded at once. */
  lemma FinishOne(s: State, i: nat) returns (steps: seq<Step>, t: State)
    requires i < |s.tasks| && s.tasks[i].pc.Running?
    ensures Leads(s, steps, t)
    ensures var j := s.tasks[i].job;
            t == s.(tasks := AtPc(s, i, Continuation(s.registry, j.batch)), permits := s.permits + 1,
                    runners := t.runners, activeCount := t.activeCount, returned := s.returned + multiset{j},
                    registry := AfterRecord(s.registry, j))
  {
    var m := Next(s, Return(i));
    t := Next(m, Record(i));
    LeadsOne(s, Return(i), m);
    LeadsOne(m, Record(i), t);
    LeadsConcat(s, [Return(i)], m, [Record(i)], t);
    steps := [Return(i)] + [Record(i)];
  }

  lemma ServeOne(s: State, src: Source) returns (steps: seq<Step>, t: State)
    requires Idle(s) && Pending(s, src) != [] && s.permits > 0
    ensures Leads(s, steps, t) && Took(s, src, 1, 1, t) && t.permits == s.permits
    ensures var j := Pending(s, src)[0];
            && t.tasks[|s.tasks|] == Task(j, Continuation(s.registry, j.batch))
            && t.registry == AfterRecord(s.registry, j) && t.returned == s.returned + multiset{j}
  {
    var one, m := StartOne(s, src);
    var two;
    two, t := FinishOne(m, |s.tasks|);
    steps := one + two;
    LeadsConcat(s, one, m, two, t);
  }

  // ---------------------------------------------------------------- one after the other

  /** The registry when the jobs of `q` have been recorded. */
  function RecordAll(r: Registry, q: seq<Job>): Registry {
    if q == [] then r else AfterRecord(RecordAll(r, q[..|q| - 1]), q[|q| - 1])
  }

  /** The runner of the `m`-th job is where recording that job has brought it. */
  predicate Continues(s: State, q: seq<Job>, m: nat, t: State)
    requires m < |q|
  {
    && |s.tasks| + m < |t.tasks|
    && t.tasks[|s.tasks| + m] == Task(q[m], Continuation(RecordAll(s.registry, q[..m]), q[m].batch))
  }

  ghost predicate Served(s: State, src: Source, n: nat, t: State) {
    && Took(s, src, n, n, t) && t.permits == s.permits
    && var q := Pending(s, src)[..n];
       && t.registry == RecordAll(s.registry, q) && t.returned == s.returned + multiset(q)
       && forall m :: 0 <= m < n ==> Continues(s, q, m, t)
  }

  lemma ServedMore(s: State, src: Source, n: nat, m: State, t: State)
    requires Served(s, src, n, m) && n < |Pending(s, src)|
    requires Took(m, src, 1, 1, t) && t.permits == m.permits
    requires src.Publisher? ==> src.p < |s.tasks|
    requires var j := Pending(m, src)[0];
             && t.tasks[|m.tasks|] == Task(j, Continuation(m.registry, j.batch))
             && t.registry == AfterRecord(m.registry, j) && t.returned == m.returned + multiset{j}
    ensures Served(s, src, n + 1, t)
  {
    var q, longer := Pending(s, src)[..n], Pending(s, src)[..n + 1];
    assert longer == q + [Pending(m, src)[0]];
    assert longer[..n] == q;
    forall k | 0 <= k < n + 1
      ensures Continues(s, longer, k, t)
    {
      assert longer[..k] == q[..if k < n then k else n];
      assert k < n ==> Continues(s, q, k, m);
    }
  }

  /** The first `n` jobs of the source are served. */
  lemma {:induction false} ServeFirst(s: State, src: Source, n: nat) returns (steps: seq<Step>, t: State)
    requires Idle(s) && n <= |Pending(s, src)| && s.permits > 0 && (src.Publisher? ==> src.p < |s.tasks|)
    ensures Leads(s, steps, t) && Served(s, src, n, t)
    decreases n
  {
    if n == 0 {
      steps, t := [], s;
    } else {
      var one, m := ServeFirst(s, src, n - 1);
      var two;
      two, t := ServeOne(m, src);
      steps := one + two;
      LeadsConcat(s, one, m, two, t);
      ServedMore(s, src, n - 1, m, t);
    }
  }
}
