/** A pool with one slot starts jobs in the order in which they come to its queue. A turn whose order `KeepsGate` therefore
    keeps the tier gate, although the tiers are published twice and more. */
module OneSlot {
  import opened Jobs
  import opened PoolProtocol
  import opened PoolSafety
  import opened TurnOrder

  // ---------------------------------------------------------------- the start line

  predicate Holds(t: Task) { t.pc.Spawned? || t.pc.Running? }

  /** The jobs of the runners that hold a slot. */
  function SlotJobs(tasks: seq<Task>): seq<Job> {
    if tasks == [] then []
    else SlotJobs(tasks[..|tasks| - 1]) + (if Holds(tasks[|tasks| - 1]) then [tasks[|tasks| - 1].job] else [])
  }

  lemma {:induction false} SlotJobsCount(tasks: seq<Task>)
    ensures |SlotJobs(tasks)| == Count(Slot, tasks)
    decreases |tasks|
  {
    if tasks != [] {
      SlotJobsCount(tasks[..|tasks| - 1]);
    }
  }

  lemma {:induction false} SlotJobsContain(tasks: seq<Task>, i: nat)
    requires i < |tasks| && Holds(tasks[i])
    ensures tasks[i].job in SlotJobs(tasks)
    decreases |tasks|
  {
    if i < |tasks| - 1 {
      SlotJobsContain(tasks[..|tasks| - 1], i);
    }
  }

  lemma OnlySlotJob(tasks: seq<Task>, i: nat)
    requires i < |tasks| && Holds(tasks[i]) && Count(Slot, tasks) <= 1
    ensures SlotJobs(tasks) == [tasks[i].job]
  {
    SlotJobsCount(tasks);
    SlotJobsContain(tasks, i);
  }

  lemma SlotEmptied(tasks: seq<Task>, i: nat, t: Task)
    requires i < |tasks| && Holds(tasks[i]) && Count(Slot, tasks) <= 1 && !Holds(t)
    ensures SlotJobs(tasks[i := t]) == []
  {
    CountUpdate(Slot, tasks, i, t);
    SlotJobsCount(tasks[i := t]);
  }

  lemma {:induction false} SlotJobsSame(tasks: seq<Task>, i: nat, t: Task)
    requires i < |tasks| && Holds(t) == Holds(tasks[i]) && t.job == tasks[i].job
    ensures SlotJobs(tasks[i := t]) == SlotJobs(tasks)
    decreases |tasks|
  {
    var n := |tasks| - 1;
    if i == n {
      assert tasks[i := t][..n] == tasks[..n];
    } else {
      SlotJobsSame(tasks[..n], i, t);
      assert tasks[i := t][..n] == tasks[..n][i := t];
    }
  }

  lemma SlotJobsAppend(tasks: seq<Task>, t: Task)
    ensures SlotJobs(tasks + [t]) == SlotJobs(tasks) + (if Holds(t) then [t.job] else [])
  {
    assert (tasks + [t])[..|tasks|] == tasks;
  }

  function Waiting(s: State): seq<Job> {
    if s.waiting.Some? then [s.waiting.value] else []
  }

  /** The jobs that have not returned, in the order in which they get the slot. */
  function Line(s: State): seq<Job> {
    SlotJobs(s.tasks) + (Waiting(s) + s.queue)
  }

  datatype Change = Same | Join(j: Job) | Leave(j: Job)

  /** What a step does to the line. */
  predicate Changes(c: Change, s: State, n: State) {
    match c
    case Same => Line(n) == Line(s) && n.returned == s.returned
    case Join(j) => Line(n) == Line(s) + [j] && n.returned == s.returned
    case Leave(j) => Line(s) == [j] + Line(n) && n.returned == s.returned + multiset{j}
  }

  function ChangeOf(s: State, step: Step): Change {
    match step
    case Deliver => if s.outbox != [] then Join(s.outbox[0]) else Same
    case Publish(i) => if i < |s.tasks| && s.tasks[i].pc.Publishing? && s.tasks[i].pc.rest != []
                       then Join(s.tasks[i].pc.rest[0]) else Same
    case Return(i) => if i < |s.tasks| then Leave(s.tasks[i].job) else Same
    case _ => Same
  }

  lemma MovesOn(s: State, i: nat, pc: Pc, n: State)
    requires i < |s.tasks| && n.tasks == AtPc(s, i, pc) && Holds(s.tasks[i].(pc := pc)) == Holds(s.tasks[i])
    requires n.waiting == s.waiting && n.queue == s.queue && n.returned == s.returned
    ensures Changes(Same, s, n)
  {
    SlotJobsSame(s.tasks, i, s.tasks[i].(pc := pc));
  }

  lemma PublishJoins(s: State, i: nat)
    requires Enabled(s, Publish(i))
    ensures Changes(Join(s.tasks[i].pc.rest[0]), s, PublishingOne(s, i))
  {
    SlotJobsSame(s.tasks, i, s.tasks[i].(pc := Publishing(s.tasks[i].pc.rest[1..])));
  }

  lemma AcquireKeeps(s: State)
    requires Slots(s) && s.maxSize == 1 && Enabled(s, Acquire)
    ensures Changes(Same, s, Acquiring(s))
  {
    SlotJobsCount(s.tasks);
    SlotJobsAppend(s.tasks, Task(s.waiting.value, Spawned));
  }

  lemma SlotLeaves(s: State, j: Job, n: State)
    requires SlotJobs(s.tasks) == [j] && SlotJobs(n.tasks) == []
    requires n.waiting == s.waiting && n.queue == s.queue && n.returned == s.returned + multiset{j}
    ensures Changes(Leave(j), s, n)
  {
    var rest := Waiting(s) + s.queue;
    assert Line(n) == [] + rest == rest;
  }

  lemma ReturnLeaves(s: State, i: nat)
    requires Slots(s) && s.maxSize == 1 && Enabled(s, Return(i))
    ensures Changes(Leave(s.tasks[i].job), s, Returning(s, i))
  {
    OnlySlotJob(s.tasks, i);
    SlotEmptied(s.tasks, i, s.tasks[i].(pc := Returned));
    SlotLeaves(s, s.tasks[i].job, Returning(s, i));
  }

  /** With one slot, a step leaves the line alone, adds a job at its end, or takes its first job away. */
  lemma LineChanges(s: State, step: Step)
    requires Slots(s) && s.maxSize == 1 && Enabled(s, step) && !step.Register?
    ensures Changes(ChangeOf(s, step), s, Next(s, step))
  {
    match step
    case Acquire => AcquireKeeps(s);
    case Start(i) => MovesOn(s, i, Running(s.runnerCounter), Starting(s, i));
    case Return(i) => ReturnLeaves(s, i);
    case Record(i) => MovesOn(s, i, Continuation(s.registry, s.tasks[i].job.batch), Recording(s, i));
    case Announce(i) => MovesOn(s, i, Publishing(s.tasks[i].pc.after), AnnouncingOne(s, i));
    case Publish(i) => PublishJoins(s, i);
    case _ =>
  }

  /** The runner that starts is the first in the line. */
  lemma SlotIsFirst(s: State, i: nat)
    requires Slots(s) && s.maxSize == 1 && i < |s.tasks| && Holds(s.tasks[i])
    ensures Line(s) != [] && Line(s)[0] == s.tasks[i].job
  {
    OnlySlotJob(s.tasks, i);
  }

  // ---------------------------------------------------------------- covered tiers

  predicate Contains(m: multiset<Job>, tiers: seq<seq<Job>>, k: nat)
    requires k < |tiers|
  {
    multiset(tiers[k]) <= m
  }

  /** The first `i` tiers are contained in `m`. */
  ghost predicate Covers(tiers: seq<seq<Job>>, i: nat, m: multiset<Job>) {
    forall k :: 0 <= k < i && k < |tiers| ==> Contains(m, tiers, k)
  }

  lemma CoversMore(tiers: seq<seq<Job>>, i: nat, m: multiset<Job>, more: multiset<Job>)
    requires Covers(tiers, i, m) && m <= more
    ensures Covers(tiers, i, more)
  {
    forall k | 0 <= k < i && k < |tiers|
      ensures Contains(more, tiers, k)
    {
      assert Contains(m, tiers, k);
    }
  }

  /** Each job in the line has all earlier tiers ahead of it, returned or in the line. */
  ghost predicate LineOk(tiers: seq<seq<Job>>, ret: multiset<Job>, line: seq<Job>)
    decreases |line|
  {
    line == [] || (Covers(tiers, TierOf(line[0]), ret) && LineOk(tiers, ret + multiset{line[0]}, line[1..]))
  }

  lemma {:induction false} JoinOk(tiers: seq<seq<Job>>, ret: multiset<Job>, line: seq<Job>, j: Job)
    requires LineOk(tiers, ret, line) && Covers(tiers, TierOf(j), ret + multiset(line))
    ensures LineOk(tiers, ret, line + [j])
    decreases |line|
  {
    if line == [] {
      assert ret + multiset(line) == ret && line + [j] == [j];
    } else {
      LeftSum(ret, line[0], line[1..]);
      assert line == [line[0]] + line[1..];
      JoinOk(tiers, ret + multiset{line[0]}, line[1..], j);
      assert (line + [j])[1..] == line[1..] + [j];
    }
  }

  lemma JoinedSum(ret: multiset<Job>, line: seq<Job>, j: Job)
    ensures ret + multiset(line + [j]) == ret + multiset(line) + multiset{j}
  {
    assert multiset(line + [j]) == multiset(line) + multiset{j};
  }

  lemma LeftSum(ret: multiset<Job>, j: Job, line: seq<Job>)
    ensures ret + multiset{j} + multiset(line) == ret + multiset([j] + line)
  {
    assert multiset([j] + line) == multiset{j} + multiset(line);
  }

  lemma LeaveOk(tiers: seq<seq<Job>>, ret: multiset<Job>, j: Job, line: seq<Job>)
    requires LineOk(tiers, ret, [j] + line)
    ensures LineOk(tiers, ret + multiset{j}, line)
  {
    assert ([j] + line)[1..] == line;
  }

  // ---------------------------------------------------------------- the first and the second time a tier is published

  predicate SplitFor(m: multiset<Job>, b: BatchId, l: seq<Job>, tier: seq<Job>, i: nat, j: nat, a: Job)
    requires i <= |l| && j <= |tier|
  {
    a.batch == b ==> m[a] == multiset(l[..i])[a] + multiset(tier[..j])[a]
  }

  /** Of the second tier, `m` holds the first `i` jobs the turn publishes and the first `j` jobs of its listed order. */
  ghost predicate SplitBy(m: multiset<Job>, b: BatchId, l: seq<Job>, tier: seq<Job>, i: nat, j: nat) {
    && i <= |l| && j <= |tier|
    && forall a :: SplitFor(m, b, l, tier, i, j, a)
  }

  ghost predicate IsSplit(m: multiset<Job>, b: BatchId, l: seq<Job>, tier: seq<Job>) {
    exists i, j :: SplitBy(m, b, l, tier, i, j)
  }

  /** So is what has returned, with any first part of the line. */
  ghost predicate SplitLine(ret: multiset<Job>, line: seq<Job>, b: BatchId, l: seq<Job>, tier: seq<Job>)
    decreases |line|
  {
    IsSplit(ret, b, l, tier) && (line != [] ==> SplitLine(ret + multiset{line[0]}, line[1..], b, l, tier))
  }

  lemma {:induction false} JoinSplit(ret: multiset<Job>, line: seq<Job>, b: BatchId, l: seq<Job>, tier: seq<Job>, j: Job)
    requires SplitLine(ret, line, b, l, tier) && IsSplit(ret + multiset(line) + multiset{j}, b, l, tier)
    ensures SplitLine(ret, line + [j], b, l, tier)
    decreases |line|
  {
    if line == [] {
      assert ret + multiset(line) + multiset{j} == ret + multiset{j} && line + [j] == [j];
      assert [j][1..] == [];
    } else {
      LeftSum(ret, line[0], line[1..]);
      assert line == [line[0]] + line[1..];
      JoinSplit(ret + multiset{line[0]}, line[1..], b, l, tier, j);
      assert (line + [j])[1..] == line[1..] + [j];
    }
  }

  lemma LeaveSplit(ret: multiset<Job>, j: Job, line: seq<Job>, b: BatchId, l: seq<Job>, tier: seq<Job>)
    requires SplitLine(ret, [j] + line, b, l, tier)
    ensures SplitLine(ret + multiset{j}, line, b, l, tier)
  {
    assert ([j] + line)[1..] == line;
  }

  /** What a mirrored order has published first, the listed order has last. */
  lemma {:induction false} MirrorPart(l: seq<Job>, tier: seq<Job>, i: nat)
    requires Mirrors(l, tier) && i <= |l|
    ensures multiset(l[..i]) == multiset(tier[|tier| - i..])
    decreases i
  {
    if i > 0 {
      MirrorPart(l, tier, i - 1);
      assert l[..i] == l[..i - 1] + [l[i - 1]];
      assert tier[|tier| - i..] == [tier[|tier| - i]] + tier[|tier| - i + 1..];
    }
  }

  /** Hence any part of both that is large enough contains the tier. */
  lemma SplitCovers(m: multiset<Job>, b: BatchId, l: seq<Job>, tier: seq<Job>, i: nat, j: nat)
    requires SplitBy(m, b, l, tier, i, j) && Mirrors(l, tier) && i + j >= |tier|
    requires forall a :: a in tier ==> a.batch == b
    ensures multiset(tier) <= m
  {
    var n := |tier| - i;
    MirrorPart(l, tier, i);
    assert tier == tier[..n] + tier[n..];
    assert tier[..j] == tier[..n] + tier[n..j];
    forall a | a in tier
      ensures multiset(tier)[a] <= m[a]
    {
      assert SplitFor(m, b, l, tier, i, j, a);
    }
  }

  lemma SplitSize(part: multiset<Job>, m: multiset<Job>, b: BatchId, l: seq<Job>, tier: seq<Job>, i: nat, j: nat)
    requires SplitBy(m, b, l, tier, i, j) && part <= m && forall a :: a in part ==> a.batch == b
    ensures |part| <= i + j
  {
    var both := multiset(l[..i]) + multiset(tier[..j]);
    forall a | a in part
      ensures part[a] <= both[a]
    {
      assert SplitFor(m, b, l, tier, i, j, a);
    }
    assert part <= both;
    SubsetSize(part, both);
  }
}
