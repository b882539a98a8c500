/** The life of a plan: proposed, edited, approved, executed (src/graphclaw/agent/main_orchestrator.py,
    lines 3444-3479 and 3976-4250), with an in-memory cache over a storage whose reads and writes may fail silently.

    Tool calls are atomic steps. `Desk` and `Next` are the specification; PlanDesk implements it. */
module PlanLifecycle {
  import opened Options
  import opened PlanGraph
  import Jobs
  import PlanExecution

  type PlanId = string
  datatype Status = Draft | Approved | Executed

  datatype Plan = Plan(status: Status, tasks: seq<PlanExecution.Entry>, revision: nat, titles: map<string, string>,
                       approvedBy: Option<string>)

  /** A task as it comes in; its draft id may be missing. */
  datatype Item = NotAnObject | Object(draftId: Option<string>, deps: Option<seq<int>>, delegated: bool)
  datatype NewTasks = Absent | NotAList | List(items: seq<Item>)

  /** The arguments of `edit_plan` other than the plan id. */
  datatype Edits = Edits(fields: map<string, string>, tasks: NewTasks)

  const FIELDS := ["goal_title", "goal_description", "execution_summary", "deadline"]

  function WithDraftId(item: Item, i: nat): PlanExecution.Entry {
    match item
    case NotAnObject => PlanExecution.NotAnObject
    case Object(draftId, deps, delegated) =>
      var id := if draftId.Some? then draftId.value else "DRAFT-TASK-" + Jobs.Decimal(i + 1);
      PlanExecution.Object(TaskSpec(id, deps, delegated))
  }

  function Entries(items: seq<Item>): seq<PlanExecution.Entry> {
    seq(|items|, i requires 0 <= i < |items| => WithDraftId(items[i], i))
  }

  /** `entry` is what is kept of `item`, the `i`-th of its list: the same task, under the draft id it came with or else a
      numbered one. */
  predicate KeptAs(item: Item, i: nat, entry: PlanExecution.Entry) {
    match item
    case NotAnObject => entry.NotAnObject?
    case Object(draftId, deps, delegated) =>
      && entry.Object? && entry.spec.deps == deps && entry.spec.delegated == delegated
      && (draftId.Some? ==> entry.spec.draftId == draftId.value)
      && (draftId.None? ==> entry.spec.draftId == "DRAFT-TASK-" + Jobs.Decimal(i + 1))
  }

  /** All of `items` are kept, in their order. */
  ghost predicate IsListOf(tasks: seq<PlanExecution.Entry>, items: seq<Item>) {
    |tasks| == |items| && forall i :: 0 <= i < |items| ==> KeptAs(items[i], i, tasks[i])
  }

  // ---------------------------------------------------------------- one edit

  datatype EditResult = Rejected(plan: Plan) | Accepted(plan: Plan)

  function NewTitles(p: Plan, e: Edits): map<string, string> {
    p.titles + map f | f in e.fields && f in FIELDS :: e.fields[f]
  }

  predicate BadTasks(e: Edits) {
    e.tasks.NotAList? || (e.tasks.List? && NotAnObject in e.tasks.items)
  }

  predicate NothingGiven(e: Edits) {
    e.tasks.Absent? && forall f :: f in FIELDS ==> f !in e.fields
  }

  /** `edit_plan` on a loaded plan. The titles are written before the tasks are checked, so a rejected edit may
      leave new titles behind. */
  function Edited(p: Plan, e: Edits): EditResult {
    if p.status == Executed then Rejected(p)
    else
      var q := p.(titles := NewTitles(p, e));
      if BadTasks(e) || NothingGiven(e) then Rejected(q)
      else
        var approver := if p.status == Approved then None else p.approvedBy;
        Accepted(q.(status := Draft, approvedBy := approver, revision := p.revision + 1,
                    tasks := if e.tasks.List? then Entries(e.tasks.items) else p.tasks))
  }

  /** The four fields that an edit may set besides the tasks. */
  predicate IsTitleField(f: string) {
    f == "goal_title" || f == "goal_description" || f == "execution_summary" || f == "deadline"
  }

  /** `titles` are the old ones with the given fields of those four set. */
  ghost predicate Retitled(before: map<string, string>, fields: map<string, string>, titles: map<string, string>) {
    && (forall f :: f in titles <==> f in before || (f in fields && IsTitleField(f)))
    && forall f :: f in titles ==> titles[f] == if f in fields && IsTitleField(f) then fields[f] else before[f]
  }

  /** `edit_plan` takes the edit: the plan is not executed, the tasks given are a list of objects, and something is given. */
  ghost predicate Acceptable(status: Status, e: Edits) {
    && status != Executed && !e.tasks.NotAList?
    && (e.tasks.List? ==> forall i :: 0 <= i < |e.tasks.items| ==> e.tasks.items[i].Object?)
    && (e.tasks.List? || exists f :: f in e.fields && IsTitleField(f))
  }

  /** The tasks after an accepted edit: the given list, or the old tasks if none was given. */
  ghost predicate TasksTaken(before: seq<PlanExecution.Entry>, given: NewTasks, after: seq<PlanExecution.Entry>) {
    if given.List? then IsListOf(after, given.items) else after == before
  }

  /** Which edits are accepted, and what the plan then says. */
  lemma AcceptedEditIsTaken(p: Plan, e: Edits)
    ensures Edited(p, e).Accepted? <==> Acceptable(p.status, e)
    ensures var q := Edited(p, e).plan;
            && (Acceptable(p.status, e) ==>
                  && q.status == Draft && q.revision == p.revision + 1 && TasksTaken(p.tasks, e.tasks, q.tasks)
                  && q.approvedBy == (if p.status == Approved then None else p.approvedBy))
            && (p.status != Executed ==> Retitled(p.titles, e.fields, q.titles))
  {
    assert forall f :: f in FIELDS <==> IsTitleField(f);
    if p.status != Executed && e.tasks.List? && !BadTasks(e) {
      forall i | 0 <= i < |e.tasks.items|
        ensures e.tasks.items[i].Object?
      {
        assert e.tasks.items[i] in e.tasks.items;
      }
    }
  }

  /** A rejected edit leaves the plan alone, except for titles it was given, where those differ. */
  lemma RejectedEditKeepsPlan(p: Plan, e: Edits)
    requires Edited(p, e).Rejected?
    ensures Edited(p, e).plan == p.(titles := Edited(p, e).plan.titles)
    ensures Edited(p, e).plan == p <==>
            p.status == Executed || forall f :: f in FIELDS && f in e.fields ==> f in p.titles && p.titles[f] == e.fields[f]
  {
  }

  // ---------------------------------------------------------------- the plans of one process

  /** `_pending_plans` and the stored copies. */
  datatype Desk = Desk(memory: map<PlanId, Plan>, storage: map<PlanId, Plan>)

  /** Whether the storage read and the storage write of a call succeed; errors of both are swallowed. */
  datatype Io = Io(readOk: bool, writeOk: bool)

  /** `Execute` carries whether creating the nodes went through; `Restart` drops the in-memory plans. */
  datatype Call =
    | Propose(id: PlanId, titles: map<string, string>, items: seq<Item>, maxTasks: nat, io: Io)
    | Edit(id: PlanId, edits: Edits, io: Io)
    | Approve(id: PlanId, user: string, io: Io)
    | Execute(id: PlanId, ok: bool, io: Io)
    | Restart

  /** `_load_pending_plan`: a stored plan is brought into memory when it is not there. */
  function Load(d: Desk, id: PlanId, io: Io): Desk {
    if id !in d.memory && io.readOk && id in d.storage then d.(memory := d.memory[id := d.storage[id]]) else d
  }

  /** `_persist_pending_plan` */
  function Persist(d: Desk, id: PlanId, p: Plan, io: Io): Desk {
    Desk(d.memory[id := p], if io.writeOk then d.storage[id := p] else d.storage)
  }

  function Proposed(titles: map<string, string>, items: seq<Item>, maxTasks: nat): Plan {
    Plan(Draft, Entries(if maxTasks < |items| then items[..maxTasks] else items), 1, titles, None)
  }

  /** The tasks a call brings in: those given, or the first `maxTasks` proposed. */
  function ItemsOf(c: Call): seq<Item>
    requires c.Propose? || (c.Edit? && c.edits.tasks.List?)
  {
    if c.Edit? then c.edits.tasks.items
    else if |c.items| <= c.maxTasks then c.items else c.items[..c.maxTasks]
  }

  function EditStep(d: Desk, id: PlanId, e: Edits, io: Io): Desk {
    if id !in d.memory then d
    else
      match Edited(d.memory[id], e)
      case Rejected(p) => d.(memory := d.memory[id := p])
      case Accepted(p) => Persist(d, id, p, io)
  }

  function ApproveStep(d: Desk, id: PlanId, user: string, io: Io): Desk {
    if id !in d.memory || d.memory[id].status != Draft then d
    else Persist(d, id, d.memory[id].(status := Approved, approvedBy := Some(user)), io)
  }

  function ExecuteStep(d: Desk, id: PlanId, ok: bool, io: Io): Desk {
    if id !in d.memory || d.memory[id].status != Approved || !ok then d
    else Persist(d, id, d.memory[id].(status := Executed), io)
  }

  function Next(d: Desk, c: Call): Desk {
    match c
    case Propose(id, titles, items, maxTasks, io) => Persist(d, id, Proposed(titles, items, maxTasks), io)
    case Edit(id, e, io) => EditStep(Load(d, id, io), id, e, io)
    case Approve(id, user, io) => ApproveStep(Load(d, id, io), id, user, io)
    case Execute(id, ok, io) => ExecuteStep(Load(d, id, io), id, ok, io)
    case Restart => d.(memory := map[])
  }

  // ---------------------------------------------------------------- whole runs

  /** What a plan commits to: everything but its titles and who approved it. */
  datatype Core = Core(status: Status, tasks: seq<PlanExecution.Entry>, revision: nat)

  function CoreOf(p: Plan): Core { Core(p.status, p.tasks, p.revision) }

  /** A plan as the next call that can load it will find it. */
  function Current(d: Desk, id: PlanId): Option<Core> {
    if id in d.memory then Some(CoreOf(d.memory[id]))
    else if id in d.storage then Some(CoreOf(d.storage[id]))
    else None
  }

  /** The same with titles and approver. */
  function Whole(d: Desk, id: PlanId): Option<Plan> {
    if id in d.memory then Some(d.memory[id])
    else if id in d.storage then Some(d.storage[id])
    else None
  }

  /** What the plan commits to in memory has been written out. */
  predicate Saved(d: Desk, id: PlanId) {
    id in d.memory ==> id in d.storage && CoreOf(d.storage[id]) == CoreOf(d.memory[id])
  }

  /** New plan ids are fresh. */
  predicate Allowed(d: Desk, c: Call) {
    c.Propose? ==> c.id !in d.memory && c.id !in d.storage
  }

  ghost predicate StepAt(ds: seq<Desk>, cs: seq<Call>, i: nat)
    requires i < |cs| < |ds|
  {
    Allowed(ds[i], cs[i]) && ds[i + 1] == Next(ds[i], cs[i])
  }

  /** A run may restart the process at any time. */
  ghost predicate IsRun(ds: seq<Desk>, cs: seq<Call>) {
    |ds| == |cs| + 1 && ds[0] == Desk(map[], map[]) && forall i :: 0 <= i < |cs| ==> StepAt(ds, cs, i)
  }

  /** No restart finds the plan changed and not written out. */
  ghost predicate RestartsSaved(ds: seq<Desk>, cs: seq<Call>, id: PlanId)
    requires |cs| < |ds|
  {
    forall i :: 0 <= i < |cs| && cs[i].Restart? ==> Saved(ds[i], id)
  }

  ghost predicate EditAccepted(d: Desk, c: Call, id: PlanId) {
    && c.Edit? && c.id == id && id in Load(d, id, c.io).memory
    && Acceptable(Load(d, id, c.io).memory[id].status, c.edits)
  }

  /** The call passes the gates of `approve_plan`, and makes the plan approved. */
  ghost predicate ApprovalTaken(d: Desk, c: Call, id: PlanId) {
    c.Approve? && c.id == id && id in Load(d, id, c.io).memory && Load(d, id, c.io).memory[id].status == Draft
  }

  /** The call passes the gates of `execute_plan`: it reads the plan's tasks and sets out to create them. */
  ghost predicate ExecutionStarted(d: Desk, c: Call, id: PlanId) {
    c.Execute? && c.id == id && id in Load(d, id, c.io).memory && Load(d, id, c.io).memory[id].status == Approved
  }

  ghost function TasksRead(d: Desk, c: Call, id: PlanId): seq<PlanExecution.Entry>
    requires ExecutionStarted(d, c, id)
  {
    Load(d, id, c.io).memory[id].tasks
  }

  /** How one call may move one plan, given whether an edit of it was accepted, an approval taken, or an execution of it
      succeeded. */
  ghost predicate Moves(before: Option<Core>, after: Option<Core>, c: Call, id: PlanId, edited: bool, approved: bool,
                        executed: bool)
  {
    && (edited ==> c.Edit? && before.Some? && after.Some? && before.value.status != Executed
                   && after.value.status == Draft && after.value.revision == before.value.revision + 1
                   && TasksTaken(before.value.tasks, c.edits.tasks, after.value.tasks))
    && (approved ==> before.Some? && before.value.status == Draft && after == Some(before.value.(status := Approved)))
    && (executed ==> before.Some? && before.value.status == Approved && after == Some(before.value.(status := Executed)))
    && (!edited && !approved && !executed ==> after == before || (before.None? && Founds(after, c, id)))
  }

  /** A proposal makes a draft of revision 1 with the tasks proposed. */
  ghost predicate Founds(after: Option<Core>, c: Call, id: PlanId) {
    && c.Propose? && c.id == id && after.Some? && after.value.status == Draft && after.value.revision == 1
    && IsListOf(after.value.tasks, ItemsOf(c))
  }

  ghost predicate Succeeds(d: Desk, c: Call, id: PlanId) {
    ExecutionStarted(d, c, id) && c.ok
  }

  lemma StepOfPlan(d: Desk, c: Call, id: PlanId)
    requires Allowed(d, c) && (c.Restart? ==> Saved(d, id))
    ensures Moves(Current(d, id), Current(Next(d, c), id), c, id, EditAccepted(d, c, id), ApprovalTaken(d, c, id),
                  Succeeds(d, c, id))
    ensures c.Propose? && c.id == id ==> Founds(Current(Next(d, c), id), c, id)
  {
    if c.Edit? {
      EditOfPlan(d, c, id);
    }
  }

  lemma EditOfPlan(d: Desk, c: Call, id: PlanId)
    requires c.Edit?
    ensures Moves(Current(d, id), Current(Next(d, c), id), c, id, EditAccepted(d, c, id), false, false)
  {
    var loaded := Load(d, id, c.io);
    if c.id == id && id in loaded.memory {
      AcceptedEditIsTaken(loaded.memory[id], c.edits);
    }
  }

  lemma StepInRun(ds: seq<Desk>, cs: seq<Call>, id: PlanId, i: nat)
    requires IsRun(ds, cs) && RestartsSaved(ds, cs, id) && i < |cs|
    ensures Moves(Current(ds[i], id), Current(ds[i + 1], id), cs[i], id, EditAccepted(ds[i], cs[i], id),
                  ApprovalTaken(ds[i], cs[i], id), Succeeds(ds[i], cs[i], id))
    ensures cs[i].Propose? && cs[i].id == id ==> Founds(Current(ds[i + 1], id), cs[i], id)
  {
    assert StepAt(ds, cs, i);
    StepOfPlan(ds[i], cs[i], id);
  }

  // ---------------------------------------------------------------- where the tasks come from

  /** The call brings in the tasks of plan `id`: it proposes the plan, or it is an accepted edit that gives a list. */
  ghost predicate GivesTasks(d: Desk, c: Call, id: PlanId) {
    (c.Propose? && c.id == id) || (EditAccepted(d, c, id) && c.edits.tasks.List?)
  }

  /** The tasks of a plan are those of the latest call that gave it any. */
  lemma {:induction false} TasksAreTheLatest(ds: seq<Desk>, cs: seq<Call>, id: PlanId, j: nat) returns (i: nat)
    requires IsRun(ds, cs) && RestartsSaved(ds, cs, id) && j <= |cs| && Current(ds[j], id).Some?
    ensures i < j && GivesTasks(ds[i], cs[i], id) && IsListOf(Current(ds[j], id).value.tasks, ItemsOf(cs[i]))
    ensures forall m :: i < m < j ==> !GivesTasks(ds[m], cs[m], id)
    decreases j
  {
    assert j > 0;
    StepInRun(ds, cs, id, j - 1);
    if GivesTasks(ds[j - 1], cs[j - 1], id) {
      i := j - 1;
    } else {
      i := TasksAreTheLatest(ds, cs, id, j - 1);
    }
  }

  /** What an execution reads are the tasks of the latest accepted edit that gave a list, or of the proposal if none did. */
  lemma ExecutionReadsLatestTasks(ds: seq<Desk>, cs: seq<Call>, id: PlanId, j: nat) returns (i: nat)
    requires IsRun(ds, cs) && RestartsSaved(ds, cs, id) && j < |cs| && ExecutionStarted(ds[j], cs[j], id)
    ensures i < j && GivesTasks(ds[i], cs[i], id) && IsListOf(TasksRead(ds[j], cs[j], id), ItemsOf(cs[i]))
    ensures forall m :: i < m < j ==> !GivesTasks(ds[m], cs[m], id)
  {
    i := TasksAreTheLatest(ds, cs, id, j);
  }

  // ---------------------------------------------------------------- what is approved and written

  /** The call changes the plan and sets out to write it. */
  ghost predicate Changes(d: Desk, c: Call, id: PlanId) {
    (c.Propose? && c.id == id) || EditAccepted(d, c, id) || ApprovalTaken(d, c, id) || Succeeds(d, c, id)
  }

  /** A changed plan is in memory and, if the write goes through, in storage; an approval names the approver. Nothing else
      is written, and other plans are left alone. */
  lemma ChangesAreWritten(d: Desk, c: Call, id: PlanId)
    ensures var n := Next(d, c);
            && (Changes(d, c, id) ==>
                  id in n.memory && n.storage == if c.io.writeOk then d.storage[id := n.memory[id]] else d.storage)
            && (!Changes(d, c, id) ==> (id in n.storage <==> id in d.storage)
                                       && (id in d.storage ==> n.storage[id] == d.storage[id]))
            && (!c.Restart? && c.id != id ==> (id in n.memory <==> id in d.memory)
                                              && (id in d.memory ==> n.memory[id] == d.memory[id]))
    ensures ApprovalTaken(d, c, id) ==>
              Next(d, c).memory[id] == Load(d, id, c.io).memory[id].(status := Approved, approvedBy := Some(c.user))
    ensures c.Propose? && c.id == id ==>
              Next(d, c).memory[id].titles == c.titles && Next(d, c).memory[id].approvedBy.None?
  {
    if c.Edit? && c.id in Load(d, c.id, c.io).memory {
      AcceptedEditIsTaken(Load(d, c.id, c.io).memory[c.id], c.edits);
    }
  }

  // ---------------------------------------------------------------- approval

  lemma {:induction false} ApprovedSince(ds: seq<Desk>, cs: seq<Call>, id: PlanId, j: nat) returns (i: nat)
    requires IsRun(ds, cs) && RestartsSaved(ds, cs, id) && j <= |cs|
    requires Current(ds[j], id).Some? && Current(ds[j], id).value.status == Approved
    ensures i < j && ApprovalTaken(ds[i], cs[i], id)
    ensures forall m :: i < m <= j ==> Current(ds[m], id) == Current(ds[j], id)
    ensures Current(ds[i], id) == Some(Current(ds[j], id).value.(status := Draft))
    decreases j
  {
    assert j > 0;
    StepInRun(ds, cs, id, j - 1);
    if ApprovalTaken(ds[j - 1], cs[j - 1], id) {
      i := j - 1;
    } else {
      i := ApprovedSince(ds, cs, id, j - 1);
    }
  }

  /** What an execution reads is the task list in place at the latest approval: it was approved at some call `i`,
      and neither its tasks nor its revision nor its status changed in between. */
  lemma ExecutionReadsApprovedTasks(ds: seq<Desk>, cs: seq<Call>, id: PlanId, j: nat) returns (i: nat)
    requires IsRun(ds, cs) && RestartsSaved(ds, cs, id) && j < |cs| && ExecutionStarted(ds[j], cs[j], id)
    ensures i < j && ApprovalTaken(ds[i], cs[i], id)
    ensures Current(ds[i], id).value.tasks == TasksRead(ds[j], cs[j], id)
    ensures forall m :: i < m < j ==> !ApprovalTaken(ds[m], cs[m], id) && !EditAccepted(ds[m], cs[m], id)
  {
    i := ApprovedSince(ds, cs, id, j);
    forall m | i < m < j
      ensures !ApprovalTaken(ds[m], cs[m], id) && !EditAccepted(ds[m], cs[m], id)
    {
      StepInRun(ds, cs, id, m);
    }
  }

  // ---------------------------------------------------------------- executed plans

  /** An executed plan in storage is the one in memory, if it is there too. */
  predicate StoredIsCurrent(d: Desk, id: PlanId) {
    id in d.storage && d.storage[id].status == Executed && id in d.memory ==> d.memory[id] == d.storage[id]
  }

  lemma {:induction false} StoredStaysCurrent(ds: seq<Desk>, cs: seq<Call>, id: PlanId, i: nat)
    requires IsRun(ds, cs) && i <= |cs|
    ensures StoredIsCurrent(ds[i], id)
    decreases i
  {
    if i > 0 {
      StoredStaysCurrent(ds, cs, id, i - 1);
      assert StepAt(ds, cs, i - 1);
      StoredStep(ds[i - 1], cs[i - 1], id);
    }
  }

  lemma StoredStep(d: Desk, c: Call, id: PlanId)
    requires Allowed(d, c) && StoredIsCurrent(d, id)
    ensures StoredIsCurrent(Next(d, c), id)
  {
  }

  ghost predicate IsExecuted(d: Desk, id: PlanId) {
    Whole(d, id).Some? && Whole(d, id).value.status == Executed
  }

  lemma ExecutedStep(d: Desk, c: Call, id: PlanId)
    requires Allowed(d, c) && StoredIsCurrent(d, id) && IsExecuted(d, id) && (c.Restart? ==> Saved(d, id))
    ensures Whole(Next(d, c), id) == Whole(d, id)
    ensures !ExecutionStarted(d, c, id) && !EditAccepted(d, c, id) && !ApprovalTaken(d, c, id)
  {
  }

  lemma {:induction false} ExecutedStays(ds: seq<Desk>, cs: seq<Call>, id: PlanId, i: nat, j: nat)
    requires IsRun(ds, cs) && RestartsSaved(ds, cs, id) && i <= j <= |cs| && IsExecuted(ds[i], id)
    ensures Whole(ds[j], id) == Whole(ds[i], id)
    decreases j
  {
    if i < j {
      ExecutedStays(ds, cs, id, i, j - 1);
      StoredStaysCurrent(ds, cs, id, j - 1);
      assert StepAt(ds, cs, j - 1);
      ExecutedStep(ds[j - 1], cs[j - 1], id);
    }
  }

  lemma SuccessMeansExecuted(d: Desk, c: Call, id: PlanId)
    requires Succeeds(d, c, id)
    ensures id in Next(d, c).memory && Next(d, c).memory[id].status == Executed
    ensures Next(d, c).storage == if c.io.writeOk then d.storage[id := Next(d, c).memory[id]] else d.storage
  {
  }

  /** After a successful execution nothing about the plan ever changes again, its titles and approver included, and no
      execution, approval or edit of it is taken. */
  lemma ExecutedOnce(ds: seq<Desk>, cs: seq<Call>, id: PlanId, i: nat, j: nat)
    requires IsRun(ds, cs) && RestartsSaved(ds, cs, id) && i < j < |cs|
    requires Succeeds(ds[i], cs[i], id)
    ensures Whole(ds[j], id) == Whole(ds[j + 1], id) == Whole(ds[i + 1], id)
    ensures !ExecutionStarted(ds[j], cs[j], id) && !ApprovalTaken(ds[j], cs[j], id) && !EditAccepted(ds[j], cs[j], id)
  {
    assert StepAt(ds, cs, i) && StepAt(ds, cs, j);
    SuccessMeansExecuted(ds[i], cs[i], id);
    ExecutedStays(ds, cs, id, i + 1, j);
    StoredStaysCurrent(ds, cs, id, j);
    ExecutedStep(ds[j], cs[j], id);
  }

  /** Revisions never fall, and the number of accepted edits is exactly how far they have risen. */
  lemma {:induction false} RevisionCountsEdits(ds: seq<Desk>, cs: seq<Call>, id: PlanId, i: nat, j: nat)
    requires IsRun(ds, cs) && RestartsSaved(ds, cs, id) && i <= j <= |cs| && Current(ds[i], id).Some?
    ensures Current(ds[j], id).Some?
    ensures Current(ds[j], id).value.revision == Current(ds[i], id).value.revision + AcceptedEdits(ds, cs, id, i, j)
    decreases j
  {
    if i < j {
      RevisionCountsEdits(ds, cs, id, i, j - 1);
      StepInRun(ds, cs, id, j - 1);
    }
  }

  ghost function AcceptedEdits(ds: seq<Desk>, cs: seq<Call>, id: PlanId, i: nat, j: nat): nat
    requires i <= j <= |cs| <= |ds|
    decreases j
  {
    if i == j then 0
    else AcceptedEdits(ds, cs, id, i, j - 1) + (if EditAccepted(ds[j - 1], cs[j - 1], id) then 1 else 0)
  }

  // ---------------------------------------------------------------- executed twice

  /** Any calls from `ds[0]` on, with restarts at any time; ids are not used twice. */
  ghost predicate ContinuesAt(ds: seq<Desk>, cs: seq<Call>, id: PlanId, i: nat)
    requires i < |cs| < |ds|
  {
    StepAt(ds, cs, i) && (cs[i].Propose? ==> cs[i].id != id)
  }

  ghost predicate Continues(d: Desk, ds: seq<Desk>, cs: seq<Call>, id: PlanId) {
    |ds| == |cs| + 1 && ds[0] == d && forall i :: 0 <= i < |cs| ==> ContinuesAt(ds, cs, id, i)
  }

  /** Some continuation executes the plan (once more). */
  ghost predicate CanExecute(d: Desk, id: PlanId) {
    exists ds, cs :: Continues(d, ds, cs, id) && cs != [] && Succeeds(ds[|cs| - 1], cs[|cs| - 1], id)
  }

  /** Wherever the plan is kept, it is executed. */
  predicate ExecutedEverywhere(d: Desk, id: PlanId) {
    && (id in d.memory ==> d.memory[id].status == Executed)
    && (id in d.storage ==> d.storage[id].status == Executed)
  }

  lemma EverywhereStep(d: Desk, c: Call, id: PlanId)
    requires ExecutedEverywhere(d, id) && (c.Propose? ==> c.id != id)
    ensures ExecutedEverywhere(Next(d, c), id) && !ExecutionStarted(d, c, id)
  {
  }

  lemma {:induction false} EverywhereStays(d: Desk, ds: seq<Desk>, cs: seq<Call>, id: PlanId, i: nat)
    requires Continues(d, ds, cs, id) && ExecutedEverywhere(d, id) && i <= |cs|
    ensures ExecutedEverywhere(ds[i], id)
    decreases i
  {
    if i > 0 {
      EverywhereStays(d, ds, cs, id, i - 1);
      assert ContinuesAt(ds, cs, id, i - 1);
      EverywhereStep(ds[i - 1], cs[i - 1], id);
    }
  }

  lemma NeverAgain(d: Desk, id: PlanId)
    requires ExecutedEverywhere(d, id)
    ensures !CanExecute(d, id)
  {
    forall ds, cs | Continues(d, ds, cs, id) && cs != []
      ensures !Succeeds(ds[|cs| - 1], cs[|cs| - 1], id)
    {
      EverywhereStays(d, ds, cs, id, |cs| - 1);
      assert ContinuesAt(ds, cs, id, |cs| - 1);
      EverywhereStep(ds[|cs| - 1], cs[|cs| - 1], id);
    }
  }

  /** Restart, approve the stored copy if it is a draft, execute it. */
  lemma StoredCopyExecutes(d: Desk, id: PlanId)
    requires id in d.storage && d.storage[id].status != Executed
    ensures CanExecute(d, id)
  {
    var good := Io(true, true);
    var approve, execute := Approve(id, "owner", good), Execute(id, true, good);
    var d1 := Next(d, Restart);
    var d2 := Next(d1, approve);
    var ds, cs := [d, d1, d2, Next(d2, execute)], [Restart, approve, execute];
    forall i | 0 <= i < 3
      ensures ContinuesAt(ds, cs, id, i)
    {
    }
    assert Succeeds(ds[2], cs[2], id);
    assert Continues(d, ds, cs, id);
  }

  /** A plan executed in memory can be executed once more if and only if there is a stored copy of it that does not say
      it was executed. */
  lemma ExecutesAgainIffCopyIsBehind(d: Desk, id: PlanId)
    requires id in d.memory && d.memory[id].status == Executed
    ensures CanExecute(d, id) <==> id in d.storage && d.storage[id].status != Executed
  {
    if id in d.storage && d.storage[id].status != Executed {
      StoredCopyExecutes(d, id);
    } else {
      NeverAgain(d, id);
    }
  }

  /** In every run: a plan that has just been executed can be executed once more if and only if the write that records
      the execution was lost and an earlier state of the plan is stored. */
  lemma ExecutesAgainIffWriteWasLost(ds: seq<Desk>, cs: seq<Call>, id: PlanId, i: nat)
    requires IsRun(ds, cs) && i < |cs| && Succeeds(ds[i], cs[i], id)
    ensures CanExecute(ds[i + 1], id) <==> !cs[i].io.writeOk && id in ds[i].storage
  {
    assert StepAt(ds, cs, i);
    StoredStaysCurrent(ds, cs, id, i);
    SuccessMeansExecuted(ds[i], cs[i], id);
    ExecutesAgainIffCopyIsBehind(ds[i + 1], id);
  }

  /** Such a run: the write that records the execution fails unnoticed, the process restarts, and the stored copy, still
      approved, is executed a second time. */
  lemma LostWriteExecutesTwice() returns (ds: seq<Desk>, cs: seq<Call>)
    ensures IsRun(ds, cs)
    ensures exists i, j :: 0 <= i < j < |cs| && Succeeds(ds[i], cs[i], "PLAN-1") && Succeeds(ds[j], cs[j], "PLAN-1")
  {
    var good, bad := Io(true, true), Io(true, false);
    cs := [Propose("PLAN-1", map[], [], 10, good), Approve("PLAN-1", "u", good), Execute("PLAN-1", true, bad), Restart,
           Execute("PLAN-1", true, good)];
    var d1 := Next(Desk(map[], map[]), cs[0]);
    var d2 := Next(d1, cs[1]);
    var d3 := Next(d2, cs[2]);
    var d4 := Next(d3, cs[3]);
    ds := [Desk(map[], map[]), d1, d2, d3, d4, Next(d4, cs[4])];
    forall i | 0 <= i < 5
      ensures StepAt(ds, cs, i)
    {
    }
    assert Succeeds(ds[2], cs[2], "PLAN-1");
    assert Succeeds(ds[4], cs[4], "PLAN-1");
  }

  // ---------------------------------------------------------------- the implementation

  /** A plan dict, edited in place. */
  class PlanRecord {
    var status: Status
    var tasks: seq<PlanExecution.Entry>
    var revision: nat
    var titles: map<string, string>
    var approvedBy: Option<string>

    constructor (p: Plan)
      ensures Value() == p
    {
      status, tasks, revision, titles, approvedBy := p.status, p.tasks, p.revision, p.titles, p.approvedBy;
    }

    function Value(): Plan
      reads this
    {
      Plan(status, tasks, revision, titles, approvedBy)
    }

    /** The title loop of `edit_plan`, over the names of the title fields. */
    method Retitle(e: Edits, names: seq<string>) returns (updated: bool)
      modifies `titles
      ensures titles == old(titles) + map f | f in e.fields && f in names :: e.fields[f]
      ensures updated == exists f :: f in names && f in e.fields
    {
      updated := false;
      for k := 0 to |names|
        invariant titles == old(titles) + map f | f in e.fields && f in names[..k] :: e.fields[f]
        invariant updated == exists f :: f in names[..k] && f in e.fields
      {
        var field := names[k];
        assert names[..k + 1] == names[..k] + [field];
        if field in e.fields {
          titles := titles[field := e.fields[field]];
          updated := true;
        }
      }
      assert names[..|names|] == names;
    }

    /** The body of `edit_plan` on a loaded plan, up to persisting it. */
    method Edit(e: Edits) returns (accepted: bool)
      modifies this
      ensures accepted == Edited(old(Value()), e).Accepted?
      ensures Value() == Edited(old(Value()), e).plan
      ensures accepted <==> Acceptable(old(status), e)
      ensures accepted ==> status == Draft && revision == old(revision) + 1 && TasksTaken(old(tasks), e.tasks, tasks)
      ensures accepted ==> approvedBy == if old(status) == Approved then None else old(approvedBy)
      ensures !accepted ==> status == old(status) && tasks == old(tasks) && revision == old(revision)
                            && approvedBy == old(approvedBy)
      ensures if old(status) == Executed then titles == old(titles) else Retitled(old(titles), e.fields, titles)
    {
      AcceptedEditIsTaken(Value(), e);
      if status == Executed {
        return false;
      }
      var updated := Retitle(e, FIELDS);
      if e.tasks.NotAList? {
        return false;
      }
      if e.tasks.List? {
        var ok, normalized := Normalize(e.tasks.items);
        if !ok {
          return false;
        }
        tasks := normalized;
        updated := true;
      }
      if !updated {
        return false;
      }
      if status == Approved {
        status := Draft;
        approvedBy := None;
      }
      revision := revision + 1;
      return true;
    }
  }

  method Normalize(items: seq<Item>) returns (ok: bool, normalized: seq<PlanExecution.Entry>)
    ensures ok <==> NotAnObject !in items
    ensures ok ==> normalized == Entries(items)
  {
    normalized := [];
    for i := 0 to |items|
      invariant NotAnObject !in items[..i] && normalized == Entries(items[..i])
    {
      if items[i].NotAnObject? {
        return false, normalized;
      }
      normalized := normalized + [WithDraftId(items[i], i)];
    }
    ok := true;
    assert items[..|items|] == items;
  }

  class PlanDesk {
    var pending: map<PlanId, PlanRecord>
    var stored: map<PlanId, Plan>
    ghost var memory: map<PlanId, Plan>  // what the records of `pending` hold

    /** A starting process knows only what is stored. */
    constructor (stored: map<PlanId, Plan>)
      ensures Valid() && View() == Desk(map[], stored)
    {
      pending, this.stored, memory := map[], stored, map[];
    }

    ghost predicate Valid()
      reads this, pending.Values
    {
      Distinct() && forall id :: id in pending ==> pending[id].Value() == memory[id]
    }

    ghost predicate Distinct()
      reads this
    {
      && pending.Keys == memory.Keys
      && forall a, b :: a in pending && b in pending && a != b ==> pending[a] != pending[b]
    }

    /** Valid but for the record of `id`, which has just been edited. */
    ghost predicate ValidBut(id: PlanId)
      reads this, pending.Values
    {
      Distinct() && id in pending && forall k :: k in pending && k != id ==> pending[k].Value() == memory[k]
    }

    ghost function View(): Desk
      reads this
    {
      Desk(memory, stored)
    }

    /** A dict for the plan is put in memory. */
    method Keep(id: PlanId, p: Plan)
      requires Valid() && id !in pending
      modifies this`pending, this`memory
      ensures Valid() && memory == old(memory)[id := p]
      ensures id in pending && fresh(pending.Values - old(pending.Values))
    {
      var r := new PlanRecord(p);
      pending, memory := pending[id := r], memory[id := p];
    }

    method LoadPlan(id: PlanId, io: Io) returns (found: bool)
      requires Valid()
      modifies this
      ensures Valid() && View() == Load(old(View()), id, io)
      ensures found <==> id in pending
      ensures stored == old(stored)
      ensures memory == if id !in old(memory) && io.readOk && id in old(stored) then old(memory)[id := old(stored)[id]]
                        else old(memory)
      ensures forall r :: r in pending.Values ==> r in old(pending.Values) || fresh(r)
    {
      if id !in pending && io.readOk && id in stored {
        Keep(id, stored[id]);
      }
      found := id in pending;
    }

    ghost method Note(id: PlanId)
      requires ValidBut(id)
      modifies this`memory
      ensures Valid() && memory == old(memory)[id := pending[id].Value()]
    {
      memory := memory[id := pending[id].Value()];
    }

    method PersistPlan(id: PlanId, io: Io)
      requires ValidBut(id)
      modifies this`stored, this`memory
      ensures Valid() && View() == Persist(old(View()), id, pending[id].Value(), io)
    {
      Note(id);
      if io.writeOk {
        stored := stored[id := pending[id].Value()];
      }
    }

    method ProposePlan(id: PlanId, titles: map<string, string>, items: seq<Item>, maxTasks: nat, io: Io)
      requires Valid() && id !in pending
      modifies this
      ensures Valid() && View() == Next(old(View()), Propose(id, titles, items, maxTasks, io))
      ensures id in memory && memory[id].status == Draft && memory[id].revision == 1 && memory[id].titles == titles
      ensures IsListOf(memory[id].tasks, if |items| <= maxTasks then items else items[..maxTasks])
      ensures stored == if io.writeOk then old(stored)[id := memory[id]] else old(stored)
    {
      var kept := if maxTasks < |items| then items[..maxTasks] else items;
      Keep(id, Plan(Draft, Entries(kept), 1, titles, None));
      PersistPlan(id, io);
    }

    method EditPlan(id: PlanId, e: Edits, io: Io)
      requires Valid()
      modifies this, pending.Values
      ensures Valid() && View() == Next(old(View()), Call.Edit(id, e, io))
    {
      var found := LoadPlan(id, io);
      if found {
        EditLoaded(id, e, io);
      }
    }

    method EditLoaded(id: PlanId, e: Edits, io: Io)
      requires Valid() && id in pending
      modifies this`memory, this`stored, pending[id]
      ensures Valid() && View() == EditStep(old(View()), id, e, io)
    {
      var accepted := pending[id].Edit(e);
      if accepted {
        PersistPlan(id, io);
      } else {
        Note(id);
      }
    }

    method ApprovePlan(id: PlanId, user: string, io: Io)
      requires Valid()
      modifies this, pending.Values
      ensures Valid() && View() == Next(old(View()), Approve(id, user, io))
    {
      var found := LoadPlan(id, io);
      if found {
        ApproveLoaded(id, user, io);
      }
    }

    method ApproveLoaded(id: PlanId, user: string, io: Io)
      requires Valid() && id in pending
      modifies this`memory, this`stored, pending[id]
      ensures Valid() && View() == ApproveStep(old(View()), id, user, io)
    {
      var plan := pending[id];
      if plan.status == Executed || plan.status == Approved {
        return;
      }
      plan.status := Approved;
      plan.approvedBy := Some(user);
      PersistPlan(id, io);
    }

    /** `execute_plan`, on the graph store. */
    method ExecutePlan(id: PlanId, approvals: seq<PlanExecution.Approval>, strip: string -> string, ids: Ids,
                       owner: NodeId, store: PlanExecution.GraphStore, io: Io)
      returns (ok: bool, ghost chosen: seq<Chosen>)
      requires Valid()
      modifies this, pending.Values, store
      ensures Valid() && View() == Next(old(View()), Execute(id, ok, io))
      ensures var call := Execute(id, ok, io);
              if ExecutionStarted(old(View()), call, id) then
                RanOn(TasksRead(old(View()), call, id), approvals, strip, chosen, ids, owner, old(store.View()), store, ok)
              else !ok && store.View() == old(store.View())
    {
      ok, chosen := false, [];
      var found := LoadPlan(id, io);
      if found {
        ok, chosen := ExecuteLoaded(id, approvals, strip, ids, owner, store, io);
      }
    }

    /** The tasks selected from `tasks` were created in `store`, or the creation was rolled back. */
    ghost static predicate RanOn(tasks: seq<PlanExecution.Entry>, approvals: seq<PlanExecution.Approval>,
                                 strip: string -> string, chosen: seq<Chosen>, ids: Ids, owner: NodeId, before: Graph,
                                 store: PlanExecution.GraphStore, ok: bool)
      reads store
    {
      && PlanExecution.IsSelection(tasks, approvals, strip, chosen, |tasks|)
      && ok == CreateFirst(before, store.fails, ids, owner, chosen, |chosen|).ok
      && store.View() == PlanGraph.Executed(before, store.fails, ids, owner, chosen)
    }

    method ExecuteLoaded(id: PlanId, approvals: seq<PlanExecution.Approval>, strip: string -> string, ids: Ids,
                         owner: NodeId, store: PlanExecution.GraphStore, io: Io)
      returns (ok: bool, ghost chosen: seq<Chosen>)
      requires Valid() && id in pending
      modifies this`memory, this`stored, pending[id], store
      ensures Valid() && View() == ExecuteStep(old(View()), id, ok, io)
      ensures if old(memory[id].status) == Approved then
                RanOn(old(memory[id].tasks), approvals, strip, chosen, ids, owner, old(store.View()), store, ok)
              else !ok && store.View() == old(store.View())
    {
      ok, chosen := false, [];
      var plan := pending[id];
      if plan.status == Executed || plan.status != Approved {
        return;
      }
      var selected := PlanExecution.SelectTasks(plan.tasks, approvals, strip);
      chosen := selected;
      ok := store.Execute(ids, owner, selected);
      if ok {
        MarkExecuted(id, io);
      }
    }

    method MarkExecuted(id: PlanId, io: Io)
      requires Valid() && id in pending
      modifies this`memory, this`stored, pending[id]
      ensures Valid() && View() == Persist(old(View()), id, old(memory[id]).(status := Executed), io)
    {
      pending[id].status := Executed;
      PersistPlan(id, io);
    }
  }
}
