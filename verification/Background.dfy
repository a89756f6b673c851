/** The background task manager (internal/background/manager.go): every operation takes the lock,
    a kill takes it four times, and metadata is written before memory. */
module Background {
  import opened Basics

  datatype Status = Running | Completed | Failed | Killed

  /** `completedAt` is None for the zero time; `details` stands for the fields no operation changes. */
  datatype Task = Task(pid: int, status: Status, completedAt: Option<int>, exitCode: int, details: string)

  /** A completion time is there exactly when the task no longer runs. */
  predicate Stamped(t: Task) {
    t.completedAt.None? <==> t.status.Running?
  }

  // ---- what each operation makes of one task ----

  function Stamp(t: Task, now: int): Option<int> {
    if t.completedAt.None? then Some(now) else t.completedAt
  }

  /** UpdateStatus. */
  function Updated(t: Task, status: Status, exitCode: int, now: int): Task {
    t.(status := status, exitCode := exitCode, completedAt := if status.Running? then None else Stamp(t, now))
  }

  /** MarkExited; it acts on a running task only. */
  function Exited(t: Task, status: Status, exitCode: int, now: int): Option<Task> {
    if !t.status.Running? then None
    else Some(t.(status := status, exitCode := exitCode, completedAt := Stamp(t, now)))
  }

  /** markKilledIfStillRunning. */
  function Marked(t: Task, pid: int, now: int): Option<Task> {
    if !t.status.Running? || t.pid != pid then None
    else Some(t.(status := Killed, exitCode := -1, completedAt := Stamp(t, now)))
  }

  /** restoreRunningAfterFailedKill. */
  function Restored(t: Task, pid: int): Option<Task> {
    if !t.status.Killed? || t.pid != pid then None
    else Some(t.(status := Running, exitCode := 0, completedAt := None))
  }

  /** An exit reported while a kill is failing leaves no trace: the mark hides it, and the rollback
      puts the task back to running. */
  lemma ExitDuringFailingKillIsLost(t: Task, status: Status, exitCode: int, now: int)
    requires t.status.Running? && Stamped(t)
    ensures Marked(t, t.pid, now).Some?
    ensures Exited(Marked(t, t.pid, now).value, status, exitCode, now) == None
    ensures Restored(Marked(t, t.pid, now).value, t.pid) == Some(t.(exitCode := 0))
  {
  }

  // ---- loading ----

  /** normalizeLoadedTask on metadata that can be read; `tidy` trims and resolves the other fields. */
  function Normalized(t: Task, tidy: string -> string, now: int): Task {
    var u := t.(details := tidy(t.details));
    if t.status.Running? then u.(status := Failed, pid := 0, exitCode := -1, completedAt := Stamp(t, now)) else u
  }

  /** What stands on disk behind the load: the repaired task if the repair could be written. */
  function OnDisk(t: Task, tidy: string -> string, now: int, repaired: bool): Task {
    if Normalized(t, tidy, now) != t && repaired then Normalized(t, tidy, now) else t
  }

  /** Memory and disk agree on a loaded task unless it needed a repair that could not be written. */
  lemma LoadAgreesIff(t: Task, tidy: string -> string, now: int, repaired: bool)
    ensures OnDisk(t, tidy, now, repaired) == Normalized(t, tidy, now)
      <==> (repaired || (!t.status.Running? && tidy(t.details) == t.details))
  {
  }

  /** No loaded task runs; it has its completion time exactly if the file gave one, or said it was
      running. */
  lemma LoadStampedIff(t: Task, tidy: string -> string, now: int)
    ensures !Normalized(t, tidy, now).status.Running?
    ensures Stamped(Normalized(t, tidy, now)) <==> (t.status.Running? || t.completedAt.Some?)
  {
  }

  // ---- one step of any operation ----

  /** Where a Kill stands between two lock regions. */
  datatype Killer =
    | Starting(id: string)
    | Targeted(id: string, pid: int)
    | Confirmed(id: string, pid: int)
    | Terminating(id: string, pid: int)
    | Restoring(id: string, pid: int)
    | Done

  /** The mark this Kill set still stands for it. */
  predicate Owns(k: Killer, id: string) {
    (k.Terminating? || k.Restoring?) && k.id == id
  }

  predicate Underway(k: Killer) {
    !k.Starting? && !k.Done?
  }

  /** What a Kill did, in order: marking a task killed, and signalling a pid. */
  datatype Deed = Mark(killer: nat, id: string, pid: int) | Signal(killer: nat, id: string, pid: int)

  /** Every Kill has a number of its own. */
  datatype Event =
    | Register(id: string, pid: int, details: string)
    | SetPID(id: string, pid: int)
    | UpdateStatus(id: string, status: Status, exitCode: int)
    | MarkExited(id: string, status: Status, exitCode: int)
    | Kill(killer: nat, id: string)
    | KillStep(killer: nat)

  /** One step, with the clock and the luck of its write or signal. */
  datatype Tick = Tick(event: Event, now: int, ok: bool)

  /** Memory, disk and the Kills under way; and what happened so far: the deeds, the tasks whose
      process a Kill terminated, those set from outside to another status than killed, and those
      set running. */
  datatype State = State(
    tasks: map<string, Task>, disk: map<string, Task>, kills: map<nat, Killer>, deeds: seq<Deed>,
    terminated: set<string>, overruled: set<string>, rerun: set<string>)

  const EMPTY := State(map[], map[], map[], [], {}, {}, {})

  /** A change of one task, if there is one: written first, taken over behind a good write. */
  function Stored(s: State, id: string, t: Option<Task>, ok: bool): State {
    if t.Some? && ok then s.(tasks := s.tasks[id := t.value], disk := s.disk[id := t.value]) else s
  }

  function Get(s: State, id: string): Option<Task> {
    if id in s.tasks then Some(s.tasks[id]) else None
  }

  function Registered(s: State, id: string, pid: int, details: string, ok: bool): State {
    Stored(s, id, if id in s.tasks then None else Some(Task(pid, Running, None, 0, details)), ok)
  }

  function WithPID(s: State, id: string, pid: int, ok: bool): State {
    Stored(s, id, if pid > 0 && id in s.tasks then Some(s.tasks[id].(pid := pid)) else None, ok)
  }

  function WithStatus(s: State, id: string, status: Status, exitCode: int, now: int, ok: bool): State {
    var t := if id in s.tasks then Some(Updated(s.tasks[id], status, exitCode, now)) else None;
    Stored(s, id, t, ok).(
      overruled := s.overruled + (if status.Killed? then {} else {id}),
      rerun := s.rerun + if status.Running? then {id} else {})
  }

  function WithExit(s: State, id: string, status: Status, exitCode: int, now: int, ok: bool): State {
    var acts := (status.Completed? || status.Failed?) && id in s.tasks;
    Stored(s, id, if acts then Exited(s.tasks[id], status, exitCode, now) else None, ok)
  }

  function Started(s: State, k: nat, id: string): State {
    if k in s.kills then s else s.(kills := s.kills[k := Starting(id)])
  }

  /** killTarget, then isRunningPID: where a Kill goes on from what it reads. */
  function Aimed(k: Killer, tasks: map<string, Task>): Killer {
    match k
    case Starting(id) =>
      if id in tasks && tasks[id].status.Running? && tasks[id].pid > 0 then Targeted(id, tasks[id].pid) else Done
    case Targeted(id, pid) =>
      if id in tasks && tasks[id].status.Running? && tasks[id].pid == pid then Confirmed(id, pid) else Done
    case _ => k
  }

  /** The next lock region of a Kill, or its signal between two of them. */
  function KillStepped(s: State, k: nat, now: int, ok: bool): State
    requires k in s.kills
  {
    match s.kills[k]
    case Starting(_) => s.(kills := s.kills[k := Aimed(s.kills[k], s.tasks)])
    case Targeted(_, _) => s.(kills := s.kills[k := Aimed(s.kills[k], s.tasks)])
    case Confirmed(id, pid) =>
      var t := if id in s.tasks then Marked(s.tasks[id], pid, now) else None;
      var done := t.Some? && ok;
      Stored(s, id, t, ok).(
        kills := s.kills[k := if done then Terminating(id, pid) else Done],
        deeds := s.deeds + if done then [Mark(k, id, pid)] else [])
    case Terminating(id, pid) =>
      s.(kills := s.kills[k := if ok then Done else Restoring(id, pid)],
         deeds := s.deeds + [Signal(k, id, pid)],
         terminated := s.terminated + if ok then {id} else {})
    case Restoring(id, pid) =>
      var t := if id in s.tasks then Restored(s.tasks[id], pid) else None;
      Stored(s, id, t, ok).(kills := s.kills[k := Done])
    case Done => s
  }

  function Stepped(s: State, tick: Tick): State {
    match tick.event
    case Register(id, pid, details) => Registered(s, id, pid, details, tick.ok)
    case SetPID(id, pid) => WithPID(s, id, pid, tick.ok)
    case UpdateStatus(id, status, exitCode) => WithStatus(s, id, status, exitCode, tick.now, tick.ok)
    case MarkExited(id, status, exitCode) => WithExit(s, id, status, exitCode, tick.now, tick.ok)
    case Kill(k, id) => Started(s, k, id)
    case KillStep(k) => if k in s.kills then KillStepped(s, k, tick.now, tick.ok) else s
  }

  function Run(s: State, ticks: seq<Tick>): State
    decreases |ticks|
  {
    if ticks == [] then s else Run(Stepped(s, ticks[0]), ticks[1..])
  }

  // ---- what a step writes ----

  /** An exit is recorded with its code and the time, once, and only of a running task. */
  lemma ExitIsRecorded(s: State, id: string, status: Status, exitCode: int, now: int)
    requires id in s.tasks && Stamped(s.tasks[id])
    ensures var t := s.tasks[id];
      Stepped(s, Tick(MarkExited(id, status, exitCode), now, true)).tasks[id] ==
        if t.status.Running? && (status.Completed? || status.Failed?)
        then Task(t.pid, status, Some(now), exitCode, t.details) else t
  {
  }

  /** A status from outside is recorded with its code; the time is that of the first leaving of running. */
  lemma StatusIsRecorded(s: State, id: string, status: Status, exitCode: int, now: int)
    requires id in s.tasks && Stamped(s.tasks[id])
    ensures var t := s.tasks[id];
      Stepped(s, Tick(UpdateStatus(id, status, exitCode), now, true)).tasks[id] ==
        Task(t.pid, status, if status.Running? then None else if t.status.Running? then Some(now) else t.completedAt,
             exitCode, t.details)
  {
  }

  /** A kill records the task killed with code -1, and takes that back when its signal fails. */
  lemma KillIsRecorded(s: State, k: nat, id: string, pid: int, now: int)
    requires id in s.tasks && Stamped(s.tasks[id]) && k in s.kills
    ensures var t, u := s.tasks[id], Stepped(s, Tick(KillStep(k), now, true));
      && (s.kills[k] == Confirmed(id, pid) ==>
            u.tasks[id] == if t.status.Running? && t.pid == pid then Task(pid, Killed, Some(now), -1, t.details) else t)
      && (s.kills[k] == Restoring(id, pid) ==>
            u.tasks[id] == if t.status.Killed? && t.pid == pid then Task(pid, Running, None, 0, t.details) else t)
  {
  }

  /** Whose task an event may change. */
  function Subject(s: State, e: Event): Option<string> {
    match e
    case Kill(_, _) => None
    case KillStep(k) => if k in s.kills && !s.kills[k].Done? then Some(s.kills[k].id) else None
    case _ => Some(e.id)
  }

  /** A step changes no other task, and a failed write none at all. */
  lemma OthersStand(s: State, tick: Tick, id: string)
    requires Subject(s, tick.event) != Some(id) || !tick.ok
    ensures id in Stepped(s, tick).tasks <==> id in s.tasks
    ensures id in s.tasks ==> Stepped(s, tick).tasks[id] == s.tasks[id]
  {
  }

  // ---- what every step keeps ----

  ghost predicate Agree(s: State, id: string) {
    id in s.tasks ==> id in s.disk && s.disk[id] == s.tasks[id] && Stamped(s.tasks[id])
  }

  /** At most one Kill owns the mark of a task, and no Kill that of a terminated one. As long as
      nobody sets the task running, it is not running then; as long as nobody sets it to anything
      but killed, it is killed. */
  ghost predicate MarkStands(s: State, id: string) {
    id in s.tasks && id !in s.rerun ==>
      && (id in s.terminated ==> Down(s, id))
      && (forall k :: k in s.kills && Owns(s.kills[k], id) ==> Down(s, id) && id !in s.terminated)
      && (forall k, j :: k in s.kills && j in s.kills && Owns(s.kills[k], id) && Owns(s.kills[j], id) ==> k == j)
  }

  predicate Down(s: State, id: string)
    requires id in s.tasks
  {
    !s.tasks[id].status.Running? && (id !in s.overruled ==> s.tasks[id].status.Killed?)
  }

  /** Every signal comes behind the mark of the same Kill. */
  ghost predicate SignalsFollowMarks(deeds: seq<Deed>) {
    forall i :: 0 <= i < |deeds| && deeds[i].Signal? ==>
      Mark(deeds[i].killer, deeds[i].id, deeds[i].pid) in deeds[..i]
  }

  ghost predicate Kept(s: State) {
    && (forall id :: Agree(s, id)) && (forall id :: MarkStands(s, id))
    && SignalsFollowMarks(s.deeds)
    && (forall k :: k in s.kills && s.kills[k].Terminating? ==> Mark(k, s.kills[k].id, s.kills[k].pid) in s.deeds)
    && (forall k :: k in s.kills && Underway(s.kills[k]) ==> s.kills[k].id in s.tasks)
    && s.terminated <= s.tasks.Keys && s.rerun <= s.overruled
  }

  lemma MarksBefore(deeds: seq<Deed>, d: Deed)
    requires SignalsFollowMarks(deeds) && (d.Signal? ==> Mark(d.killer, d.id, d.pid) in deeds)
    ensures SignalsFollowMarks(deeds + [d])
    ensures (forall e :: e in deeds ==> e in deeds + [d]) && d in deeds + [d]
  {
    var more := deeds + [d];
    forall i | 0 <= i < |more| && more[i].Signal? ensures Mark(more[i].killer, more[i].id, more[i].pid) in more[..i] {
      assert i < |deeds| ==> more[..i] == deeds[..i];
      assert i == |deeds| ==> more[..i] == deeds;
    }
  }

  /** A change of one task that leaves the marks alone. */
  lemma StoredKeeps(s: State, id: string, t: Option<Task>, ok: bool)
    requires Kept(s) && (t.Some? ==> Stamped(t.value))
    requires t.Some? && id in s.tasks ==> s.tasks[id].status == t.value.status || s.tasks[id].status.Running?
    ensures Kept(Stored(s, id, t, ok))
  {
    var s' := Stored(s, id, t, ok);
    forall j ensures Agree(s', j) && MarkStands(s', j) {
      assert Agree(s, j) && MarkStands(s, j);
    }
  }

  lemma WithStatusKeeps(s: State, id: string, status: Status, exitCode: int, now: int, ok: bool)
    requires Kept(s)
    ensures Kept(WithStatus(s, id, status, exitCode, now, ok))
  {
    var s' := WithStatus(s, id, status, exitCode, now, ok);
    forall j ensures Agree(s', j) && MarkStands(s', j) {
      assert Agree(s, j) && MarkStands(s, j);
    }
  }

  /** A Kill that owns no mark goes on. */
  lemma MovedKeeps(s: State, k: nat, next: Killer)
    requires Kept(s) && !next.Terminating? && !next.Restoring?
    requires Underway(next) ==> next.id in s.tasks
    ensures Kept(s.(kills := s.kills[k := next]))
  {
    var s' := s.(kills := s.kills[k := next]);
    forall j ensures Agree(s', j) && MarkStands(s', j) {
      assert Agree(s, j) && MarkStands(s, j);
    }
  }

  lemma MarkKeeps(s: State, k: nat, now: int)
    requires Kept(s) && k in s.kills && s.kills[k].Confirmed?
    requires var id := s.kills[k].id; id in s.tasks && Marked(s.tasks[id], s.kills[k].pid, now).Some?
    ensures Kept(KillStepped(s, k, now, true))
  {
    var id, pid := s.kills[k].id, s.kills[k].pid;
    var s' := KillStepped(s, k, now, true);
    MarksBefore(s.deeds, Mark(k, id, pid));
    forall j ensures Agree(s', j) && MarkStands(s', j) {
      assert Agree(s, j) && MarkStands(s, j);
    }
  }

  lemma TerminateKeeps(s: State, k: nat, now: int, ok: bool)
    requires Kept(s) && k in s.kills && s.kills[k].Terminating?
    ensures Kept(KillStepped(s, k, now, ok))
  {
    var id, pid := s.kills[k].id, s.kills[k].pid;
    var s' := KillStepped(s, k, now, ok);
    MarksBefore(s.deeds, Signal(k, id, pid));
    forall j ensures Agree(s', j) && MarkStands(s', j) {
      assert Agree(s, j) && MarkStands(s, j);
    }
  }

  lemma RestoreKeeps(s: State, k: nat, now: int, ok: bool)
    requires Kept(s) && k in s.kills && s.kills[k].Restoring?
    ensures Kept(KillStepped(s, k, now, ok))
  {
    var s' := KillStepped(s, k, now, ok);
    forall j ensures Agree(s', j) && MarkStands(s', j) {
      assert Agree(s, j) && MarkStands(s, j);
    }
  }

  lemma KillStepKeeps(s: State, k: nat, now: int, ok: bool)
    requires Kept(s) && k in s.kills
    ensures Kept(KillStepped(s, k, now, ok))
  {
    hide MarkStands, Agree, SignalsFollowMarks;
    match s.kills[k]
    case Starting(_) => MovedKeeps(s, k, Aimed(s.kills[k], s.tasks));
    case Targeted(_, _) => MovedKeeps(s, k, Aimed(s.kills[k], s.tasks));
    case Confirmed(id, pid) =>
      if ok && Marked(s.tasks[id], pid, now).Some? {
        MarkKeeps(s, k, now);
      } else {
        MovedKeeps(s, k, Done);
        assert s.deeds + [] == s.deeds;
        assert KillStepped(s, k, now, ok) == s.(kills := s.kills[k := Done]);
      }
    case Terminating(_, _) => TerminateKeeps(s, k, now, ok);
    case Restoring(_, _) => RestoreKeeps(s, k, now, ok);
    case Done =>
  }

  /** Every step keeps: memory and disk agree, completion times are there exactly when due, marks
      stand, and signals follow marks. */
  lemma StepKeeps(s: State, tick: Tick)
    requires Kept(s)
    ensures Kept(Stepped(s, tick))
  {
    hide MarkStands, SignalsFollowMarks, KillStepped;
    match tick.event
    case Register(id, pid, details) =>
      StoredKeeps(s, id, if id in s.tasks then None else Some(Task(pid, Running, None, 0, details)), tick.ok);
    case SetPID(id, pid) =>
      assert Agree(s, id);
      StoredKeeps(s, id, if pid > 0 && id in s.tasks then Some(s.tasks[id].(pid := pid)) else None, tick.ok);
    case UpdateStatus(id, status, exitCode) =>
      WithStatusKeeps(s, id, status, exitCode, tick.now, tick.ok);
    case MarkExited(id, status, exitCode) =>
      assert Agree(s, id);
      var acts := (status.Completed? || status.Failed?) && id in s.tasks;
      StoredKeeps(s, id, if acts then Exited(s.tasks[id], status, exitCode, tick.now) else None, tick.ok);
    case Kill(k, id) =>
      if k !in s.kills {
        MovedKeeps(s, k, Starting(id));
      }
    case KillStep(k) =>
      if k in s.kills {
        KillStepKeeps(s, k, tick.now, tick.ok);
      }
  }

  lemma {:induction false} RunKeeps(s: State, ticks: seq<Tick>)
    requires Kept(s)
    ensures Kept(Run(s, ticks))
    decreases |ticks|
  {
    hide Kept, Stepped;
    if ticks != [] {
      StepKeeps(s, ticks[0]);
      RunKeeps(Stepped(s, ticks[0]), ticks[1..]);
    }
  }

  // ---- when a terminated task stays down ----

  /** The statuses UpdateStatus is called with are among `allowed`. */
  predicate Uses(ticks: seq<Tick>, allowed: set<Status>) {
    forall i :: 0 <= i < |ticks| && ticks[i].event.UpdateStatus? ==> ticks[i].event.status in allowed
  }

  predicate NoneRunning(s: State) {
    forall id :: id in s.terminated && id in s.tasks ==> !s.tasks[id].status.Running?
  }

  predicate AllKilled(s: State) {
    forall id :: id in s.terminated && id in s.tasks ==> s.tasks[id].status.Killed?
  }

  /** Exactly which steps put a terminated task back to running: setting it running from outside,
      and the rollback of a Kill whose mark another Kill has renewed. */
  lemma RevivingStepsIff(s: State, tick: Tick, id: string)
    requires Kept(s) && id in s.terminated && !s.tasks[id].status.Running?
    ensures var e := tick.event;
      Stepped(s, tick).tasks[id].status.Running? <==>
        tick.ok && ((e.UpdateStatus? && e.id == id && e.status.Running?)
                    || (e.KillStep? && e.killer in s.kills && s.tasks[id].status.Killed?
                        && s.kills[e.killer] == Restoring(id, s.tasks[id].pid)))
  {
    hide MarkStands, SignalsFollowMarks;
    var e := tick.event;
    if e.KillStep? && e.killer in s.kills {
      assert Underway(s.kills[e.killer]) ==> s.kills[e.killer].id in s.tasks;
    }
  }

  /** Exactly which steps take a killed, terminated task out of killed: setting any other status
      from outside, and that same rollback. */
  lemma UnkillingStepsIff(s: State, tick: Tick, id: string)
    requires Kept(s) && id in s.terminated && s.tasks[id].status.Killed?
    ensures var e := tick.event;
      !Stepped(s, tick).tasks[id].status.Killed? <==>
        tick.ok && ((e.UpdateStatus? && e.id == id && !e.status.Killed?)
                    || (e.KillStep? && e.killer in s.kills
                        && s.kills[e.killer] == Restoring(id, s.tasks[id].pid)))
  {
    hide MarkStands, SignalsFollowMarks;
    var e := tick.event;
    if e.KillStep? && e.killer in s.kills {
      assert Underway(s.kills[e.killer]) ==> s.kills[e.killer].id in s.tasks;
    }
  }

  /** As long as it was never set running there is no such rollback: nobody still owns the mark. */
  lemma NoRollbackIsLeft(s: State, k: nat, id: string)
    requires Kept(s) && id in s.terminated && id !in s.rerun && k in s.kills
    ensures !Owns(s.kills[k], id)
  {
    assert MarkStands(s, id);
  }

  lemma {:induction false} OverruledOnlyBy(s: State, ticks: seq<Tick>, allowed: set<Status>)
    requires Uses(ticks, allowed)
    ensures Running !in allowed ==> Run(s, ticks).rerun == s.rerun
    ensures allowed <= {Killed} ==> Run(s, ticks).overruled == s.overruled
    decreases |ticks|
  {
    if ticks != [] {
      assert Uses(ticks[1..], allowed);
      StepOverrules(s, ticks[0]);
      hide Stepped;
      OverruledOnlyBy(Stepped(s, ticks[0]), ticks[1..], allowed);
    }
  }

  lemma StepOverrules(s: State, tick: Tick)
    ensures var e, s' := tick.event, Stepped(s, tick);
      && (!e.UpdateStatus? ==> s'.overruled == s.overruled && s'.rerun == s.rerun)
      && (e.UpdateStatus? && !e.status.Running? ==> s'.rerun == s.rerun)
      && (e.UpdateStatus? && e.status.Killed? ==> s'.overruled == s.overruled)
  {
  }

  /** As long as no UpdateStatus sets a task running, a task whose process was terminated is never
      running again, over every interleaving. */
  lemma TerminatedStaysDown(ticks: seq<Tick>)
    requires forall i :: 0 <= i < |ticks| && ticks[i].event.UpdateStatus? ==> !ticks[i].event.status.Running?
    ensures NoneRunning(Run(EMPTY, ticks))
  {
    var allowed := {Completed, Failed, Killed};
    assert Uses(ticks, allowed);
    OverruledOnlyBy(EMPTY, ticks, allowed);
    EmptyKept();
    RunKeeps(EMPTY, ticks);
    var s := Run(EMPTY, ticks);
    forall id | id in s.terminated && id in s.tasks ensures !s.tasks[id].status.Running? {
      assert MarkStands(s, id);
    }
  }

  lemma EmptyKept()
    ensures Kept(EMPTY)
  {
  }

  lemma NothingRun(s: State)
    ensures Run(s, []) == s
  {
  }

  lemma RunCons(s: State, tick: Tick, rest: seq<Tick>)
    ensures Run(s, [tick] + rest) == Run(Stepped(s, tick), rest)
  {
    assert ([tick] + rest)[1..] == rest;
  }

  lemma {:induction false} RunConcat(s: State, a: seq<Tick>, b: seq<Tick>)
    ensures Run(s, a + b) == Run(Run(s, a), b)
    decreases |a|
  {
    if a == [] {
      assert a + b == b;
    } else {
      assert (a + b)[1..] == a[1..] + b;
      RunConcat(Stepped(s, a[0]), a[1..], b);
    }
  }

  /** A Kill from its start to its mark. */
  function Aiming(k: nat, id: string): seq<Tick> {
    [Tick(Kill(k, id), 0, true), Tick(KillStep(k), 0, true), Tick(KillStep(k), 0, true), Tick(KillStep(k), 0, true)]
  }

  lemma AimingMarks(s: State, k: nat, id: string)
    requires k !in s.kills && id in s.tasks && s.tasks[id].status.Running? && s.tasks[id].pid > 0
    ensures var pid, s' := s.tasks[id].pid, Run(s, Aiming(k, id));
      && s' == s.(tasks := s.tasks[id := Marked(s.tasks[id], pid, 0).value],
                  disk := s.disk[id := Marked(s.tasks[id], pid, 0).value],
                  kills := s.kills[k := Terminating(id, pid)], deeds := s.deeds + [Mark(k, id, pid)])
  {
    hide Run;
    var pid, step := s.tasks[id].pid, Tick(KillStep(k), 0, true);
    var s1 := s.(kills := s.kills[k := Starting(id)]);
    var s2 := s.(kills := s.kills[k := Targeted(id, pid)]);
    var s3 := s.(kills := s.kills[k := Confirmed(id, pid)]);
    assert Stepped(s, Tick(Kill(k, id), 0, true)) == s1;
    assert s1.kills[k := Targeted(id, pid)] == s2.kills && Stepped(s1, step) == s2;
    assert s2.kills[k := Confirmed(id, pid)] == s3.kills && Stepped(s2, step) == s3;
    assert s3.kills[k := Terminating(id, pid)] == s.kills[k := Terminating(id, pid)];
    RunCons(s, Tick(Kill(k, id), 0, true), [step, step, step]);
    RunCons(s1, step, [step, step]);
    RunCons(s2, step, [step]);
    RunCons(s3, step, []);
    NothingRun(Stepped(s3, step));
    assert Aiming(k, id) == [Tick(Kill(k, id), 0, true)] + [step, step, step];
    assert [step, step, step] == [step] + [step, step] && [step, step] == [step] + [step] && [step] == [step] + [];
  }

  /** Two Kills of one task: the signal of the first fails; the task is set running from outside;
      the second terminates it; the first rolls back. */
  function Revival(id: string): seq<Tick> {
    [Tick(Register(id, 1, ""), 0, true)] + (Aiming(0, id)
    + ([Tick(KillStep(0), 0, false)] + ([Tick(UpdateStatus(id, Running, 0), 0, true)] + (Aiming(1, id)
    + ([Tick(KillStep(1), 0, true)] + [Tick(KillStep(0), 0, true)])))))
  }

  /** It ends with a dead process back to running, put there by the rollback and not by the status
      that was set. */
  lemma RevivalEndsRunning(id: string)
    ensures var s := Run(EMPTY, Revival(id));
      id in s.terminated && id in s.tasks && s.tasks[id].status.Running?
  {
    hide Run, Aiming;
    var t := Task(1, Running, None, 0, "");
    var killed := Marked(t, 1, 0).value;
    var again := Updated(killed, Running, 0, 0);
    var after5 := [Tick(KillStep(1), 0, true)] + [Tick(KillStep(0), 0, true)];
    var after4 := [Tick(UpdateStatus(id, Running, 0), 0, true)] + (Aiming(1, id) + after5);
    var after3 := [Tick(KillStep(0), 0, false)] + after4;

    var s1 := Stepped(EMPTY, Tick(Register(id, 1, ""), 0, true));
    assert s1.tasks == map[id := t];
    RunCons(EMPTY, Tick(Register(id, 1, ""), 0, true), Aiming(0, id) + after3);
    RunConcat(s1, Aiming(0, id), after3);
    AimingMarks(s1, 0, id);
    var s2 := Run(s1, Aiming(0, id));
    RunCons(s2, Tick(KillStep(0), 0, false), after4);
    var s3 := Stepped(s2, Tick(KillStep(0), 0, false));
    assert s3.tasks[id] == killed && s3.kills[0] == Restoring(id, 1);
    RunCons(s3, Tick(UpdateStatus(id, Running, 0), 0, true), Aiming(1, id) + after5);
    var s4 := Stepped(s3, Tick(UpdateStatus(id, Running, 0), 0, true));
    assert s4.tasks[id] == again && 1 !in s4.kills;
    RunConcat(s4, Aiming(1, id), after5);
    AimingMarks(s4, 1, id);
    var s5 := Run(s4, Aiming(1, id));
    RunCons(s5, Tick(KillStep(1), 0, true), [Tick(KillStep(0), 0, true)]);
    var s6 := Stepped(s5, Tick(KillStep(1), 0, true));
    assert id in s6.terminated && s6.kills[0] == Restoring(id, 1) && s6.tasks[id].status.Killed? && s6.tasks[id].pid == 1;
    RunCons(s6, Tick(KillStep(0), 0, true), []);
    NothingRun(Stepped(s6, Tick(KillStep(0), 0, true)));
    assert [Tick(KillStep(0), 0, true)] + [] == [Tick(KillStep(0), 0, true)];
  }

  /** A terminated task stays out of running over every interleaving exactly if UpdateStatus is
      never called with running. */
  lemma StaysDownIff(allowed: set<Status>)
    ensures (forall ticks :: Uses(ticks, allowed) ==> NoneRunning(Run(EMPTY, ticks))) <==> Running !in allowed
  {
    hide Run, NoneRunning, Stepped;
    if Running !in allowed {
      forall ticks | Uses(ticks, allowed) ensures NoneRunning(Run(EMPTY, ticks)) {
        TerminatedStaysDown(ticks);
      }
    } else {
      var ticks := Revival("a");
      RevivalUses("a", allowed);
      RevivalEndsRunning("a");
      SomeRunning(Run(EMPTY, ticks), "a");
    }
  }

  lemma SomeRunning(s: State, id: string)
    requires id in s.terminated && id in s.tasks && s.tasks[id].status.Running?
    ensures !NoneRunning(s)
  {
  }

  lemma RevivalUses(id: string, allowed: set<Status>)
    requires Running in allowed
    ensures Uses(Revival(id), allowed)
  {
  }

  /** One Kill that succeeds, and then a status from outside. */
  function KilledThenSet(id: string, status: Status): seq<Tick> {
    [Tick(Register(id, 1, ""), 0, true)] + (Aiming(0, id)
    + ([Tick(KillStep(0), 0, true)] + [Tick(UpdateStatus(id, status, 0), 0, true)]))
  }

  lemma KilledThenSetEnds(id: string, status: Status)
    ensures var s := Run(EMPTY, KilledThenSet(id, status));
      id in s.terminated && id in s.tasks && s.tasks[id].status == status
  {
    hide Run, Aiming;
    var last := [Tick(UpdateStatus(id, status, 0), 0, true)];
    var after3 := [Tick(KillStep(0), 0, true)] + last;
    var s1 := Stepped(EMPTY, Tick(Register(id, 1, ""), 0, true));
    assert s1.tasks == map[id := Task(1, Running, None, 0, "")];
    RunCons(EMPTY, Tick(Register(id, 1, ""), 0, true), Aiming(0, id) + after3);
    RunConcat(s1, Aiming(0, id), after3);
    AimingMarks(s1, 0, id);
    var s2 := Run(s1, Aiming(0, id));
    RunCons(s2, Tick(KillStep(0), 0, true), last);
    var s3 := Stepped(s2, Tick(KillStep(0), 0, true));
    assert id in s3.terminated && id in s3.tasks;
    RunCons(s3, last[0], []);
    NothingRun(Stepped(s3, last[0]));
    assert last == [last[0]] + [];
  }

  /** It stays killed exactly if UpdateStatus is called with nothing but killed. */
  lemma StaysKilledIff(allowed: set<Status>)
    ensures (forall ticks :: Uses(ticks, allowed) ==> AllKilled(Run(EMPTY, ticks))) <==> allowed <= {Killed}
  {
    hide Run, AllKilled, Stepped;
    if allowed <= {Killed} {
      forall ticks | Uses(ticks, allowed) ensures AllKilled(Run(EMPTY, ticks)) {
        OnlyKilledStaysKilled(ticks);
      }
    } else {
      var status :| status in allowed && status != Killed;
      KilledThenSetUses("a", status, allowed);
      KilledThenSetEnds("a", status);
      SomeNotKilled(Run(EMPTY, KilledThenSet("a", status)), "a");
    }
  }

  lemma SomeNotKilled(s: State, id: string)
    requires id in s.terminated && id in s.tasks && !s.tasks[id].status.Killed?
    ensures !AllKilled(s)
  {
  }

  lemma KilledThenSetUses(id: string, status: Status, allowed: set<Status>)
    requires status in allowed
    ensures Uses(KilledThenSet(id, status), allowed)
  {
  }

  /** As long as UpdateStatus sets a task to nothing but killed, a task whose process was terminated
      is killed for good, over every interleaving. */
  lemma OnlyKilledStaysKilled(ticks: seq<Tick>)
    requires Uses(ticks, {Killed})
    ensures AllKilled(Run(EMPTY, ticks))
  {
    OverruledOnlyBy(EMPTY, ticks, {Killed});
    EmptyKept();
    RunKeeps(EMPTY, ticks);
    var s := Run(EMPTY, ticks);
    forall id | id in s.terminated && id in s.tasks ensures s.tasks[id].status.Killed? {
      assert MarkStands(s, id);
    }
  }

  // ---- the manager ----

  class Manager {
    var tasks: map<string, Task>
    var disk: map<string, Task>
    var kills: map<nat, Killer>
    ghost var deeds: seq<Deed>
    ghost var terminated: set<string>
    ghost var overruled: set<string>
    ghost var rerun: set<string>

    ghost function Now(): State
      reads this
    {
      State(tasks, disk, kills, deeds, terminated, overruled, rerun)
    }

    constructor ()
      ensures Now() == EMPTY
    {
      tasks, disk, kills := map[], map[], map[];
      deeds, terminated, overruled, rerun := [], {}, {}, {};
    }

    /** persistTaskLocked writes a file of its own and renames it over: all or nothing. */
    method Persist(id: string, t: Task, ok: bool)
      modifies this`disk
      ensures disk == if ok then old(disk)[id := t] else old(disk)
    {
      if ok {
        disk := disk[id := t];
      }
    }

    /** Every change of a registered task: the file first, memory only behind a good write. */
    method Store(id: string, t: Task, ok: bool)
      modifies this`tasks, this`disk
      ensures Now() == Stored(old(Now()), id, Some(t), ok)
    {
      Persist(id, t, ok);
      if ok {
        tasks := tasks[id := t];
      }
    }

    /** Register inserts first and takes the task out again when it cannot be written. */
    method DoRegister(id: string, pid: int, details: string, ok: bool)
      modifies this`tasks, this`disk
      ensures Now() == Registered(old(Now()), id, pid, details, ok)
    {
      if id in tasks {
        return;
      }
      ghost var before := tasks;
      var t := Task(pid, Running, None, 0, details);
      tasks := tasks[id := t];
      Persist(id, t, ok);
      if !ok {
        tasks := tasks - {id};
        assert tasks == before;
      }
    }

    method DoSetPID(id: string, pid: int, ok: bool)
      modifies this`tasks, this`disk
      ensures Now() == WithPID(old(Now()), id, pid, ok)
    {
      if pid > 0 && id in tasks {
        Store(id, tasks[id].(pid := pid), ok);
      }
    }

    method DoUpdateStatus(id: string, status: Status, exitCode: int, now: int, ok: bool)
      modifies this`tasks, this`disk, this`overruled, this`rerun
      ensures Now() == WithStatus(old(Now()), id, status, exitCode, now, ok)
    {
      if id in tasks {
        var t := tasks[id].(status := status, exitCode := exitCode);
        if status == Running {
          t := t.(completedAt := None);
        } else if t.completedAt.None? {
          t := t.(completedAt := Some(now));
        }
        Store(id, t, ok);
      }
      if status != Killed {
        overruled := overruled + {id};
      }
      if status == Running {
        rerun := rerun + {id};
      }
    }

    /** MarkExited leaves a task that is not running alone. */
    method DoMarkExited(id: string, status: Status, exitCode: int, now: int, ok: bool)
      modifies this`tasks, this`disk
      ensures Now() == WithExit(old(Now()), id, status, exitCode, now, ok)
      ensures forall j :: j in old(tasks) && !old(tasks)[j].status.Running? ==> j in tasks && tasks[j] == old(tasks)[j]
    {
      if status != Completed && status != Failed {
        return;
      }
      if id !in tasks || tasks[id].status != Running {
        return;
      }
      var t := tasks[id].(status := status, exitCode := exitCode);
      if t.completedAt.None? {
        t := t.(completedAt := Some(now));
      }
      Store(id, t, ok);
    }

    method DoKill(k: nat, id: string)
      modifies this`kills
      ensures Now() == Started(old(Now()), k, id)
    {
      if k !in kills {
        kills := kills[k := Starting(id)];
      }
    }

    /** markKilledIfStillRunning, under the lock. */
    method SetMark(k: nat, now: int, ok: bool)
      requires k in kills && kills[k].Confirmed?
      modifies this`tasks, this`disk, this`kills, this`deeds
      ensures Now() == KillStepped(old(Now()), k, now, ok)
      ensures kills[k].Terminating? ==>
        var id, pid := old(kills)[k].id, old(kills)[k].pid;
        && id in old(tasks) && old(tasks)[id].status.Running? && old(tasks)[id].pid == pid
        && id in tasks && tasks[id].status.Killed?
    {
      var id, pid := kills[k].id, kills[k].pid;
      if id !in tasks || tasks[id].status != Running || tasks[id].pid != pid {
        kills := kills[k := Done];
        return;
      }
      var t := tasks[id].(status := Killed, exitCode := -1);
      if t.completedAt.None? {
        t := t.(completedAt := Some(now));
      }
      Store(id, t, ok);
      if ok {
        kills := kills[k := Terminating(id, pid)];
        deeds := deeds + [Mark(k, id, pid)];
      } else {
        kills := kills[k := Done];
      }
    }

    /** The signal itself, outside the lock. */
    method Terminate(k: nat, now: int, dies: bool)
      requires k in kills && kills[k].Terminating?
      modifies this`kills, this`deeds, this`terminated
      ensures Now() == KillStepped(old(Now()), k, now, dies)
    {
      var id, pid := kills[k].id, kills[k].pid;
      deeds := deeds + [Signal(k, id, pid)];
      if dies {
        kills := kills[k := Done];
        terminated := terminated + {id};
      } else {
        kills := kills[k := Restoring(id, pid)];
      }
    }

    /** restoreRunningAfterFailedKill, under the lock. */
    method Restore(k: nat, now: int, ok: bool)
      requires k in kills && kills[k].Restoring?
      modifies this`tasks, this`disk, this`kills
      ensures Now() == KillStepped(old(Now()), k, now, ok)
    {
      var id, pid := kills[k].id, kills[k].pid;
      if id in tasks && tasks[id].status == Killed && tasks[id].pid == pid {
        Store(id, tasks[id].(status := Running, exitCode := 0, completedAt := None), ok);
      }
      kills := kills[k := Done];
    }

    method DoKillStep(k: nat, now: int, ok: bool)
      requires k in kills
      modifies this`tasks, this`disk, this`kills, this`deeds, this`terminated
      ensures Now() == KillStepped(old(Now()), k, now, ok)
    {
      match kills[k]
      case Starting(_) => kills := kills[k := Aimed(kills[k], tasks)];
      case Targeted(_, _) => kills := kills[k := Aimed(kills[k], tasks)];
      case Confirmed(_, _) => SetMark(k, now, ok);
      case Terminating(_, _) => Terminate(k, now, ok);
      case Restoring(_, _) => Restore(k, now, ok);
      case Done =>
    }

    method Do(tick: Tick)
      modifies this
      ensures Now() == Stepped(old(Now()), tick)
    {
      hide KillStepped, Stored;
      match tick.event
      case Register(id, pid, details) => DoRegister(id, pid, details, tick.ok);
      case SetPID(id, pid) => DoSetPID(id, pid, tick.ok);
      case UpdateStatus(id, status, exitCode) => DoUpdateStatus(id, status, exitCode, tick.now, tick.ok);
      case MarkExited(id, status, exitCode) => DoMarkExited(id, status, exitCode, tick.now, tick.ok);
      case Kill(k, id) => DoKill(k, id);
      case KillStep(k) =>
        if k in kills {
          DoKillStep(k, tick.now, tick.ok);
        }
    }
  }

  // ---- every interleaving ----

  lemma {:induction false} RunSnoc(s: State, ticks: seq<Tick>, tick: Tick)
    ensures Run(s, ticks + [tick]) == Stepped(Run(s, ticks), tick)
    decreases |ticks|
  {
    hide Stepped;
    RunConcat(s, ticks, [tick]);
    assert [tick][1..] == [];
  }

  /** Any number of Kills and other operations on any tasks, one lock region at a time, with any
      writes and signals failing. */
  method Interleave(ticks: seq<Tick>) returns (tasks: map<string, Task>, disk: map<string, Task>, ghost end: State)
    ensures end == Run(EMPTY, ticks) && tasks == end.tasks && disk == end.disk
    ensures forall id :: id in tasks ==> id in disk && disk[id] == tasks[id] && Stamped(tasks[id])
    ensures SignalsFollowMarks(end.deeds)
    ensures forall id :: id in end.terminated && id !in end.rerun ==> id in tasks && !tasks[id].status.Running?
    ensures forall id :: id in end.terminated && id !in end.overruled ==> id in tasks && tasks[id].status.Killed?
  {
    hide Run, Stepped;
    var manager := new Manager();
    NothingRun(EMPTY);
    assert ticks[..0] == [];
    for i := 0 to |ticks|
      invariant fresh(manager) && manager.Now() == Run(EMPTY, ticks[..i])
    {
      manager.Do(ticks[i]);
      RunSnoc(EMPTY, ticks[..i], ticks[i]);
      assert ticks[..i + 1] == ticks[..i] + [ticks[i]];
    }
    assert ticks[..|ticks|] == ticks;
    end := manager.Now();
    tasks, disk := manager.tasks, manager.disk;
    EmptyKept();
    RunKeeps(EMPTY, ticks);
    KeptMeans(end);
  }

  lemma KeptMeans(s: State)
    requires Kept(s)
    ensures forall id :: id in s.tasks ==> id in s.disk && s.disk[id] == s.tasks[id] && Stamped(s.tasks[id])
    ensures forall id :: id in s.terminated && id !in s.rerun ==> id in s.tasks && !s.tasks[id].status.Running?
    ensures forall id :: id in s.terminated && id !in s.overruled ==> id in s.tasks && s.tasks[id].status.Killed?
  {
    forall id | id in s.tasks ensures id in s.disk && s.disk[id] == s.tasks[id] && Stamped(s.tasks[id]) {
      assert Agree(s, id);
    }
    forall id | id in s.terminated && id !in s.rerun
      ensures !s.tasks[id].status.Running? && (id !in s.overruled ==> s.tasks[id].status.Killed?)
    {
      assert MarkStands(s, id);
    }
  }
}
