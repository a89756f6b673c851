/** The claim of a due job (internal/cli/cron_run.go, internal/cron/store.go). Instants are in
    nanoseconds. */
module Cron {
  import opened Basics
  import opened Schedule

  function Truncated(t: int): int {
    t - t % MINUTE
  }

  // ---- claiming ----

  datatype Status = Active | Paused

  datatype Job = Job(status: Status, nextRunAt: int, fireCount: nat, expr: string)

  /** The zone of the clock, and the parsing of schedule expressions. */
  datatype Schedules = Schedules(zone: Zone, parse: string -> Option<Fields>)

  /** Years end: all that the claims need of a schedule. */
  ghost predicate AllEnd(p: Schedules) {
    forall e :: p.parse(e).Some? ==> Ends(p.zone, p.parse(e).value)
  }

  /** The next run the expression has behind `after`, if it parses and has one. */
  ghost function SlotBehind(p: Schedules, expr: string, after: int): Option<int>
    requires AllEnd(p)
  {
    match p.parse(expr)
    case None => None
    case Some(f) => NextOf(p.zone, f, after)
  }

  /** The slot behind the minute of `fired`. */
  ghost function SlotAfter(p: Schedules, expr: string, fired: int): Option<int>
    requires AllEnd(p)
  {
    SlotBehind(p, expr, Truncated(fired))
  }

  method FindSlot(p: Schedules, expr: string, after: int) returns (r: Option<int>)
    requires AllEnd(p)
    ensures r == SlotBehind(p, expr, after)
  {
    match p.parse(expr)
    case None => r := None;
    case Some(f) => r := Next(p.zone, f, after);
  }

  lemma SlotBehindIsLater(p: Schedules, expr: string, after: int)
    requires AllEnd(p) && SlotBehind(p, expr, after).Some?
    ensures SlotBehind(p, expr, after).value > after && SlotBehind(p, expr, after).value % MINUTE == 0
  {
    hide NextOf, Ends;
    NextIsLater(p.zone, p.parse(expr).value, after);
  }

  lemma SlotIsLater(p: Schedules, expr: string, fired: int)
    requires AllEnd(p) && SlotAfter(p, expr, fired).Some?
    ensures SlotAfter(p, expr, fired).value > fired
  {
    hide SlotBehind, AllEnd;
    SlotBehindIsLater(p, expr, Truncated(fired));
  }

  predicate Claimable(j: Job, fired: int) {
    j.status.Active? && j.nextRunAt <= fired
  }

  /** What a successful claim leaves on disk. */
  ghost function Claimed(p: Schedules, j: Job, fired: int): Job
    requires AllEnd(p)
  {
    match SlotAfter(p, j.expr, fired)
    case Some(n) => j.(nextRunAt := n)
    case None => j.(status := Paused)
  }

  /** Once claimed at `fired`, the job is not due until its new slot, which is later; a job that
      cannot be advanced is not due at all. */
  lemma ClaimShutsOut(p: Schedules, j: Job, fired: int, other: int)
    requires AllEnd(p) && Claimable(j, fired)
    ensures var k := Claimed(p, j, fired);
      && (Claimable(k, other) <==> SlotAfter(p, j.expr, fired).Some? && other >= k.nextRunAt)
      && (Claimable(k, other) ==> other > fired)
      && !Claimable(k, fired)
  {
    if SlotAfter(p, j.expr, fired).Some? {
      SlotIsLater(p, j.expr, fired);
    }
  }

  /** What fireJob writes back: its own copy, advanced, and paused if the job was found paused. */
  ghost function Persisted(p: Schedules, copy: Job, current: Option<Job>, fired: int): Job
    requires AllEnd(p)
  {
    var next := copy.(fireCount := copy.fireCount + 1);
    var advanced := match SlotAfter(p, copy.expr, fired)
      case Some(n) => next.(nextRunAt := n)
      case None => next.(status := Paused);
    if current.Some? && current.value.status.Paused? then advanced.(status := Paused) else advanced
  }

  /** One job directory; None is a removed job. A read or a write may fail under the lock. */
  class Store {
    var job: Option<Job>

    constructor (job: Option<Job>)
      ensures this.job == job
    {
      this.job := job;
    }

    /** claimFire inside Mutate. An error is never a claim. */
    method ClaimFire(p: Schedules, fired: int, readOk: bool, writeOk: bool) returns (claimed: bool)
      requires AllEnd(p)
      modifies this
      ensures claimed <==> old(job).Some? && readOk && writeOk && Claimable(old(job).value, fired)
      ensures job == if claimed then Some(Claimed(p, old(job).value, fired)) else old(job)
    {
      if job.None? || !readOk {
        return false;
      }
      var current := job.value;
      if !current.status.Active? {
        return false;
      }
      if current.nextRunAt > fired {
        return false;
      }
      var slot := FindSlot(p, current.expr, Truncated(fired));
      match slot {
        case Some(n) => current := current.(nextRunAt := n);
        case None => current := current.(status := Paused);
      }
      if !writeOk {
        return false;
      }
      job := Some(current);
      return true;
    }

    /** The write-back of fireJob inside Mutate. */
    method Persist(p: Schedules, copy: Job, fired: int, readOk: bool, writeOk: bool)
      requires AllEnd(p)
      modifies this
      ensures job == if old(job).None? || !writeOk then old(job)
                     else Some(Persisted(p, copy, if readOk then old(job) else None, fired))
    {
      var next := copy.(fireCount := copy.fireCount + 1);
      var slot := FindSlot(p, copy.expr, Truncated(fired));
      match slot {
        case Some(n) => next := next.(nextRunAt := n);
        case None => next := next.(status := Paused);
      }
      if job.None? {
        return;
      }
      if readOk && job.value.status.Paused? {
        next := next.(status := Paused);
      }
      if writeOk {
        job := Some(next);
      }
    }

    /** Update: a whole job written over what is there. */
    method Update(changed: Job, writeOk: bool)
      modifies this
      ensures job == if old(job).Some? && writeOk then Some(changed) else old(job)
    {
      if job.Some? && writeOk {
        job := Some(changed);
      }
    }

    method Remove()
      modifies this
      ensures job == None
    {
      job := None;
    }
  }

  /** Exactly when a pause that landed during the run survives the write-back. */
  lemma PauseSurvivesIff(p: Schedules, copy: Job, fired: int, readOk: bool, current: Job)
    requires AllEnd(p) && current.status.Paused?
    ensures Persisted(p, copy, if readOk then Some(current) else None, fired).status.Paused?
      <==> (readOk || copy.status.Paused? || SlotAfter(p, copy.expr, fired).None?)
  {
  }

  // ---- any number of schedulers and commands ----

  /** What the processes at one job do, each on its own copy: list it, claim it, write a run back;
      the pause and resume commands, the skipping of a backlog, and removal. */
  datatype Event =
    | Look(who: nat)
    | Claim(who: nat, fired: int, readOk: bool, writeOk: bool)
    | WriteBack(who: nat, readOk: bool, writeOk: bool)
    | Pause(who: nat, writeOk: bool)
    | Resume(who: nat, now: int, writeOk: bool)
    | Reconcile(who: nat, now: int, writeOk: bool)
    | Remove

  /** A claim that was won: the slot it took, and when. */
  datatype Win = Win(who: nat, slot: int, fired: int)

  /** The job on disk, the copies held, the runs not written back, and the claims won so far. */
  datatype Desk = Desk(job: Option<Job>, copies: map<nat, Job>, running: map<nat, int>, wins: seq<Win>)

  function Start(job: Job): Desk {
    Desk(Some(job), map[], map[], [])
  }

  function Saved(d: Desk, j: Job, writeOk: bool): Desk {
    if d.job.Some? && writeOk then d.(job := Some(j)) else d
  }

  /** A listed copy that is due is tried; the claim is won on what is on disk. */
  predicate Wins(d: Desk, who: nat, fired: int, readOk: bool, writeOk: bool) {
    && who in d.copies && who !in d.running && Claimable(d.copies[who], fired)
    && d.job.Some? && readOk && writeOk && Claimable(d.job.value, fired)
  }

  ghost function WrittenBack(p: Schedules, d: Desk, who: nat, readOk: bool): Job
    requires AllEnd(p) && who in d.running && who in d.copies
  {
    Persisted(p, d.copies[who], if readOk then d.job else None, d.running[who])
  }

  ghost function Stepped(p: Schedules, d: Desk, e: Event): Desk
    requires AllEnd(p)
  {
    match e
    case Look(who) =>
      if d.job.Some? && who !in d.running then d.(copies := d.copies[who := d.job.value]) else d
    case Claim(who, fired, readOk, writeOk) =>
      if Wins(d, who, fired, readOk, writeOk) then
        d.(job := Some(Claimed(p, d.job.value, fired)), running := d.running[who := fired],
           wins := d.wins + [Win(who, d.job.value.nextRunAt, fired)])
      else d
    case WriteBack(who, readOk, writeOk) =>
      if who in d.running && who in d.copies then
        Saved(d, WrittenBack(p, d, who, readOk), writeOk).(running := d.running - {who})
      else d
    case Pause(who, writeOk) =>
      if who in d.copies then Saved(d, d.copies[who].(status := Paused), writeOk) else d
    case Resume(who, now, writeOk) =>
      if who in d.copies && SlotBehind(p, d.copies[who].expr, now).Some? then
        Saved(d, d.copies[who].(status := Active, nextRunAt := SlotBehind(p, d.copies[who].expr, now).value), writeOk)
      else d
    case Reconcile(who, now, writeOk) =>
      if Overdue(d, who, now) && SlotBehind(p, d.copies[who].expr, now).Some? then
        Saved(d, d.copies[who].(nextRunAt := SlotBehind(p, d.copies[who].expr, now).value), writeOk)
      else d
    case Remove => d.(job := None)
  }

  predicate Overdue(d: Desk, who: nat, now: int) {
    who in d.copies && d.copies[who].status.Active? && d.copies[who].nextRunAt < Truncated(now)
  }

  ghost function Run(p: Schedules, d: Desk, events: seq<Event>): Desk
    requires AllEnd(p)
  {
    if events == [] then d else Stepped(p, Run(p, d, events[..|events| - 1]), events[|events| - 1])
  }

  /** A run not written back was started on a copy that was due. */
  predicate Kept(d: Desk) {
    forall who :: who in d.running ==> who in d.copies && d.copies[who].status.Active?
  }

  /** No instant that was claimed can be claimed again. */
  predicate Shut(d: Desk) {
    forall i :: 0 <= i < |d.wins| && d.job.Some? ==> !Claimable(d.job.value, d.wins[i].fired)
  }

  predicate Reaches(wins: seq<Win>, slot: int) {
    exists i :: 0 <= i < |wins| && wins[i].fired >= slot
  }

  /** The event writes an active job whose slot is one that a claim was made at or behind: a run is
      written back that another claim has overtaken, or a clock is behind. */
  ghost predicate Opens(p: Schedules, d: Desk, e: Event)
    requires AllEnd(p)
  {
    match e
    case WriteBack(who, readOk, writeOk) =>
      && d.job.Some? && writeOk && who in d.running && who in d.copies
      && (d.job.value.status.Paused? ==> !readOk)
      && var slot := SlotAfter(p, d.copies[who].expr, d.running[who]);
         slot.Some? && Reaches(d.wins, slot.value)
    case Resume(who, now, writeOk) =>
      && d.job.Some? && writeOk && who in d.copies
      && var slot := SlotBehind(p, d.copies[who].expr, now);
         slot.Some? && Reaches(d.wins, slot.value)
    case Reconcile(who, now, writeOk) =>
      && d.job.Some? && writeOk && Overdue(d, who, now)
      && var slot := SlotBehind(p, d.copies[who].expr, now);
         slot.Some? && Reaches(d.wins, slot.value)
    case _ => false
  }

  /** Exactly which event lets an instant be claimed that was claimed before. */
  lemma StepOpensIff(p: Schedules, d: Desk, e: Event)
    requires AllEnd(p) && Kept(d) && Shut(d)
    ensures Kept(Stepped(p, d, e))
    ensures Shut(Stepped(p, d, e)) <==> !Opens(p, d, e)
  {
    hide SlotBehind, AllEnd;
    match e {
      case Claim(who, fired, readOk, writeOk) =>
        if Wins(d, who, fired, readOk, writeOk) && SlotAfter(p, d.job.value.expr, fired).Some? {
          SlotIsLater(p, d.job.value.expr, fired);
        }
      case _ =>
    }
  }

  /** Every claim takes a slot that has come, and later than every claim before it was made. */
  predicate HandedOutOnce(wins: seq<Win>) {
    && (forall i :: 0 <= i < |wins| ==> wins[i].slot <= wins[i].fired)
    && (forall i, j :: 0 <= i < j < |wins| ==> wins[i].fired < wins[j].slot)
  }

  lemma StepHandsOut(p: Schedules, d: Desk, e: Event)
    requires AllEnd(p) && Shut(d) && HandedOutOnce(d.wins)
    ensures HandedOutOnce(Stepped(p, d, e).wins)
  {
    hide SlotBehind, AllEnd;
  }

  ghost predicate NothingOpens(p: Schedules, d: Desk, events: seq<Event>)
    requires AllEnd(p)
  {
    forall i :: 0 <= i < |events| ==> !Opens(p, Run(p, d, events[..i]), events[i])
  }

  ghost predicate AlwaysShut(p: Schedules, d: Desk, events: seq<Event>)
    requires AllEnd(p)
  {
    forall i :: 0 <= i <= |events| ==> Shut(Run(p, d, events[..i]))
  }

  lemma NothingOpensLonger(p: Schedules, d: Desk, before: seq<Event>, e: Event)
    requires AllEnd(p)
    ensures NothingOpens(p, d, before + [e]) <==> NothingOpens(p, d, before) && !Opens(p, Run(p, d, before), e)
  {
    hide Opens, Run, AllEnd;
    var events := before + [e];
    forall i | 0 <= i <= |before| ensures events[..i] == before[..i] {
    }
    assert before[..|before|] == before && events[|before|] == e;
    assert forall i :: 0 <= i < |before| ==> events[i] == before[i];
    if NothingOpens(p, d, events) {
      assert !Opens(p, Run(p, d, events[..|before|]), events[|before|]);
      forall i | 0 <= i < |before| ensures !Opens(p, Run(p, d, before[..i]), before[i]) {
        assert !Opens(p, Run(p, d, events[..i]), events[i]);
      }
    }
  }

  lemma AlwaysShutLonger(p: Schedules, d: Desk, before: seq<Event>, e: Event)
    requires AllEnd(p)
    ensures AlwaysShut(p, d, before + [e]) <==> AlwaysShut(p, d, before) && Shut(Run(p, d, before + [e]))
  {
    hide Shut, Run, AllEnd;
    var events := before + [e];
    forall i | 0 <= i <= |before| ensures events[..i] == before[..i] {
    }
    assert events[..|events|] == events;
    if AlwaysShut(p, d, events) {
      assert Shut(Run(p, d, events[..|events|]));
      forall i | 0 <= i <= |before| ensures Shut(Run(p, d, before[..i])) {
        assert Shut(Run(p, d, events[..i]));
      }
    }
  }

  /** Over any run: no claimed instant can ever be claimed again exactly if no event opens one; and
      then no slot is given away twice. */
  lemma {:induction false} SlotsNeverRepeat(p: Schedules, job: Job, events: seq<Event>)
    requires AllEnd(p)
    ensures AlwaysShut(p, Start(job), events) <==> NothingOpens(p, Start(job), events)
    ensures NothingOpens(p, Start(job), events) ==> HandedOutOnce(Run(p, Start(job), events).wins)
    ensures Kept(Run(p, Start(job), events))
    decreases |events|
  {
    hide Shut, Opens, Stepped, AllEnd, AlwaysShut, NothingOpens, Kept, HandedOutOnce;
    var d := Start(job);
    if events == [] {
      StartsShut(p, job);
    } else {
      var n := |events| - 1;
      SlotsNeverRepeat(p, job, events[..n]);
      assert events == events[..n] + [events[n]];
      NothingOpensLonger(p, d, events[..n], events[n]);
      AlwaysShutLonger(p, d, events[..n], events[n]);
      var before := Run(p, d, events[..n]);
      StillKept(p, before, events[n]);
      if AlwaysShut(p, d, events[..n]) {
        ShutAtEnd(p, d, events[..n]);
        StepOpensIff(p, before, events[n]);
        StepHandsOut(p, before, events[n]);
      }
    }
  }

  lemma StartsShut(p: Schedules, job: Job)
    requires AllEnd(p)
    ensures AlwaysShut(p, Start(job), []) && NothingOpens(p, Start(job), [])
    ensures HandedOutOnce(Start(job).wins) && Kept(Start(job))
  {
  }

  lemma StillKept(p: Schedules, d: Desk, e: Event)
    requires AllEnd(p) && Kept(d)
    ensures Kept(Stepped(p, d, e))
  {
    hide SlotBehind, AllEnd;
  }

  lemma ShutAtEnd(p: Schedules, d: Desk, events: seq<Event>)
    requires AllEnd(p) && AlwaysShut(p, d, events)
    ensures Shut(Run(p, d, events))
  {
    hide Shut, Run, AllEnd;
    assert events[..|events|] == events;
  }

  /** A run is written back in turn: no claim was won since its own. Resuming and reconciling read a
      clock that is not behind the last claim. */
  predicate InTurn(d: Desk, e: Event) {
    match e
    case WriteBack(who, _, _) =>
      who in d.running ==> d.wins != [] && d.wins[|d.wins| - 1].fired == d.running[who]
    case Resume(_, now, _) => d.wins != [] ==> d.wins[|d.wins| - 1].fired <= now
    case Reconcile(_, now, _) => d.wins != [] ==> d.wins[|d.wins| - 1].fired <= now
    case _ => true
  }

  /** What is done in turn opens nothing. */
  lemma InTurnOpensNothing(p: Schedules, d: Desk, e: Event)
    requires AllEnd(p) && HandedOutOnce(d.wins) && InTurn(d, e)
    ensures !Opens(p, d, e)
  {
    hide SlotBehind, AllEnd, Truncated;
    match e {
      case WriteBack(who, _, _) =>
        if Opens(p, d, e) {
          SlotIsLater(p, d.copies[who].expr, d.running[who]);
        }
      case Resume(who, now, _) =>
        if Opens(p, d, e) {
          SlotBehindIsLater(p, d.copies[who].expr, now);
        }
      case Reconcile(who, now, _) =>
        if Opens(p, d, e) {
          SlotBehindIsLater(p, d.copies[who].expr, now);
        }
      case _ =>
    }
  }

  ghost predicate AllInTurn(p: Schedules, d: Desk, events: seq<Event>)
    requires AllEnd(p)
  {
    forall i :: 0 <= i < |events| ==> InTurn(Run(p, d, events[..i]), events[i])
  }

  /** Where runs do not overlap and clocks do not go back no slot is given away twice. */
  lemma {:induction false} InTurnNeverRepeats(p: Schedules, job: Job, events: seq<Event>)
    requires AllEnd(p) && AllInTurn(p, Start(job), events)
    ensures NothingOpens(p, Start(job), events) && HandedOutOnce(Run(p, Start(job), events).wins)
    decreases |events|
  {
    hide Shut, Opens, Stepped, AllEnd, NothingOpens, Kept, HandedOutOnce, InTurn;
    var d := Start(job);
    if events == [] {
      StartsShut(p, job);
    } else {
      var n := |events| - 1;
      forall i | 0 <= i < n ensures InTurn(Run(p, d, events[..n][..i]), events[..n][i]) {
        assert events[..n][..i] == events[..i];
      }
      InTurnNeverRepeats(p, job, events[..n]);
      InTurnOpensNothing(p, Run(p, d, events[..n]), events[n]);
      assert events == events[..n] + [events[n]];
      NothingOpensLonger(p, d, events[..n], events[n]);
      SlotsNeverRepeat(p, job, events);
    }
  }

  /** Two runs that overlap, the one that claimed first written back last. */
  function Overlapping(first: int, second: int): seq<Event> {
    [Look(1), Claim(1, first, true, true), Look(2), Claim(2, second, true, true), WriteBack(1, true, true)]
  }

  /** The write-back then opens the instant of the newer claim, unless that claim paused the job. */
  lemma OverlapReopensSlotIff(p: Schedules, j: Job, first: int, second: int)
    requires AllEnd(p) && Claimable(j, first) && Claimable(Claimed(p, j, first), second)
    ensures Shut(Run(p, Start(j), Overlapping(first, second))) <==> SlotAfter(p, j.expr, second).None?
  {
    hide SlotBehind, AllEnd, Truncated;
    var events := Overlapping(first, second);
    assert events[..5] == events && events[..4][..3] == events[..3] && events[..3][..2] == events[..2];
    assert events[..2][..1] == events[..1] && events[..1][..0] == [];
    var job1 := Claimed(p, j, first);
    var job2 := Claimed(p, job1, second);
    var w := [Win(1, j.nextRunAt, first), Win(2, job1.nextRunAt, second)];
    assert Run(p, Start(j), events[..1]) == Desk(Some(j), map[1 := j], map[], []);
    assert Run(p, Start(j), events[..2]) == Desk(Some(job1), map[1 := j], map[1 := first], w[..1]);
    assert Run(p, Start(j), events[..3]) == Desk(Some(job1), map[1 := j, 2 := job1], map[1 := first], w[..1]);
    assert Run(p, Start(j), events[..4])
        == Desk(Some(job2), map[1 := j, 2 := job1], map[1 := first, 2 := second], w);
    var end := Run(p, Start(j), events);
    assert end.job == Some(Persisted(p, j, Some(job2), first)) && end.wins == w;
    if SlotAfter(p, j.expr, second).Some? {
      assert Claimable(end.job.value, w[1].fired);
    }
  }

  /** One event at the store. */
  method Do(p: Schedules, store: Store, copies: map<nat, Job>, running: map<nat, int>, wins: seq<Win>, e: Event)
    returns (copies': map<nat, Job>, running': map<nat, int>, wins': seq<Win>)
    requires AllEnd(p)
    modifies store
    ensures Desk(store.job, copies', running', wins') == Stepped(p, Desk(old(store.job), copies, running, wins), e)
  {
    hide SlotBehind, AllEnd;
    copies', running', wins' := copies, running, wins;
    match e {
      case Look(who) =>
        if store.job.Some? && who !in running {
          copies' := copies[who := store.job.value];
        }
      case Claim(who, fired, readOk, writeOk) =>
        if who in copies && who !in running && Claimable(copies[who], fired) {
          var before := store.job;
          var claimed := store.ClaimFire(p, fired, readOk, writeOk);
          if claimed {
            running' := running[who := fired];
            wins' := wins + [Win(who, before.value.nextRunAt, fired)];
          }
        }
      case WriteBack(who, readOk, writeOk) =>
        if who in running && who in copies {
          store.Persist(p, copies[who], running[who], readOk, writeOk);
          running' := running - {who};
        }
      case Pause(who, writeOk) =>
        if who in copies {
          store.Update(copies[who].(status := Paused), writeOk);
        }
      case Resume(who, now, writeOk) =>
        if who in copies {
          var slot := FindSlot(p, copies[who].expr, now);
          if slot.Some? {
            store.Update(copies[who].(status := Active, nextRunAt := slot.value), writeOk);
          }
        }
      case Reconcile(who, now, writeOk) =>
        if who in copies && copies[who].status.Active? && copies[who].nextRunAt < Truncated(now) {
          var slot := FindSlot(p, copies[who].expr, now);
          if slot.Some? {
            store.Update(copies[who].(nextRunAt := slot.value), writeOk);
          }
        }
      case Remove =>
        store.Remove();
    }
  }

  /** Any number of schedulers and commands at one job, step by step in any order, on stale copies
      and with any reads and writes failing. */
  method Compete(p: Schedules, job: Job, events: seq<Event>) returns (wins: seq<Win>, end: Option<Job>)
    requires AllEnd(p)
    ensures wins == Run(p, Start(job), events).wins && end == Run(p, Start(job), events).job
    ensures NothingOpens(p, Start(job), events) ==>
      HandedOutOnce(wins) && (end.Some? ==> forall i :: 0 <= i < |wins| ==> !Claimable(end.value, wins[i].fired))
  {
    hide Stepped, NothingOpens, AlwaysShut, AllEnd;
    var store := new Store(Some(job));
    var copies: map<nat, Job>, running: map<nat, int> := map[], map[];
    wins := [];
    for i := 0 to |events|
      invariant fresh(store)
      invariant Desk(store.job, copies, running, wins) == Run(p, Start(job), events[..i])
    {
      assert events[..i + 1][..i] == events[..i];
      copies, running, wins := Do(p, store, copies, running, wins, events[i]);
    }
    end := store.job;
    assert events[..|events|] == events;
    SlotsNeverRepeat(p, job, events);
    if NothingOpens(p, Start(job), events) {
      ShutAtEnd(p, Start(job), events);
    }
  }
}
