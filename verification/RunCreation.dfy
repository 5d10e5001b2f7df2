/** Creating runs: API requests and scheduler ticks, interleaved step by step over one database, one
    set of locks and one queue. */
module RunCreation {
  import opened Wrappers

  type UserId = nat
  type ProfileId = nat
  type RunId = nat
  type Pid = nat

  const LEASE_MS: nat := 30000

  /** An idempotency key: the scheduler's "sched:profile:date", or any other text. */
  datatype Key = Scheduled(profile: ProfileId, date: nat) | Text(text: string)

  datatype RunRow = RunRow(user: UserId, profile: ProfileId, scheduled: bool, key: Key)

  /** A due profile of a tick, with its owner and its local date. */
  datatype Due = Due(profile: ProfileId, user: UserId, date: nat)

  datatype Lease = Lease(owner: Pid, until: int)

  datatype Result = NotFound | Conflict | Existing(run: RunId) | Created(run: RunId) | KeyTaken

  /** Where a creator stands. A tick is at profile `i` of its list. */
  datatype Proc =
    | Asked(user: UserId, profile: ProfileId, key: Key)
    | Missing(user: UserId, profile: ProfileId, key: Key)
    | Flushed(row: RunRow)
    | Stored(run: RunId)
    | Answered(result: Result)
    | Tick(due: seq<Due>, i: nat, phase: Phase, count: nat)
    | Ticked(count: nat)
    | Aborted

  datatype Phase = Locking | Locked | Unseen | Inserted | Committed(run: RunId) | Releasing

  /** `runs` holds the committed rows, `reserved` the rows flushed but not yet committed. */
  datatype World = World(owners: map<ProfileId, UserId>, runs: seq<RunRow>, reserved: map<Pid, RunRow>,
                         queue: seq<RunId>,
                         locks: map<ProfileId, Lease>, procs: map<Pid, Proc>, now: int)

  datatype Act =
    | Request(pid: Pid, user: UserId, profile: ProfileId, key: Key)
    | Fire(pid: Pid, due: seq<Due>)
    | Go(pid: Pid)
    | Die(pid: Pid)
    | Wait(ms: nat)

  function KeyOf(d: Due): Key { Scheduled(d.profile, d.date) }

  function RowFor(d: Due): RunRow { RunRow(d.user, d.profile, true, KeyOf(d)) }

  function Lookup(runs: seq<RunRow>, key: Key): (id: Option<RunId>)
    ensures id.Some? ==> id.value < |runs| && runs[id.value].key == key
    ensures id.None? ==> forall i :: 0 <= i < |runs| ==> runs[i].key != key
  {
    if runs == [] then None
    else if runs[|runs| - 1].key == key then Some(|runs| - 1)
    else Lookup(runs[..|runs| - 1], key)
  }

  /** There is a run for the profile's schedule on that local date. */
  predicate HasRun(runs: seq<RunRow>, profile: ProfileId, date: nat) {
    exists i :: 0 <= i < |runs| && runs[i].key == Scheduled(profile, date)
  }

  lemma FoundExactly(runs: seq<RunRow>, d: Due)
    ensures Lookup(runs, KeyOf(d)).Some? <==> HasRun(runs, d.profile, d.date)
  {}

  /** Another transaction holds the key: inserting it waits. */
  predicate Held(w: World, key: Key) { exists pid :: pid in w.reserved && w.reserved[pid].key == key }

  predicate LockFree(w: World, profile: ProfileId) { profile !in w.locks || w.locks[profile].until <= w.now }

  // ----- one step of one creator -----

  /** Insert the row if the unique constraint allows it, wait while it is undecided. */
  function Flush(w: World, pid: Pid, row: RunRow, next: Proc, taken: Proc): World {
    if Lookup(w.runs, row.key).Some? then w.(procs := w.procs[pid := taken])
    else if Held(w, row.key) then w
    else w.(reserved := w.reserved[pid := row], procs := w.procs[pid := next])
  }

  function Commit(w: World, pid: Pid, row: RunRow, next: Proc): World {
    w.(runs := w.runs + [row], reserved := w.reserved - {pid}, procs := w.procs[pid := next])
  }

  function Enqueue(w: World, pid: Pid, run: RunId, next: Proc): World {
    w.(queue := w.queue + [run], procs := w.procs[pid := next])
  }

  function Release(w: World, pid: Pid, profile: ProfileId, next: Proc): World {
    var locks := if profile in w.locks && w.locks[profile].owner == pid then w.locks - {profile} else w.locks;
    w.(locks := locks, procs := w.procs[pid := next])
  }

  function GoRequest(w: World, pid: Pid): World
    requires pid in w.procs
  {
    match w.procs[pid]
    case Asked(user, profile, key) =>
      if profile !in w.owners || w.owners[profile] != user then w.(procs := w.procs[pid := Answered(NotFound)])
      else
        (match Lookup(w.runs, key)
         case Some(id) =>
           w.(procs := w.procs[pid := Answered(if w.runs[id].user != user then Conflict else Existing(id))])
         case None => w.(procs := w.procs[pid := Missing(user, profile, key)]))
    case Missing(user, profile, key) =>
      var row := RunRow(user, profile, false, key);
      Flush(w, pid, row, Flushed(row), Answered(KeyTaken))
    case Flushed(row) => Commit(w, pid, row, Stored(|w.runs|))
    case Stored(run) => Enqueue(w, pid, run, Answered(Created(run)))
    case _ => w
  }

  function GoTick(w: World, pid: Pid): World
    requires pid in w.procs && w.procs[pid].Tick?
  {
    var p := w.procs[pid];
    if p.i >= |p.due| then w.(procs := w.procs[pid := Ticked(p.count)])
    else
      var d := p.due[p.i];
      match p.phase
      case Locking =>
        if LockFree(w, d.profile) then
          w.(locks := w.locks[d.profile := Lease(pid, w.now + LEASE_MS)], procs := w.procs[pid := p.(phase := Locked)])
        else w.(procs := w.procs[pid := p.(i := p.i + 1)])
      case Locked =>
        w.(procs := w.procs[pid := p.(phase := if Lookup(w.runs, KeyOf(d)).Some? then Releasing else Unseen)])
      case Unseen =>
        if Lookup(w.runs, KeyOf(d)).Some? then Release(w, pid, d.profile, Aborted)
        else Flush(w, pid, RowFor(d), p.(phase := Inserted), Aborted)
      case Inserted => Commit(w, pid, RowFor(d), p.(phase := Committed(|w.runs|)))
      case Committed(run) => Enqueue(w, pid, run, p.(phase := Releasing, count := p.count + 1))
      case Releasing => Release(w, pid, d.profile, p.(i := p.i + 1, phase := Locking))
  }

  function Step(w: World, a: Act): World {
    match a
    case Request(pid, user, profile, key) =>
      if pid in w.procs then w else w.(procs := w.procs[pid := Asked(user, profile, key)])
    case Fire(pid, due) => if pid in w.procs then w else w.(procs := w.procs[pid := Tick(due, 0, Locking, 0)])
    case Go(pid) =>
      if pid !in w.procs then w else if w.procs[pid].Tick? then GoTick(w, pid) else GoRequest(w, pid)
    case Die(pid) =>
      if pid !in w.procs then w else w.(reserved := w.reserved - {pid}, procs := w.procs[pid := Aborted])
    case Wait(ms) => w.(now := w.now + ms)
  }

  function Steps(w: World, acts: seq<Act>): World {
    if acts == [] then w else Step(Steps(w, acts[..|acts| - 1]), acts[|acts| - 1])
  }

  // ----- one run for each key, one message for each run -----

  /** The row a creator has flushed, and the run it has committed but not yet enqueued. */
  function FlushedRow(p: Proc): Option<RunRow> {
    match p
    case Flushed(row) => Some(row)
    case Tick(due, i, phase, _) => if i < |due| && phase.Inserted? then Some(RowFor(due[i])) else None
    case _ => None
  }

  function Unsent(p: Proc): Option<RunId> {
    match p
    case Stored(run) => Some(run)
    case Tick(due, i, phase, _) => if i < |due| && phase.Committed? then Some(phase.run) else None
    case _ => None
  }

  ghost predicate UniqueKeys(runs: seq<RunRow>) {
    forall i, j :: 0 <= i < j < |runs| ==> runs[i].key != runs[j].key
  }

  /** Committed keys are unique, and no row about to be committed has one of them or another's. */
  ghost predicate Rows(runs: seq<RunRow>, reserved: map<Pid, RunRow>) {
    && UniqueKeys(runs)
    && (forall pid, i :: pid in reserved && 0 <= i < |runs| ==> runs[i].key != reserved[pid].key)
    && (forall p, q :: p in reserved && q in reserved && p != q ==> reserved[p].key != reserved[q].key)
  }

  /** The flushed rows are those of the creators that stand between flush and commit. */
  ghost predicate Linked(reserved: map<Pid, RunRow>, procs: map<Pid, Proc>) {
    && (forall pid :: pid in reserved ==> pid in procs && FlushedRow(procs[pid]) == Some(reserved[pid]))
    && (forall pid :: pid in procs && FlushedRow(procs[pid]).Some? ==> pid in reserved)
  }

  ghost predicate Queued(queue: seq<RunId>, n: nat) {
    && (forall k :: 0 <= k < |queue| ==> queue[k] < n)
    && (forall k, l :: 0 <= k < l < |queue| ==> queue[k] != queue[l])
  }

  /** A run not yet enqueued is in no message and belongs to one creator. */
  ghost predicate Pending(procs: map<Pid, Proc>, queue: seq<RunId>, n: nat) {
    && (forall pid :: pid in procs && Unsent(procs[pid]).Some? ==>
          Unsent(procs[pid]).value < n && Unsent(procs[pid]).value !in queue)
    && (forall p, q :: p in procs && q in procs && p != q && Unsent(procs[p]).Some? ==>
         Unsent(procs[p]) != Unsent(procs[q]))
  }

  ghost predicate Inv(w: World) {
    && Rows(w.runs, w.reserved) && Linked(w.reserved, w.procs)
    && Queued(w.queue, |w.runs|) && Pending(w.procs, w.queue, |w.runs|)
  }

  lemma FlushRows(runs: seq<RunRow>, reserved: map<Pid, RunRow>, pid: Pid, row: RunRow)
    requires Rows(runs, reserved) && Lookup(runs, row.key).None?
    requires forall p :: p in reserved ==> reserved[p].key != row.key
    ensures Rows(runs, reserved[pid := row])
  {}

  lemma FlushInv(w: World, pid: Pid, row: RunRow, next: Proc, taken: Proc)
    requires Inv(w) && pid in w.procs && FlushedRow(w.procs[pid]).None? && Unsent(w.procs[pid]).None?
    requires FlushedRow(next) == Some(row) && FlushedRow(taken).None? && Unsent(next).None? && Unsent(taken).None?
    ensures Inv(Flush(w, pid, row, next, taken))
  {
    if Lookup(w.runs, row.key).None? && !Held(w, row.key) {
      FlushRows(w.runs, w.reserved, pid, row);
    }
  }

  lemma CommitRows(runs: seq<RunRow>, reserved: map<Pid, RunRow>, pid: Pid)
    requires Rows(runs, reserved) && pid in reserved
    ensures Rows(runs + [reserved[pid]], reserved - {pid})
  {}

  lemma CommitInv(w: World, pid: Pid, row: RunRow, next: Proc)
    requires Inv(w) && pid in w.procs && FlushedRow(w.procs[pid]) == Some(row) && Unsent(w.procs[pid]).None?
    requires FlushedRow(next).None? && Unsent(next) == Some(|w.runs|)
    ensures Inv(Commit(w, pid, row, next))
  {
    CommitRows(w.runs, w.reserved, pid);
  }

  lemma EnqueueInv(w: World, pid: Pid, run: RunId, next: Proc)
    requires Inv(w) && pid in w.procs && FlushedRow(w.procs[pid]).None? && Unsent(w.procs[pid]) == Some(run)
    requires FlushedRow(next).None? && Unsent(next).None?
    ensures Inv(Enqueue(w, pid, run, next))
  {}

  /** Moving on without touching rows or queue. */
  lemma QuietInv(w: World, pid: Pid, next: Proc, locks: map<ProfileId, Lease>)
    requires Inv(w) && (pid in w.procs ==> FlushedRow(w.procs[pid]).None?)
    requires FlushedRow(next).None? && Unsent(next).None?
    ensures Inv(w.(locks := locks, procs := w.procs[pid := next]))
  {}

  lemma TickUnseenInv(w: World, pid: Pid)
    requires Inv(w) && pid in w.procs && w.procs[pid].Tick? && w.procs[pid].i < |w.procs[pid].due|
    requires w.procs[pid].phase.Unseen?
    ensures Inv(GoTick(w, pid))
  {
    var p := w.procs[pid];
    var d := p.due[p.i];
    if Lookup(w.runs, KeyOf(d)).Some? {
      QuietInv(w, pid, Aborted, Release(w, pid, d.profile, Aborted).locks);
    } else {
      FlushInv(w, pid, RowFor(d), p.(phase := Inserted), Aborted);
    }
  }

  lemma TickInsertedInv(w: World, pid: Pid)
    requires Inv(w) && pid in w.procs && w.procs[pid].Tick? && w.procs[pid].i < |w.procs[pid].due|
    requires w.procs[pid].phase.Inserted?
    ensures Inv(GoTick(w, pid))
  {
    var p := w.procs[pid];
    CommitInv(w, pid, RowFor(p.due[p.i]), p.(phase := Committed(|w.runs|)));
  }

  lemma TickCommittedInv(w: World, pid: Pid, next: Proc)
    requires Inv(w) && pid in w.procs && w.procs[pid].Tick? && w.procs[pid].i < |w.procs[pid].due|
    requires w.procs[pid].phase.Committed? && next == w.procs[pid].(phase := Releasing, count := w.procs[pid].count + 1)
    ensures Inv(Enqueue(w, pid, w.procs[pid].phase.run, next))
  {
    SentLeavesNothing(w.procs[pid], next);
    EnqueueInv(w, pid, w.procs[pid].phase.run, next);
  }

  lemma SentLeavesNothing(p: Proc, next: Proc)
    requires p.Tick? && p.i < |p.due| && p.phase.Committed? && next == p.(phase := Releasing, count := p.count + 1)
    ensures FlushedRow(p).None? && Unsent(p) == Some(p.phase.run) && FlushedRow(next).None? && Unsent(next).None?
  {}

  lemma CommittedGoes(w: World, pid: Pid)
    requires pid in w.procs && w.procs[pid].Tick? && w.procs[pid].i < |w.procs[pid].due| &&
               w.procs[pid].phase.Committed?
    ensures var p := w.procs[pid];
            GoTick(w, pid) == Enqueue(w, pid, p.phase.run, p.(phase := Releasing, count := p.count + 1))
  {}

  /** The other steps of a tick move it on and touch nothing but its lock. */
  lemma TickQuiet(w: World, pid: Pid)
    requires pid in w.procs && w.procs[pid].Tick?
    requires var p := w.procs[pid]; p.i >= |p.due| || p.phase.Locking? || p.phase.Locked? || p.phase.Releasing?
    ensures var v := GoTick(w, pid);
            && pid in v.procs && v == w.(locks := v.locks, procs := w.procs[pid := v.procs[pid]])
            && FlushedRow(v.procs[pid]).None? && Unsent(v.procs[pid]).None? && FlushedRow(w.procs[pid]).None?
  {}

  lemma TickInv(w: World, pid: Pid)
    requires Inv(w) && pid in w.procs && w.procs[pid].Tick?
    ensures Inv(GoTick(w, pid))
  {
    var p := w.procs[pid];
    if p.i >= |p.due| || p.phase.Locking? || p.phase.Locked? || p.phase.Releasing? {
      TickQuiet(w, pid);
      QuietInv(w, pid, GoTick(w, pid).procs[pid], GoTick(w, pid).locks);
    } else if p.phase.Unseen? {
      TickUnseenInv(w, pid);
    } else if p.phase.Inserted? {
      TickInsertedInv(w, pid);
    } else {
      CommittedGoes(w, pid);
      TickCommittedInv(w, pid, p.(phase := Releasing, count := p.count + 1));
    }
  }

  lemma RequestInv(w: World, pid: Pid)
    requires Inv(w) && pid in w.procs && !w.procs[pid].Tick?
    ensures Inv(GoRequest(w, pid))
  {
    match w.procs[pid] {
      case Asked(user, profile, key) => QuietInv(w, pid, GoRequest(w, pid).procs[pid], w.locks);
      case Missing(user, profile, key) =>
        var row := RunRow(user, profile, false, key);
        FlushInv(w, pid, row, Flushed(row), Answered(KeyTaken));
      case Flushed(row) => CommitInv(w, pid, row, Stored(|w.runs|));
      case Stored(run) => EnqueueInv(w, pid, run, Answered(Created(run)));
      case _ =>
    }
  }

  lemma DieInv(w: World, pid: Pid)
    requires Inv(w) && pid in w.procs
    ensures Inv(w.(reserved := w.reserved - {pid}, procs := w.procs[pid := Aborted]))
  {}

  lemma StepInv(w: World, a: Act)
    requires Inv(w)
    ensures Inv(Step(w, a))
  {
    match a {
      case Request(pid, user, profile, key) =>
        if pid !in w.procs {
          QuietInv(w, pid, Asked(user, profile, key), w.locks);
        }
      case Fire(pid, due) =>
        if pid !in w.procs {
          QuietInv(w, pid, Tick(due, 0, Locking, 0), w.locks);
        }
      case Go(pid) =>
        if pid in w.procs {
          if w.procs[pid].Tick? {
            TickInv(w, pid);
          } else {
            RequestInv(w, pid);
          }
        }
      case Die(pid) =>
        if pid in w.procs {
          DieInv(w, pid);
        }
      case Wait(_) =>
    }
  }

  function Start(owners: map<ProfileId, UserId>): World { World(owners, [], map[], [], map[], map[], 0) }

  lemma {:induction false} RunInv(owners: map<ProfileId, UserId>, acts: seq<Act>)
    ensures Inv(Steps(Start(owners), acts))
  {
    if acts != [] {
      RunInv(owners, acts[..|acts| - 1]);
      StepInv(Steps(Start(owners), acts[..|acts| - 1]), acts[|acts| - 1]);
    }
  }

  /** Under every interleaving, with creators dying anywhere: one run for each key, every queued
      message names a committed run, and no run is queued twice. */
  lemma CreationSafe(owners: map<ProfileId, UserId>, acts: seq<Act>)
    ensures var w := Steps(Start(owners), acts);
            && UniqueKeys(w.runs)
            && (forall k :: 0 <= k < |w.queue| ==> w.queue[k] < |w.runs|)
            && (forall k, l :: 0 <= k < l < |w.queue| ==> w.queue[k] != w.queue[l])
  {
    RunInv(owners, acts);
  }

  /** Hence at most one scheduled run for a profile and local date. */
  lemma OneScheduledRunADay(owners: map<ProfileId, UserId>, acts: seq<Act>, profile: ProfileId, date: nat, i: RunId,
                            j: RunId)
    requires var w := Steps(Start(owners), acts);
             && i < |w.runs| && j < |w.runs|
             && w.runs[i].key == Scheduled(profile, date) && w.runs[j].key == Scheduled(profile, date)
    ensures i == j
  {
    RunInv(owners, acts);
  }

  // ----- and a run for each due profile -----

  /** A tick past its insert. */
  predicate Past(p: Proc) { p.Tick? && p.i < |p.due| && (p.phase.Committed? || p.phase.Releasing?) }

  ghost predicate Served(w: World, pid: Pid) {
    pid in w.procs && Past(w.procs[pid]) ==>
      var d := w.procs[pid].due[w.procs[pid].i]; HasRun(w.runs, d.profile, d.date)
  }

  lemma TickServes(w: World, pid: Pid)
    requires pid in w.procs && w.procs[pid].Tick? && Served(w, pid)
    ensures Served(GoTick(w, pid), pid)
  {
    var p, v := w.procs[pid], GoTick(w, pid);
    if p.i < |p.due| {
      var d := p.due[p.i];
      FoundExactly(w.runs, d);
      if p.phase.Inserted? {
        assert v.runs[|w.runs|].key == Scheduled(d.profile, d.date);
      }
    }
  }

  lemma RequestServes(w: World, pid: Pid, other: Pid)
    requires pid in w.procs && !w.procs[pid].Tick?
    ensures Served(GoRequest(w, pid), pid) && SameProc(w, GoRequest(w, pid), pid, other)
  {}

  lemma RequestKeepsRuns(w: World, pid: Pid)
    requires pid in w.procs && !w.procs[pid].Tick?
    ensures w.runs <= GoRequest(w, pid).runs
  {}

  predicate SameProc(w: World, v: World, pid: Pid, other: Pid) {
    other != pid ==>
      (other in v.procs <==> other in w.procs) && (other in w.procs ==> v.procs[other] == w.procs[other])
  }

  lemma StepServes(w: World, a: Act, pid: Pid)
    requires Served(w, pid)
    ensures Served(Step(w, a), pid)
  {
    if a.Go? && a.pid in w.procs {
      if w.procs[a.pid].Tick? {
        if a.pid == pid {
          TickServes(w, pid);
        } else {
          TickOther(w, a.pid, pid);
          TickKeepsRuns(w, a.pid);
        }
      } else {
        RequestServes(w, a.pid, pid);
        RequestKeepsRuns(w, a.pid);
      }
      if a.pid != pid && pid in w.procs && Past(w.procs[pid]) {
        var d := w.procs[pid].due[w.procs[pid].i];
        HasRunStays(w.runs, Step(w, a).runs, d.profile, d.date);
      }
    }
  }

  lemma TickOther(w: World, pid: Pid, other: Pid)
    requires pid in w.procs && w.procs[pid].Tick?
    ensures SameProc(w, GoTick(w, pid), pid, other)
  {}

  lemma TickKeepsRuns(w: World, pid: Pid)
    requires pid in w.procs && w.procs[pid].Tick?
    ensures w.runs <= GoTick(w, pid).runs
  {}

  /** Under every interleaving a tick that comes to release the lock of a due profile leaves it with a run for
      its local date, its own or one that was there. */
  lemma {:induction false} EveryTickServes(owners: map<ProfileId, UserId>, acts: seq<Act>, pid: Pid)
    ensures Served(Steps(Start(owners), acts), pid)
  {
    if acts != [] {
      EveryTickServes(owners, acts[..|acts| - 1], pid);
      StepServes(Steps(Start(owners), acts[..|acts| - 1]), acts[|acts| - 1], pid);
    }
  }

  // ----- the lock -----

  /** A tick between taking and releasing the lock of a profile. */
  predicate Critical(p: Proc, profile: ProfileId) {
    p.Tick? && p.i < |p.due| && p.due[p.i].profile == profile && !p.phase.Locking?
  }

  /** The key a tick has found unused. */
  predicate Claims(p: Proc, key: Key) {
    p.Tick? && p.i < |p.due| && (p.phase.Unseen? || p.phase.Inserted?) && KeyOf(p.due[p.i]) == key
  }

  /** Of one profile: the lease outlives the critical section, and its schedule keys belong to the scheduler. */
  predicate Timely(own: ProfileId, w: World, a: Act) {
    match a
    case Request(_, _, _, key) => !ScheduleOf(own, key)
    case Wait(ms) =>
      (exists pid | pid in w.procs :: Critical(w.procs[pid], own)) ==> own in w.locks && w.now + ms < w.locks[own].until
    case _ => true
  }

  predicate ScheduleOf(own: ProfileId, key: Key) { key.Scheduled? && key.profile == own }

  ghost predicate TimelyRun(own: ProfileId, w: World, acts: seq<Act>) {
    acts == [] || (TimelyRun(own, w, acts[..|acts| - 1]) && Timely(own, Steps(w, acts[..|acts| - 1]), acts[|acts| - 1]))
  }

  ghost predicate ApiKey(own: ProfileId, p: Proc) {
    match p
    case Asked(_, _, key) => !ScheduleOf(own, key)
    case Missing(_, _, key) => !ScheduleOf(own, key)
    case Flushed(row) => !ScheduleOf(own, row.key)
    case _ => true
  }

  /** Whoever is in the profile's critical section owns its unexpired lock. */
  ghost predicate Owns(own: ProfileId, w: World, pid: Pid) {
    pid in w.procs && Critical(w.procs[pid], own) ==>
      own in w.locks && w.locks[own].owner == pid && w.now < w.locks[own].until
  }

  /** What a tick has found unused for the profile still is. */
  ghost predicate Unused(own: ProfileId, w: World, pid: Pid, i: RunId) {
    pid in w.procs && i < |w.runs| && Critical(w.procs[pid], own) ==> !Claims(w.procs[pid], w.runs[i].key)
  }

  ghost predicate Guarded(own: ProfileId, w: World) {
    && (forall pid :: pid in w.procs ==> ApiKey(own, w.procs[pid]))
    && (forall pid: Pid :: Owns(own, w, pid))
    && (forall pid: Pid, i: RunId :: Unused(own, w, pid, i))
  }

  lemma OneInside(own: ProfileId, w: World, p: Pid, q: Pid)
    requires Guarded(own, w) && p in w.procs && q in w.procs && Critical(w.procs[p], own) && Critical(w.procs[q], own)
    ensures p == q
  {
    assert Owns(own, w, p) && Owns(own, w, q);
  }

  /** A key that a tick claims is flushed by nobody else. */
  lemma ClaimIsAlone(own: ProfileId, w: World, pid: Pid, other: Pid, key: Key)
    requires Inv(w) && Guarded(own, w) && pid in w.procs && Claims(w.procs[pid], key) && Critical(w.procs[pid], own)
    requires other in w.reserved && w.reserved[other].key == key
    ensures other == pid
  {
    var p := w.procs[other];
    assert FlushedRow(p) == Some(w.reserved[other]);
    assert ApiKey(own, p);
    OneInside(own, w, pid, other);
  }

  /** A creator moves on: it claims nothing new, and is critical only if it holds the lock. */
  lemma MoveGuarded(own: ProfileId, w: World, pid: Pid, next: Proc, locks: map<ProfileId, Lease>)
    requires Guarded(own, w) && ApiKey(own, next)
    requires forall i: RunId :: i < |w.runs| && Critical(next, own) ==> !Claims(next, w.runs[i].key)
    requires Critical(next, own) ==> own in locks && locks[own].owner == pid && w.now < locks[own].until
    requires forall other :: other in w.procs && other != pid && Critical(w.procs[other], own) ==>
      own in w.locks && own in locks && locks[own] == w.locks[own]
    ensures Guarded(own, w.(locks := locks, procs := w.procs[pid := next]))
  {
    var after := w.(locks := locks, procs := w.procs[pid := next]);
    forall p: Pid ensures Owns(own, after, p) {
      assert Owns(own, w, p);
    }
    forall p: Pid, i: RunId ensures Unused(own, after, p, i) {
      assert Unused(own, w, p, i);
    }
  }

  lemma LockGuarded(own: ProfileId, w: World, pid: Pid)
    requires Guarded(own, w) && pid in w.procs && w.procs[pid].Tick? && w.procs[pid].phase.Locking?
    ensures Guarded(own, GoTick(w, pid))
  {
    var p, after := w.procs[pid], GoTick(w, pid);
    forall other | other in w.procs && other != pid && Critical(w.procs[other], own)
      ensures own in w.locks && own in after.locks && after.locks[own] == w.locks[own]
    {
      assert Owns(own, w, other);
    }
    assert after == w.(locks := after.locks, procs := w.procs[pid := after.procs[pid]]);
    MoveGuarded(own, w, pid, after.procs[pid], after.locks);
  }

  lemma ReleaseGuarded(own: ProfileId, w: World, pid: Pid, profile: ProfileId, next: Proc)
    requires Guarded(own, w) && pid in w.procs && Critical(w.procs[pid], profile) && ApiKey(own, next)
    requires (forall key :: !Claims(next, key)) && (forall q :: !Critical(next, q))
    ensures Guarded(own, Release(w, pid, profile, next))
  {
    var after := Release(w, pid, profile, next);
    forall other | other in w.procs && other != pid && Critical(w.procs[other], own)
      ensures own in w.locks && own in after.locks && after.locks[own] == w.locks[own]
    {
      assert Owns(own, w, other) && Owns(own, w, pid);
    }
    MoveGuarded(own, w, pid, next, after.locks);
  }

  /** Steps inside a critical section that only change the phase. */
  lemma InsideGuarded(own: ProfileId, w: World, pid: Pid, next: Proc)
    requires Guarded(own, w) && pid in w.procs && w.procs[pid].Tick? && !w.procs[pid].phase.Locking? && next.Tick?
    requires next.due == w.procs[pid].due && next.i == w.procs[pid].i
    requires forall i: RunId :: i < |w.runs| && Critical(next, own) ==> !Claims(next, w.runs[i].key)
    ensures Guarded(own, w.(procs := w.procs[pid := next]))
  {
    assert Owns(own, w, pid);
    forall other | other in w.procs && other != pid && Critical(w.procs[other], own) ensures own in w.locks {
      assert Owns(own, w, other);
    }
    MoveGuarded(own, w, pid, next, w.locks);
  }

  /** Committing a key that nobody else claims. */
  lemma CommitGuarded(own: ProfileId, w: World, pid: Pid, row: RunRow, next: Proc)
    requires Inv(w) && Guarded(own, w) && pid in w.reserved && w.reserved[pid] == row
    requires Guarded(own, w.(procs := w.procs[pid := next])) && (forall key :: !Claims(next, key))
    ensures Guarded(own, Commit(w, pid, row, next))
  {
    var moved, after := w.(procs := w.procs[pid := next]), Commit(w, pid, row, next);
    forall p: Pid ensures Owns(own, after, p) {
      assert Owns(own, moved, p);
    }
    forall p: Pid, i: RunId ensures Unused(own, after, p, i) {
      assert Unused(own, moved, p, i);
      if p in w.procs && p != pid && Critical(w.procs[p], own) && Claims(w.procs[p], row.key) {
        ClaimIsAlone(own, w, p, pid, row.key);
      }
    }
  }

  lemma SameGuarded(own: ProfileId, w: World, v: World)
    requires Guarded(own, w) && v.procs == w.procs && v.runs == w.runs && v.locks == w.locks && v.now == w.now
    ensures Guarded(own, v)
  {
    forall p: Pid ensures Owns(own, v, p) {
      assert Owns(own, w, p);
    }
    forall p: Pid, i: RunId ensures Unused(own, v, p, i) {
      assert Unused(own, w, p, i);
    }
  }

  lemma GuardedTick(own: ProfileId, w: World, pid: Pid)
    requires Inv(w) && Guarded(own, w) && pid in w.procs && w.procs[pid].Tick?
    ensures Guarded(own, GoTick(w, pid))
  {
    var p, after := w.procs[pid], GoTick(w, pid);
    if p.i >= |p.due| {
      FinishGuarded(own, w, pid, Ticked(p.count));
    } else {
      var d := p.due[p.i];
      match p.phase {
        case Locking => LockGuarded(own, w, pid);
        case Inserted =>
          var next := p.(phase := Committed(|w.runs|));
          assert w.reserved[pid] == RowFor(d);
          InsideGuarded(own, w, pid, next);
          CommitGuarded(own, w, pid, RowFor(d), next);
        case Releasing => ReleaseGuarded(own, w, pid, d.profile, p.(i := p.i + 1, phase := Locking));
        case Unseen => UnseenGuarded(own, w, pid);
        case _ =>
          InsideGuarded(own, w, pid, after.procs[pid]);
          SameGuarded(own, w.(procs := w.procs[pid := after.procs[pid]]), after);
      }
    }
  }

  lemma UnseenGuarded(own: ProfileId, w: World, pid: Pid)
    requires Inv(w) && Guarded(own, w) && pid in w.procs && w.procs[pid].Tick?
    requires w.procs[pid].i < |w.procs[pid].due| && w.procs[pid].phase.Unseen?
    ensures Guarded(own, GoTick(w, pid))
  {
    var p, after := w.procs[pid], GoTick(w, pid);
    var d := p.due[p.i];
    if Lookup(w.runs, KeyOf(d)).Some? {
      ReleaseGuarded(own, w, pid, d.profile, Aborted);
    } else {
      InsideGuarded(own, w, pid, p.(phase := Inserted));
      if !Held(w, KeyOf(d)) {
        SameGuarded(own, w.(procs := w.procs[pid := p.(phase := Inserted)]), after);
      }
    }
  }

  /** A creator that leaves all critical sections. */
  lemma FinishGuarded(own: ProfileId, w: World, pid: Pid, next: Proc)
    requires Guarded(own, w) && ApiKey(own, next) && (next.Tick? ==> next.i < |next.due| ==> next.phase.Locking?)
    ensures Guarded(own, w.(procs := w.procs[pid := next]))
  {
    forall other | other in w.procs && other != pid && Critical(w.procs[other], own) ensures own in w.locks {
      assert Owns(own, w, other);
    }
    MoveGuarded(own, w, pid, next, w.locks);
  }

  lemma FlushedGuarded(own: ProfileId, w: World, pid: Pid)
    requires Inv(w) && Guarded(own, w) && pid in w.procs && w.procs[pid].Flushed?
    ensures Guarded(own, GoRequest(w, pid))
  {
    FinishGuarded(own, w, pid, Stored(|w.runs|));
    CommitGuarded(own, w, pid, w.procs[pid].row, Stored(|w.runs|));
  }

  /** The other steps of a request change neither rows, locks nor time. */
  lemma RequestQuiet(own: ProfileId, w: World, pid: Pid)
    requires Guarded(own, w) && pid in w.procs && !w.procs[pid].Tick? && !w.procs[pid].Flushed?
    ensures var v := GoRequest(w, pid);
            && v.runs == w.runs && v.locks == w.locks && v.now == w.now
            && pid in v.procs && v.procs == w.procs[pid := v.procs[pid]]
            && ApiKey(own, v.procs[pid]) && !v.procs[pid].Tick?
  {
    assert ApiKey(own, w.procs[pid]);
  }

  lemma GuardedRequest(own: ProfileId, w: World, pid: Pid)
    requires Inv(w) && Guarded(own, w) && pid in w.procs && !w.procs[pid].Tick?
    ensures Guarded(own, GoRequest(w, pid))
  {
    if w.procs[pid].Flushed? {
      FlushedGuarded(own, w, pid);
    } else {
      var v := GoRequest(w, pid);
      RequestQuiet(own, w, pid);
      FinishGuarded(own, w, pid, v.procs[pid]);
      SameGuarded(own, w.(procs := w.procs[pid := v.procs[pid]]), v);
    }
  }

  lemma WaitGuarded(own: ProfileId, w: World, ms: nat)
    requires Guarded(own, w) && Timely(own, w, Wait(ms))
    ensures Guarded(own, w.(now := w.now + ms))
  {
    var after := w.(now := w.now + ms);
    forall p: Pid ensures Owns(own, after, p) {
      assert Owns(own, w, p);
    }
    forall p: Pid, i: RunId ensures Unused(own, after, p, i) {
      assert Unused(own, w, p, i);
    }
  }

  lemma DieGuarded(own: ProfileId, w: World, pid: Pid)
    requires Guarded(own, w)
    ensures Guarded(own, Step(w, Die(pid)))
  {
    FinishGuarded(own, w, pid, Aborted);
    SameGuarded(own, w.(procs := w.procs[pid := Aborted]),
                w.(reserved := w.reserved - {pid}, procs := w.procs[pid := Aborted]));
  }

  lemma GoGuarded(own: ProfileId, w: World, pid: Pid)
    requires Inv(w) && Guarded(own, w)
    ensures Guarded(own, Step(w, Go(pid)))
  {
    if pid in w.procs {
      if w.procs[pid].Tick? {
        GuardedTick(own, w, pid);
      } else {
        GuardedRequest(own, w, pid);
      }
    }
  }

  lemma AskGuarded(own: ProfileId, w: World, pid: Pid, user: UserId, profile: ProfileId, key: Key)
    requires Guarded(own, w) && !ScheduleOf(own, key)
    ensures Guarded(own, Step(w, Request(pid, user, profile, key)))
  {
    FinishGuarded(own, w, pid, Asked(user, profile, key));
  }

  lemma GuardedStep(own: ProfileId, w: World, a: Act)
    requires Inv(w) && Guarded(own, w) && Timely(own, w, a)
    ensures Guarded(own, Step(w, a))
  {
    match a {
      case Request(pid, user, profile, key) => AskGuarded(own, w, pid, user, profile, key);
      case Fire(pid, due) => FinishGuarded(own, w, pid, Tick(due, 0, Locking, 0));
      case Go(pid) => GoGuarded(own, w, pid);
      case Die(pid) => DieGuarded(own, w, pid);
      case Wait(ms) => WaitGuarded(own, w, ms);
    }
  }

  lemma {:induction false} RunGuarded(own: ProfileId, owners: map<ProfileId, UserId>, acts: seq<Act>)
    requires TimelyRun(own, Start(owners), acts)
    ensures Guarded(own, Steps(Start(owners), acts))
  {
    if acts != [] {
      RunGuarded(own, owners, acts[..|acts| - 1]);
      RunInv(owners, acts[..|acts| - 1]);
      GuardedStep(own, Steps(Start(owners), acts[..|acts| - 1]), acts[|acts| - 1]);
    }
  }

  predicate Inserting(w: World, pid: Pid) {
    pid in w.procs && w.procs[pid].Tick? && w.procs[pid].i < |w.procs[pid].due| && w.procs[pid].phase.Unseen?
  }

  /** While the leases of a profile outlive its critical sections and its schedule keys are the scheduler's
      own, whatever happens for other profiles, a tick that found its key unused inserts it at once: it
      neither waits nor hits the unique constraint. */
  lemma SchedulerInsertSucceeds(owners: map<ProfileId, UserId>, acts: seq<Act>, pid: Pid)
    requires Inserting(Steps(Start(owners), acts), pid)
    requires var p := Steps(Start(owners), acts).procs[pid]; TimelyRun(p.due[p.i].profile, Start(owners), acts)
    ensures var w := Steps(Start(owners), acts);
            var d := w.procs[pid].due[w.procs[pid].i];
            && Step(w, Go(pid)).procs[pid] == w.procs[pid].(phase := Inserted)
            && pid in Step(w, Go(pid)).reserved
            && Step(w, Go(pid)).reserved[pid] == RunRow(d.user, d.profile, true, Scheduled(d.profile, d.date))
  {
    var w := Steps(Start(owners), acts);
    var d := w.procs[pid].due[w.procs[pid].i];
    RunGuarded(d.profile, owners, acts);
    RunInv(owners, acts);
    InsertsAtOnce(w, pid, d);
  }

  lemma InsertsAtOnce(w: World, pid: Pid, d: Due)
    requires Inv(w) && Inserting(w, pid) && d == w.procs[pid].due[w.procs[pid].i] && Guarded(d.profile, w)
    ensures Step(w, Go(pid)).procs[pid] == w.procs[pid].(phase := Inserted)
    ensures pid in Step(w, Go(pid)).reserved && Step(w, Go(pid)).reserved[pid] == RowFor(d)
  {
    assert Claims(w.procs[pid], KeyOf(d)) && Critical(w.procs[pid], d.profile);
    forall i: RunId | i < |w.runs| ensures w.runs[i].key != KeyOf(d) {
      assert Unused(d.profile, w, pid, i);
    }
    if Held(w, KeyOf(d)) {
      var other :| other in w.reserved && w.reserved[other].key == KeyOf(d);
      ClaimIsAlone(d.profile, w, pid, other, KeyOf(d));
    }
  }

  lemma Then(w: World, acts: seq<Act>, a: Act) returns (more: seq<Act>)
    ensures more == acts + [a] && Steps(w, more) == Step(Steps(w, acts), a)
  {
    more := acts + [a];
    assert more[..|more| - 1] == acts;
  }

  /** A tick that has found its key unused and has not moved since. */
  lemma Stalled(d: Due) returns (acts: seq<Act>)
    ensures Steps(Start(map[]), acts) ==
            World(map[], [], map[], [], map[d.profile := Lease(0, LEASE_MS)], map[0 := Tick([d], 0, Unseen, 0)], 0)
  {
    var w0 := Start(map[]);
    acts := Then(w0, [], Fire(0, [d]));
    acts := Then(w0, acts, Go(0));
    Stalling(d, w0);
    acts := Then(w0, acts, Go(0));
  }

  lemma Stalling(d: Due, w: World)
    requires w == Start(map[])
    ensures var w1 := Step(w, Fire(0, [d]));
            w1 == w.(procs := map[0 := Tick([d], 0, Locking, 0)]) &&
            Step(Step(w1, Go(0)), Go(0)) ==
            w.(locks := map[d.profile := Lease(0, LEASE_MS)], procs := map[0 := Tick([d], 0, Unseen, 0)])
  {
    var w1 := w.(procs := map[0 := Tick([d], 0, Locking, 0)]);
    assert Step(w, Fire(0, [d])) == w1;
    var w2 := w.(locks := map[d.profile := Lease(0, LEASE_MS)], procs := map[0 := Tick([d], 0, Locked, 0)]);
    assert Step(w1, Go(0)) == w2;
    assert Step(w2, Go(0)) == w2.(procs := map[0 := Tick([d], 0, Unseen, 0)]);
  }

  /** A second tick comes to the same point once the lease has run out. */
  lemma Overtaking(d: Due, w: World)
    requires w == World(map[], [], map[], [], map[d.profile := Lease(0, LEASE_MS)], map[0 := Tick([d], 0, Unseen, 0)],
               LEASE_MS)
    ensures Step(Step(Step(w, Fire(1, [d])), Go(1)), Go(1)) ==
            w.(locks := map[d.profile := Lease(1, 2 * LEASE_MS)], procs := w.procs[1 := Tick([d], 0, Unseen, 0)])
  {
    var w1 := Step(w, Fire(1, [d]));
    assert w1 == w.(procs := w.procs[1 := Tick([d], 0, Locking, 0)]);
    var w2 := Step(w1, Go(1));
    assert w2 == w.(locks := map[d.profile := Lease(1, 2 * LEASE_MS)], procs := w.procs[1 := Tick([d], 0, Locked, 0)]);
  }

  /** The lease matters: a tick that stalls for 30 s between its check and its insert finds the run
      created by the next tick, hits the unique constraint and is aborted. */
  lemma StalledTickAborts(d: Due) returns (acts: seq<Act>)
    ensures var w := Steps(Start(map[]), acts);
            && 0 in w.procs && w.procs[0] == Tick([d], 0, Unseen, 0)
            && HasRun(w.runs, d.profile, d.date) && GoTick(w, 0).procs[0] == Aborted
  {
    var w0 := Start(map[]);
    acts := Stalled(d);
    acts := Then(w0, acts, Wait(LEASE_MS));
    Overtaking(d, Steps(w0, acts));
    acts := Then(w0, acts, Fire(1, [d]));
    acts := Then(w0, acts, Go(1));
    acts := Then(w0, acts, Go(1));
    Overtaken(d, Steps(w0, acts));
    StepsThrice(w0, acts, Go(1));
    acts := acts + [Go(1), Go(1), Go(1)];
  }

  lemma Overtaken(d: Due, w: World)
    requires w.procs == map[0 := Tick([d], 0, Unseen, 0), 1 := Tick([d], 0, Unseen, 0)] && w.runs == [] &&
               w.reserved == map[]
    ensures var v := Thrice(w, Go(1));
            && 0 in v.procs && v.procs[0] == Tick([d], 0, Unseen, 0)
            && HasRun(v.runs, d.profile, d.date) && GoTick(v, 0).procs[0] == Aborted
  {
    TickAlone(w, 1);
    assert Thrice(w, Go(1)).runs == [RowFor(d)] && [RowFor(d)][0].key == KeyOf(d);
  }

  // ----- the creators as they run -----

  function Thrice(w: World, a: Act): World { Step(Step(Step(w, a), a), a) }

  lemma StepsThrice(w: World, acts: seq<Act>, a: Act)
    ensures Steps(w, acts + [a, a, a]) == Thrice(Steps(w, acts), a)
  {
    assert (acts + [a, a, a])[..|acts| + 2] == acts + [a, a];
    StepsTwo(w, acts, a, a);
  }

  lemma StepsTwo(w: World, acts: seq<Act>, a: Act, b: Act)
    ensures Steps(w, acts + [a, b]) == Step(Step(Steps(w, acts), a), b)
  {
    assert (acts + [a, b])[..|acts| + 1] == acts + [a];
    assert (acts + [a])[..|acts|] == acts;
  }

  /** A request that found its key unused inserts, commits and enqueues, if nobody interferes. */
  lemma RequestAlone(w: World, pid: Pid)
    requires pid in w.procs && w.procs[pid].Missing? && w.reserved == map[] && Lookup(w.runs, w.procs[pid].key).None?
    ensures var p, id := w.procs[pid], |w.runs|;
            Thrice(w, Go(pid)) == w.(runs := w.runs + [RunRow(p.user, p.profile, false, p.key)],
                                     queue := w.queue + [id],
                                     procs := w.procs[pid := Answered(Created(id))])
  {
    var p := w.procs[pid];
    var row := RunRow(p.user, p.profile, false, p.key);
    var w1 := Step(w, Go(pid));
    assert w1 == w.(reserved := map[pid := row], procs := w.procs[pid := Flushed(row)]);
    var w2 := Step(w1, Go(pid));
    assert w2.reserved == map[] && w2.procs == w.procs[pid := Stored(|w.runs|)];
  }

  /** So does a tick. */
  lemma TickAlone(w: World, pid: Pid)
    requires pid in w.procs && w.procs[pid].Tick? && w.procs[pid].i < |w.procs[pid].due| && w.procs[pid].phase.Unseen?
    requires w.reserved == map[] && Lookup(w.runs, KeyOf(w.procs[pid].due[w.procs[pid].i])).None?
    ensures var p, id := w.procs[pid], |w.runs|;
            Thrice(w, Go(pid)) == w.(runs := w.runs + [RowFor(p.due[p.i])], queue := w.queue + [id],
                                     procs := w.procs[pid := p.(phase := Releasing, count := p.count + 1)])
  {
    var p := w.procs[pid];
    var row := RowFor(p.due[p.i]);
    var w1 := Step(w, Go(pid));
    assert w1 == w.(reserved := map[pid := row], procs := w.procs[pid := p.(phase := Inserted)]);
    var w2 := Step(w1, Go(pid));
    assert w2.reserved == map[] && w2.procs == w.procs[pid := p.(phase := Committed(|w.runs|))];
  }

  /** The services while they run undisturbed: they take exactly the steps above. */
  class Platform {
    var owners: map<ProfileId, UserId>
    var runs: seq<RunRow>
    var queue: seq<RunId>
    var locks: map<ProfileId, Lease>
    var now: int
    ghost var world: World

    ghost predicate Valid()
      reads this
    {
      world == World(owners, runs, map[], queue, locks, world.procs, now)
    }

    /** `RunService.create`: the run stored under the key if there is one, else a new one, queued. */
    method Create(pid: Pid, user: UserId, profile: ProfileId, key: Key) returns (result: Result, ghost acts: seq<Act>)
      requires Valid() && pid !in world.procs
      modifies this`runs, this`queue, this`world
      ensures Valid() && world == Steps(old(world), acts)
      ensures pid in world.procs && world.procs[pid] == Answered(result)
      ensures result.NotFound? <==> profile !in owners || owners[profile] != user
      ensures result.Created? ==>
                && result.run == |old(runs)| && runs == old(runs) + [RunRow(user, profile, false, key)]
                && queue == old(queue) + [result.run] && Lookup(old(runs), key).None?
      ensures !result.Created? ==> runs == old(runs) && queue == old(queue)
      ensures result.Existing? ==> result.run < |runs| && runs[result.run].key == key && runs[result.run].user == user
      ensures result.Conflict? ==> Lookup(runs, key).Some? && runs[Lookup(runs, key).value].user != user
      ensures result != KeyTaken
    {
      acts := [Request(pid, user, profile, key), Go(pid)];
      assert acts == [] + acts;
      StepsTwo(world, [], acts[0], acts[1]);
      world := Step(Step(world, acts[0]), acts[1]);
      if profile !in owners || owners[profile] != user {
        return NotFound, acts;
      }
      var existing := Lookup(runs, key);
      if existing.Some? {
        if runs[existing.value].user != user {
          return Conflict, acts;
        }
        return Existing(existing.value), acts;
      }
      StepsThrice(old(world), acts, Go(pid));
      RequestAlone(world, pid);
      acts := acts + [Go(pid), Go(pid), Go(pid)];
      world := Thrice(world, Go(pid));
      var id := |runs|;
      runs := runs + [RunRow(user, profile, false, key)];
      queue := queue + [id];
      return Created(id), acts;
    }

    /** The body of the loop over due profiles, under the profile's lock. */
    method EnqueueOne(pid: Pid, due: seq<Due>, i: nat, count: nat) returns (more: nat, ghost acts: seq<Act>)
      requires Valid() && pid in world.procs && i < |due| && world.procs[pid] == Tick(due, i, Locked, count)
      modifies this`runs, this`queue, this`world
      ensures Valid() && world == Steps(old(world), acts)
      ensures pid in world.procs && world.procs[pid] == Tick(due, i, Releasing, more)
      ensures HasRun(old(runs), due[i].profile, due[i].date) ==>
                runs == old(runs) && queue == old(queue) && more == count
      ensures !HasRun(old(runs), due[i].profile, due[i].date) ==> AddsRun(old(runs), old(queue), runs, queue, due[i])
      ensures !HasRun(old(runs), due[i].profile, due[i].date) ==> more == count + 1
    {
      FoundExactly(runs, due[i]);
      acts := [Go(pid)];
      assert acts[..0] == [];
      world := Step(world, Go(pid));
      var dupe := Lookup(runs, KeyOf(due[i]));
      if dupe.Some? {
        return count, acts;
      }
      StepsThrice(old(world), acts, Go(pid));
      TickAlone(world, pid);
      acts := acts + [Go(pid), Go(pid), Go(pid)];
      world := Thrice(world, Go(pid));
      var id := |runs|;
      runs := runs + [RowFor(due[i])];
      queue := queue + [id];
      return count + 1, acts;
    }

    /** Under the lock of a due profile: create its run of the day unless there is one, and unlock. */
    method ServeLocked(pid: Pid, due: seq<Due>, i: nat, count: nat) returns (more: nat, ghost acts: seq<Act>)
      requires Valid() && pid in world.procs && i < |due| && world.procs[pid] == Tick(due, i, Locked, count)
      requires due[i].profile in locks && locks[due[i].profile].owner == pid
      modifies this`runs, this`queue, this`locks, this`world
      ensures Valid() && world == Steps(old(world), acts)
      ensures pid in world.procs && world.procs[pid] == Tick(due, i + 1, Locking, more)
      ensures locks == old(locks) - {due[i].profile}
      ensures if !HasRun(old(runs), due[i].profile, due[i].date) then
                AddsRun(old(runs), old(queue), runs, queue, due[i]) && more == count + 1
              else runs == old(runs) && queue == old(queue) && more == count
    {
      more, acts := EnqueueOne(pid, due, i, count);
      if locks[due[i].profile].owner == pid {
        locks := locks - {due[i].profile};
      }
      assert (acts + [Go(pid)])[..|acts|] == acts;
      acts := acts + [Go(pid)];
      world := Step(world, Go(pid));
    }

    /** One due profile: try its lock, and serve it if the lock was free. */
    method ServeProfile(pid: Pid, due: seq<Due>, i: nat, count: nat) returns (more: nat, ghost acts: seq<Act>)
      requires Valid() && pid in world.procs && i < |due| && world.procs[pid] == Tick(due, i, Locking, count)
      modifies this`runs, this`queue, this`locks, this`world
      ensures Valid() && world == Steps(old(world), acts)
      ensures pid in world.procs && world.procs[pid] == Tick(due, i + 1, Locking, more)
      ensures var d := due[i];
              && (if LockFree(old(world), d.profile) then locks == old(locks) - {d.profile} else locks == old(locks))
              && (if LockFree(old(world), d.profile) && !HasRun(old(runs), d.profile, d.date) then
                    AddsRun(old(runs), old(queue), runs, queue, d) && more == count + 1
                  else runs == old(runs) && queue == old(queue) && more == count)
    {
      var d := due[i];
      acts := [Go(pid)];
      assert acts[..0] == [];
      world := Step(world, Go(pid));
      if d.profile in locks && now < locks[d.profile].until {
        return count, acts;
      }
      locks := locks[d.profile := Lease(pid, now + LEASE_MS)];
      ghost var inner;
      more, inner := ServeLocked(pid, due, i, count);
      StepsConcat(old(world), acts, inner);
      acts := acts + inner;
    }

    /** One turn of the loop, on top of what the tick has done since it fired in `w0`. */
    method ServeNext(ghost w0: World, ghost done: seq<Act>, pid: Pid, due: seq<Due>, i: nat, count: nat)
      returns (more: nat, ghost acts: seq<Act>)
      requires Valid() && world == Steps(w0, done) && world.now == w0.now
      requires pid in world.procs && i < |due| && world.procs[pid] == Tick(due, i, Locking, count)
      requires Enqueued(w0, runs, queue, due, i, count) && LocksKept(w0, locks)
      modifies this`runs, this`queue, this`locks, this`world
      ensures Valid() && world == Steps(w0, acts) && world.now == w0.now
      ensures pid in world.procs && world.procs[pid] == Tick(due, i + 1, Locking, more)
      ensures Enqueued(w0, runs, queue, due, i + 1, more) && LocksKept(w0, locks)
    {
      ghost var before, sent := runs, queue;
      more, acts := ServeProfile(pid, due, i, count);
      StepsConcat(w0, done, acts);
      acts := done + acts;
      HeldSinceStart(w0, old(world), due[i].profile, locks);
      EnqueuedOneMore(w0, before, sent, runs, queue, due, i, more);
    }

    /** `enqueue_due_runs`: afterwards every due profile whose lock was not held has its run for the local
        date; `count` runs are new, each of a due profile whose lock was free and that had none, no two for
        one profile and date, each with one message, and no held lock has changed. */
    method EnqueueDueRuns(pid: Pid, due: seq<Due>) returns (count: nat, ghost acts: seq<Act>)
      requires Valid() && pid !in world.procs
      modifies this`runs, this`queue, this`locks, this`world
      ensures Valid() && world == Steps(old(world), acts)
      ensures pid in world.procs && world.procs[pid] == Ticked(count)
      ensures |runs| == |old(runs)| + count && old(runs) <= runs
      ensures |queue| == |old(queue)| + count && old(queue) <= queue
      ensures forall k :: |old(queue)| <= k < |queue| ==> queue[k] == |old(runs)| + (k - |old(queue)|)
      ensures Serves(old(world), runs, due)
      ensures forall p :: !LockFree(old(world), p) ==> p in locks && locks[p] == old(locks)[p]
    {
      acts := [Fire(pid, due)];
      assert acts[..0] == [];
      world := Step(world, Fire(pid, due));
      count := 0;
      for i := 0 to |due|
        invariant Valid() && world == Steps(old(world), acts) && pid in world.procs
        invariant world.procs[pid] == Tick(due, i, Locking, count) && world.now == old(world).now
        invariant Enqueued(old(world), runs, queue, due, i, count)
        invariant LocksKept(old(world), locks)
      {
        count, acts := ServeNext(old(world), acts, pid, due, i, count);
      }
      assert (acts + [Go(pid)])[..|acts|] == acts;
      acts := acts + [Go(pid)];
      world := Step(world, Go(pid));
    }
  }

  lemma {:induction false} StepsConcat(w: World, xs: seq<Act>, ys: seq<Act>)
    ensures Steps(w, xs + ys) == Steps(Steps(w, xs), ys)
  {
    if ys == [] {
      assert xs + ys == xs;
    } else {
      assert (xs + ys)[..|xs + ys| - 1] == xs + ys[..|ys| - 1];
      StepsConcat(w, xs, ys[..|ys| - 1]);
    }
  }

  lemma HasRunStays(runs: seq<RunRow>, later: seq<RunRow>, profile: ProfileId, date: nat)
    requires runs <= later && HasRun(runs, profile, date)
    ensures HasRun(later, profile, date)
  {
    var i :| 0 <= i < |runs| && runs[i].key == Scheduled(profile, date);
    assert later[i] == runs[i];
  }

  /** The first `n` due profiles have their run, or had their lock held by someone else. */
  ghost predicate ServedUpTo(w0: World, runs: seq<RunRow>, due: seq<Due>, n: nat)
    requires n <= |due|
  {
    forall k :: 0 <= k < n && LockFree(w0, due[k].profile) ==> HasRun(runs, due[k].profile, due[k].date)
  }

  /** One run for the due profile's schedule on its local date, and one message for that run. */
  ghost predicate AddsRun(before: seq<RunRow>, sent: seq<RunId>, runs: seq<RunRow>, queue: seq<RunId>, d: Due) {
    && runs == before + [RunRow(d.user, d.profile, true, Scheduled(d.profile, d.date))]
    && queue == sent + [|before|]
  }

  /** The run of a due profile whose lock was free and that had none for its local date. */
  ghost predicate FreshDue(w0: World, due: seq<Due>, row: RunRow) {
    exists d :: d in due && LockFree(w0, d.profile) && !HasRun(w0.runs, d.profile, d.date) &&
                row == RunRow(d.user, d.profile, true, Scheduled(d.profile, d.date))
  }

  ghost predicate AllFresh(w0: World, runs: seq<RunRow>, due: seq<Due>) {
    && (forall k :: |w0.runs| <= k < |runs| ==> FreshDue(w0, due, runs[k]))
    && (forall k, l :: |w0.runs| <= k < l < |runs| ==> runs[k].key != runs[l].key)
  }

  /** What a tick that fired in `w0` has done for its due profiles. */
  ghost predicate Serves(w0: World, runs: seq<RunRow>, due: seq<Due>) {
    && w0.runs <= runs && AllFresh(w0, runs, due)
    && forall d :: d in due && LockFree(w0, d.profile) ==> HasRun(runs, d.profile, d.date)
  }

  /** So a due profile that had no run for its date and whose lock was free gets exactly one. */
  lemma ExactlyOneRun(w0: World, runs: seq<RunRow>, due: seq<Due>, d: Due) returns (id: RunId)
    requires Serves(w0, runs, due) && d in due && LockFree(w0, d.profile) && !HasRun(w0.runs, d.profile, d.date)
    requires forall e :: e in due && e.profile == d.profile ==> e == d
    ensures |w0.runs| <= id < |runs| && runs[id] == RunRow(d.user, d.profile, true, Scheduled(d.profile, d.date))
    ensures forall i :: 0 <= i < |runs| && i != id ==> runs[i].key != Scheduled(d.profile, d.date)
  {
    forall i | 0 <= i < |w0.runs| ensures runs[i].key != Scheduled(d.profile, d.date) {
      assert w0.runs[i] == runs[i];
    }
    id :| 0 <= id < |runs| && runs[id].key == Scheduled(d.profile, d.date);
    assert FreshDue(w0, due, runs[id]);
  }

  /** Two ticks that find the lock of a profile free on different local dates leave it two runs. */
  lemma TwoDaysTwoRuns(w0: World, runs: seq<RunRow>, due: seq<Due>, d: Due,
                       w1: World, later: seq<RunRow>, due1: seq<Due>, e: Due) returns (i: RunId, k: RunId)
    requires Serves(w0, runs, due) && d in due && LockFree(w0, d.profile)
    requires Serves(w1, later, due1) && e in due1 && LockFree(w1, e.profile) && runs <= w1.runs
    requires e.profile == d.profile && e.date != d.date
    ensures i != k && i < |later| && k < |later|
    ensures later[i].key == Scheduled(d.profile, d.date) && later[k].key == Scheduled(d.profile, e.date)
  {
    i :| 0 <= i < |runs| && runs[i].key == Scheduled(d.profile, d.date);
    k :| 0 <= k < |later| && later[k].key == Scheduled(e.profile, e.date);
    assert later[i] == w1.runs[i] == runs[i];
  }

  lemma AddedIsFresh(w0: World, before: seq<RunRow>, sent: seq<RunId>, runs: seq<RunRow>, queue: seq<RunId>,
                     due: seq<Due>, i: nat)
    requires i < |due| && w0.runs <= before && AllFresh(w0, before, due) && LockFree(w0, due[i].profile)
    requires AddsRun(before, sent, runs, queue, due[i]) && !HasRun(before, due[i].profile, due[i].date)
    ensures AllFresh(w0, runs, due)
  {
    var d := due[i];
    if HasRun(w0.runs, d.profile, d.date) {
      HasRunStays(w0.runs, before, d.profile, d.date);
    }
    assert d in due && FreshDue(w0, due, runs[|before|]);
    forall k, l | |w0.runs| <= k < l < |runs| ensures runs[k].key != runs[l].key {
      assert runs[k] == before[k];
    }
  }

  /** What the first `n` due profiles have led to: `count` new runs, each with one message, in order. */
  ghost predicate Enqueued(w0: World, runs: seq<RunRow>, queue: seq<RunId>, due: seq<Due>, n: nat, count: nat)
    requires n <= |due|
  {
    && |runs| == |w0.runs| + count && w0.runs <= runs
    && |queue| == |w0.queue| + count && w0.queue <= queue
    && (forall k :: |w0.queue| <= k < |queue| ==> queue[k] == |w0.runs| + (k - |w0.queue|))
    && ServedUpTo(w0, runs, due, n) && AllFresh(w0, runs, due)
  }

  /** Locks are at most dropped, and those held at the start are not. */
  ghost predicate LocksKept(w0: World, locks: map<ProfileId, Lease>) {
    && (forall p :: p in locks ==> p in w0.locks && locks[p] == w0.locks[p])
    && (forall p :: !LockFree(w0, p) ==> p in locks)
  }

  /** A lock that was held at the start is still held, so serving its profile changes no lock. */
  lemma HeldSinceStart(w0: World, w: World, profile: ProfileId, locks: map<ProfileId, Lease>)
    requires LocksKept(w0, w.locks) && w.now == w0.now
    requires locks == if LockFree(w, profile) then w.locks - {profile} else w.locks
    ensures LocksKept(w0, locks)
    ensures !LockFree(w, profile) <==> !LockFree(w0, profile)
  {}

  lemma EnqueuedOneMore(w0: World, before: seq<RunRow>, sent: seq<RunId>, runs: seq<RunRow>, queue: seq<RunId>,
                        due: seq<Due>, i: nat, more: nat)
    requires i < |due|
    requires if !LockFree(w0, due[i].profile) || HasRun(before, due[i].profile, due[i].date) then
               runs == before && queue == sent && Enqueued(w0, before, sent, due, i, more)
             else
               && AddsRun(before, sent, runs, queue, due[i])
               && more > 0 && Enqueued(w0, before, sent, due, i, more - 1)
    ensures Enqueued(w0, runs, queue, due, i + 1, more)
  {
    if LockFree(w0, due[i].profile) && !HasRun(before, due[i].profile, due[i].date) {
      AddedIsFresh(w0, before, sent, runs, queue, due, i);
      assert runs[|before|].key == Scheduled(due[i].profile, due[i].date);
    }
    ServedOneMore(w0, before, runs, due, i);
  }

  lemma ServedOneMore(w0: World, before: seq<RunRow>, runs: seq<RunRow>, due: seq<Due>, i: nat)
    requires i < |due| && before <= runs && ServedUpTo(w0, before, due, i)
    requires LockFree(w0, due[i].profile) ==> HasRun(runs, due[i].profile, due[i].date)
    ensures ServedUpTo(w0, runs, due, i + 1)
  {
    forall k | 0 <= k < i && LockFree(w0, due[k].profile) ensures HasRun(runs, due[k].profile, due[k].date) {
      HasRunStays(before, runs, due[k].profile, due[k].date);
    }
  }
}
