/** What holds of every run in every reachable world, under any interleaving, crashes and redeliveries. */
module RunInvariants {
  import opened Wrappers
  import opened EngineTypes
  import opened Engine
  import opened RunSteps

  function MailsOf(outbox: seq<Mail>, r: RunId): nat {
    if outbox == [] then 0
    else MailsOf(outbox[..|outbox| - 1], r) + (if outbox[|outbox| - 1].runId == r then 1 else 0)
  }

  function NotesOf(notes: seq<Note>, r: RunId): nat {
    if notes == [] then 0
    else NotesOf(notes[..|notes| - 1], r) + (if notes[|notes| - 1].runId == r then 1 else 0)
  }

  /** The rows reported by the last mail sent for a run. */
  function LastReport(outbox: seq<Mail>, r: RunId): Option<Matches> {
    if outbox == [] then None
    else if outbox[|outbox| - 1].runId == r then Some(outbox[|outbox| - 1].rows)
    else LastReport(outbox[..|outbox| - 1], r)
  }

  lemma MailAppended(outbox: seq<Mail>, m: Mail, r: RunId)
    ensures MailsOf(outbox + [m], r) == MailsOf(outbox, r) + (if m.runId == r then 1 else 0)
    ensures LastReport(outbox + [m], r) == if m.runId == r then Some(m.rows) else LastReport(outbox, r)
  {
    assert (outbox + [m])[..|outbox + [m]| - 1] == outbox;
  }

  lemma NoteAppended(notes: seq<Note>, n: Note, r: RunId)
    ensures NotesOf(notes + [n], r) == NotesOf(notes, r) + (if n.runId == r then 1 else 0)
  {
    assert (notes + [n])[..|notes + [n]| - 1] == notes;
  }

  /** The steps that an execution in flight takes itself. */
  predicate Advances(a: Act) {
    a.Load? || a.Progress? || a.Compute? || a.Save? || a.Upload? || a.Send? || a.Final?
  }

  // ----- one run's view of the world -----

  /** Everything in a world that concerns one run. */
  datatype View = View(run: Option<Run>, flight: Option<Flight>, mails: nat, notes: nat, lost: nat, retries: nat,
                       owned: Matches, report: Option<Matches>)

  function ViewOf(w: World, r: RunId): View {
    View(if r in w.db.runs then Some(w.db.runs[r]) else None, if r in w.flights then Some(w.flights[r]) else None,
         MailsOf(w.outbox, r), NotesOf(w.db.notes, r), Get(w.lost, r), Get(w.retries, r),
         OwnedRows(w.db.matches, r), LastReport(w.outbox, r))
  }

  lemma SaveOwned(matches: Matches, run: Run, other: RunId, ms: seq<MatchedJob>, r: RunId)
    requires r != other
    ensures OwnedRows(InsertAll(matches, run, other, ms), r) == OwnedRows(matches, r)
  {
    InsertAllGrows(matches, run, other, ms);
    var after := InsertAll(matches, run, other, ms);
    forall key ensures key in OwnedRows(after, r) <==> key in OwnedRows(matches, r) {}
  }

  lemma SaveFrame(w: World, other: RunId, r: RunId)
    requires Flying(w, other) && other != r
    ensures ViewOf(DoSave(w, other), r) == ViewOf(w, r)
  {
    if w.flights[other].stage.Computed? {
      SaveOwned(w.db.matches, w.db.runs[other], other, w.flights[other].stage.result.matched, r);
    }
  }

  lemma SendFrame(w: World, other: RunId, userFound: bool, r: RunId)
    requires Flying(w, other) && other != r
    ensures ViewOf(DoSend(w, other, userFound), r) == ViewOf(w, r)
  {
    if w.flights[other].stage.Uploaded? {
      MailAppended(w.outbox, Mail(other, w.flights[other].stage.rows), r);
    }
  }

  lemma FinalFrame(w: World, other: RunId, now: int, r: RunId)
    requires Flying(w, other) && other != r
    ensures ViewOf(DoFinal(w, other, now), r) == ViewOf(w, r)
  {
    NoteAppended(w.db.notes, Note(other, w.db.runs[other].userId), r);
  }

  lemma StageFrame(w: World, other: RunId, a: Act, r: RunId)
    requires Flying(w, other) && other != r && a.r == other && (a.Load? || a.Compute? || a.Upload? || a.Progress?)
    ensures ViewOf(Advance(w, a), r) == ViewOf(w, r)
  {
    AdvanceOther(w, a, r);
  }

  lemma AdvanceFrame(w: World, a: Act, r: RunId)
    requires Flying(w, a.r) && a.r != r && Advances(a)
    ensures ViewOf(Advance(w, a), r) == ViewOf(w, r)
  {
    match a {
      case Save(other) => SaveFrame(w, other, r);
      case Send(other, userFound) => SendFrame(w, other, userFound, r);
      case Final(other, now) => FinalFrame(w, other, now, r);
      case _ => StageFrame(w, a.r, a, r);
    }
  }

  /** A step of one run is invisible to every other run. */
  lemma StepFrame(w: World, a: Act, r: RunId)
    requires a.r != r
    ensures ViewOf(Step(w, a), r) == ViewOf(w, r)
  {
    if Advances(a) && Flying(w, a.r) {
      AdvanceFrame(w, a, r);
    }
  }

  // ----- accounting, without any restriction on the run -----

  function One(b: bool): nat { if b then 1 else 0 }

  predicate MailInFlight(v: View) { v.flight.Some? && v.flight.value.stage.Settled? && v.flight.value.stage.sent }

  /** One notification row for a recorded notification and none otherwise; every mail is recorded,
      lost or still in flight; retries by the failure handler stay below the attempt limit. */
  predicate Accounted(v: View) {
    if v.run.None? then v.flight.None? && v.mails == v.notes == v.lost == v.retries == 0
    else
      var run := v.run.value;
      && v.notes == One(run.notifiedAt.Some?)
      && v.mails == One(run.notifiedAt.Some?) + v.lost + One(MailInFlight(v))
      && (v.flight.Some? ==> v.flight.value.notifiedAt == run.notifiedAt)
      && (v.flight.Some? && (v.flight.value.stage.Uploaded? || MailInFlight(v)) ==> run.notifiedAt.None?)
      && v.retries + One(v.flight.Some?) <= run.attempt
      && (v.retries == 0 || v.retries < run.maxAttempts)
  }

  lemma SendAccounted(w: World, r: RunId, userFound: bool)
    requires Flying(w, r) && Accounted(ViewOf(w, r))
    ensures Accounted(ViewOf(DoSend(w, r, userFound), r))
  {
    if w.flights[r].stage.Uploaded? {
      MailAppended(w.outbox, Mail(r, w.flights[r].stage.rows), r);
    }
  }

  lemma FinalAccounted(w: World, r: RunId, now: int)
    requires Flying(w, r) && Accounted(ViewOf(w, r))
    ensures Accounted(ViewOf(DoFinal(w, r, now), r))
  {
    NoteAppended(w.db.notes, Note(r, w.db.runs[r].userId), r);
  }

  lemma SaveAccounted(w: World, r: RunId)
    requires Flying(w, r) && Accounted(ViewOf(w, r))
    ensures Accounted(ViewOf(DoSave(w, r), r))
  {}

  lemma UploadAccounted(w: World, r: RunId)
    requires Flying(w, r) && Accounted(ViewOf(w, r))
    ensures Accounted(ViewOf(DoUpload(w, r), r))
  {}

  lemma EarlyStagesAccounted(w: World, a: Act)
    requires Flying(w, a.r) && Accounted(ViewOf(w, a.r)) && (a.Load? || a.Compute? || a.Progress?)
    ensures Accounted(ViewOf(Advance(w, a), a.r))
  {}

  lemma AdvanceAccounted(w: World, a: Act)
    requires Flying(w, a.r) && Accounted(ViewOf(w, a.r)) && Advances(a)
    ensures Accounted(ViewOf(Advance(w, a), a.r))
  {
    match a {
      case Save(r) => SaveAccounted(w, r);
      case Upload(r) => UploadAccounted(w, r);
      case Send(r, userFound) => SendAccounted(w, r, userFound);
      case Final(r, now) => FinalAccounted(w, r, now);
      case _ => EarlyStagesAccounted(w, a);
    }
  }

  lemma EndAccounted(w: World, a: Act)
    requires Accounted(ViewOf(w, a.r)) && (a.Die? || a.Raise?)
    ensures Accounted(ViewOf(Step(w, a), a.r))
  {}

  lemma OutsideAccounted(w: World, a: Act)
    requires Accounted(ViewOf(w, a.r)) && (a.Create? || a.Cancel? || a.EarlyRaise? || a.Begin?)
    ensures Accounted(ViewOf(Step(w, a), a.r))
  {}

  lemma StepAccounted(w: World, a: Act, r: RunId)
    requires Accounted(ViewOf(w, r))
    ensures Accounted(ViewOf(Step(w, a), r))
  {
    if a.r != r {
      StepFrame(w, a, r);
    } else if a.Die? || a.Raise? {
      EndAccounted(w, a);
    } else if !Advances(a) {
      OutsideAccounted(w, a);
    } else if Flying(w, r) {
      AdvanceAccounted(w, a);
    }
  }

  lemma {:induction false} AlwaysAccounted(acts: seq<Act>, r: RunId)
    ensures Accounted(ViewOf(Steps(EMPTY, acts), r))
  {
    if acts != [] {
      AlwaysAccounted(acts[..|acts| - 1], r);
      StepAccounted(Steps(EMPTY, acts[..|acts| - 1]), acts[|acts| - 1], r);
    }
  }

  /** Notification accounting, in every reachable world: at most one notification row for a run, there
      exactly when `notified_at` is set, and the mails sent are that one, plus one for each execution
      that ended between sending and its last commit, plus the one being sent now. */
  lemma NotificationAccounting(acts: seq<Act>, r: RunId)
    requires r in Steps(EMPTY, acts).db.runs
    ensures var w := Steps(EMPTY, acts);
            && (w.db.runs[r].notifiedAt.Some? <==> NotesOf(w.db.notes, r) == 1)
            && NotesOf(w.db.notes, r) <= 1
            && MailsOf(w.outbox, r) == NotesOf(w.db.notes, r) + Get(w.lost, r) + SentBy(w, r)
  {
    AlwaysAccounted(acts, r);
  }

  /** Executions that passed their first commit are requeued at most `max_attempts - 1` times. */
  lemma BoundedRetries(acts: seq<Act>, r: RunId)
    requires r in Steps(EMPTY, acts).db.runs
    ensures var w := Steps(EMPTY, acts);
            Get(w.retries, r) == 0 || Get(w.retries, r) <= w.db.runs[r].maxAttempts - 1
  {
    AlwaysAccounted(acts, r);
  }

  /** The bound does not extend to failures before the first commit: those leave `attempt` as it is,
      so a transient one can be requeued any number of times. */
  lemma {:induction false} EarlyRetriesUnbounded(n: nat) returns (acts: seq<Act>)
    ensures |acts| == n + 1 && acts[0] == Create(0, 0, 0, 1)
    ensures forall i :: 1 <= i <= n ==> acts[i] == EarlyRaise(0, true, "", 0)
    ensures var w := Steps(EMPTY, acts);
            0 in w.db.runs && w.db.runs[0].status.Queued? && w.db.runs[0].attempt == 0 &&
            w.db.runs[0].maxAttempts == 1 && w.flights == map[]
  {
    if n == 0 {
      acts := [Create(0, 0, 0, 1)];
      assert acts[..0] == [];
    } else {
      var before := EarlyRetriesUnbounded(n - 1);
      acts := before + [EarlyRaise(0, true, "", 0)];
      StepsOne(EMPTY, before, EarlyRaise(0, true, "", 0));
    }
  }

  lemma SaveGrowth(w: World, r: RunId)
    requires Flying(w, r)
    ensures |DoSave(w, r).db.matches| - |w.db.matches| == DoSave(w, r).inserted - w.inserted
  {
    if w.flights[r].stage.Computed? {
      GrowthIsCounted(w.db.matches, w.db.runs[r], r, w.flights[r].stage.result.matched);
    }
  }

  /** The table of matches grows by exactly the rows that the saves report as inserted. */
  lemma {:induction false} GrowthIsInserted(acts: seq<Act>)
    ensures |Steps(EMPTY, acts).db.matches| == Steps(EMPTY, acts).inserted
  {
    if acts != [] {
      var w, a := Steps(EMPTY, acts[..|acts| - 1]), acts[|acts| - 1];
      GrowthIsInserted(acts[..|acts| - 1]);
      if !a.Save? {
        QuietStep(w, a);
      } else if Flying(w, a.r) {
        SaveGrowth(w, a.r);
      }
    }
  }

  // ----- lifecycle -----

  /** The two things that break the lifecycle: an exception before the terminal check of a run that
      is already terminal, and a cancel while the run is being executed. */
  predicate Calm(w: World, a: Act) {
    && (a.EarlyRaise? && a.r in w.db.runs ==> !Terminal(w.db.runs[a.r].status))
    && (a.Cancel? ==> a.r !in w.flights)
  }

  /** None of that happens to run `r`; whatever happens to other runs does not matter. */
  ghost predicate CalmRun(w: World, acts: seq<Act>, r: RunId) {
    acts == [] ||
    var front, last := acts[..|acts| - 1], acts[|acts| - 1];
    CalmRun(w, front, r) && (last.r == r ==> Calm(Steps(w, front), last))
  }

  /** The lifecycle of one run, and the report of a run that has notified its user. */
  predicate Orderly(v: View) {
    v.run.Some? ==>
      var run := v.run.value;
      && (run.finishedAt.Some? <==> Terminal(run.status))
      && (run.notifiedAt.Some? ==> Successful(run.status) && v.report == Some(v.owned))
      && (v.flight.Some? ==> run.status.Running?)
      && (v.flight.Some? && v.flight.value.stage.Uploaded? ==> v.flight.value.stage.rows == v.owned)
      && (MailInFlight(v) ==> v.report == Some(v.owned))
  }

  lemma SaveOrderly(w: World, r: RunId)
    requires Flying(w, r) && Orderly(ViewOf(w, r)) && Accounted(ViewOf(w, r))
    ensures Orderly(ViewOf(DoSave(w, r), r))
  {}

  lemma SendOrderly(w: World, r: RunId, userFound: bool)
    requires Flying(w, r) && Orderly(ViewOf(w, r)) && Accounted(ViewOf(w, r))
    ensures Orderly(ViewOf(DoSend(w, r, userFound), r))
  {
    if w.flights[r].stage.Uploaded? {
      MailAppended(w.outbox, Mail(r, w.flights[r].stage.rows), r);
    }
  }

  lemma FinalOrderly(w: World, r: RunId, now: int)
    requires Flying(w, r) && Orderly(ViewOf(w, r)) && Accounted(ViewOf(w, r))
    ensures Orderly(ViewOf(DoFinal(w, r, now), r))
  {}

  lemma UploadOrderly(w: World, r: RunId)
    requires Flying(w, r) && Orderly(ViewOf(w, r)) && Accounted(ViewOf(w, r))
    ensures Orderly(ViewOf(DoUpload(w, r), r))
  {}

  lemma EarlyStagesOrderly(w: World, a: Act)
    requires Flying(w, a.r) && Orderly(ViewOf(w, a.r)) && (a.Load? || a.Compute? || a.Progress?)
    ensures Orderly(ViewOf(Advance(w, a), a.r))
  {}

  lemma AdvanceOrderly(w: World, a: Act)
    requires Flying(w, a.r) && Orderly(ViewOf(w, a.r)) && Accounted(ViewOf(w, a.r)) && Advances(a)
    ensures Orderly(ViewOf(Advance(w, a), a.r))
  {
    match a {
      case Save(r) => SaveOrderly(w, r);
      case Upload(r) => UploadOrderly(w, r);
      case Send(r, userFound) => SendOrderly(w, r, userFound);
      case Final(r, now) => FinalOrderly(w, r, now);
      case _ => EarlyStagesOrderly(w, a);
    }
  }

  lemma EndOrderly(w: World, a: Act)
    requires Accounted(ViewOf(w, a.r)) && Orderly(ViewOf(w, a.r)) && (a.Die? || a.Raise?)
    ensures Orderly(ViewOf(Step(w, a), a.r))
  {}

  lemma OutsideOrderly(w: World, a: Act)
    requires Accounted(ViewOf(w, a.r)) && Orderly(ViewOf(w, a.r)) && Calm(w, a)
    requires a.Create? || a.Cancel? || a.EarlyRaise? || a.Begin?
    ensures Orderly(ViewOf(Step(w, a), a.r))
  {}

  lemma StepOrderly(w: World, a: Act, r: RunId)
    requires Accounted(ViewOf(w, r)) && Orderly(ViewOf(w, r)) && (a.r == r ==> Calm(w, a))
    ensures Orderly(ViewOf(Step(w, a), r))
  {
    if a.r != r {
      StepFrame(w, a, r);
    } else if a.Die? || a.Raise? {
      EndOrderly(w, a);
    } else if !Advances(a) {
      OutsideOrderly(w, a);
    } else if Flying(w, r) {
      AdvanceOrderly(w, a);
    }
  }

  lemma {:induction false} AlwaysOrderly(acts: seq<Act>, r: RunId)
    requires CalmRun(EMPTY, acts, r)
    ensures Orderly(ViewOf(Steps(EMPTY, acts), r))
  {
    if acts != [] {
      AlwaysOrderly(acts[..|acts| - 1], r);
      AlwaysAccounted(acts[..|acts| - 1], r);
      StepOrderly(Steps(EMPTY, acts[..|acts| - 1]), acts[|acts| - 1], r);
    }
  }

  /** In a history that is calm for the run `finished_at` is set exactly if it is terminal, and a
      notified run succeeded in full or in part, its last mail reporting exactly the rows it owns, those
      saved by earlier failed attempts included. */
  lemma LifecycleAndReport(acts: seq<Act>, r: RunId)
    requires CalmRun(EMPTY, acts, r) && r in Steps(EMPTY, acts).db.runs
    ensures var w := Steps(EMPTY, acts);
            && (w.db.runs[r].finishedAt.Some? <==> Terminal(w.db.runs[r].status))
            && (w.db.runs[r].notifiedAt.Some? ==>
                  Successful(w.db.runs[r].status) && LastReport(w.outbox, r) == Some(OwnedRows(w.db.matches, r)))
  {
    AlwaysOrderly(acts, r);
  }

  lemma TerminalStep(w: World, a: Act, r: RunId)
    requires Accounted(ViewOf(w, r)) && Orderly(ViewOf(w, r)) && (a.r == r ==> Calm(w, a))
    requires r in w.db.runs && Terminal(w.db.runs[r].status)
    ensures ViewOf(Step(w, a), r) == ViewOf(w, r)
  {
    if a.r != r {
      StepFrame(w, a, r);
    }
  }

  /** Terminal is absorbing: whatever is redelivered or happens to other runs, nothing about a
      terminal run changes any more, so no row is added after its report. */
  lemma {:induction false} TerminalAbsorbing(pre: seq<Act>, acts: seq<Act>, r: RunId)
    requires CalmRun(EMPTY, pre, r) && CalmRun(Steps(EMPTY, pre), acts, r)
    requires r in Steps(EMPTY, pre).db.runs && Terminal(Steps(EMPTY, pre).db.runs[r].status)
    ensures ViewOf(Steps(Steps(EMPTY, pre), acts), r) == ViewOf(Steps(EMPTY, pre), r)
  {
    var w := Steps(EMPTY, pre);
    AlwaysAccounted(pre, r);
    AlwaysOrderly(pre, r);
    if acts != [] {
      TerminalAbsorbing(pre, acts[..|acts| - 1], r);
      TerminalStep(Steps(w, acts[..|acts| - 1]), acts[|acts| - 1], r);
    }
  }

  // ----- terminal runs, exactly -----

  /** An execution in flight is of a run that is running, or that was cancelled meanwhile. */
  predicate Executing(v: View) {
    v.flight.Some? ==> v.run.Some? && (v.run.value.status.Running? || v.run.value.status.Cancelled?)
  }

  lemma AdvanceExecuting(w: World, a: Act)
    requires Flying(w, a.r) && Advances(a) && Executing(ViewOf(w, a.r))
    ensures Executing(ViewOf(Advance(w, a), a.r))
  {
    match a {
      case Final(r, now) =>
      case Save(r) => SaveKeepsStatus(w, r);
      case _ => AdvanceKeepsStatus(w, a);
    }
  }

  lemma SaveKeepsStatus(w: World, r: RunId)
    requires Flying(w, r)
    ensures r in DoSave(w, r).db.runs && DoSave(w, r).db.runs[r].status == w.db.runs[r].status
  {}

  lemma AdvanceKeepsStatus(w: World, a: Act)
    requires Flying(w, a.r) && !a.Final? && !a.Save?
    ensures a.r in Advance(w, a).db.runs && Advance(w, a).db.runs[a.r].status == w.db.runs[a.r].status
  {}

  lemma StepExecuting(w: World, a: Act, r: RunId)
    requires Executing(ViewOf(w, r))
    ensures Executing(ViewOf(Step(w, a), r))
  {
    if a.r != r {
      StepFrame(w, a, r);
    } else if Advances(a) && Flying(w, r) {
      AdvanceExecuting(w, a);
    }
  }

  lemma {:induction false} AlwaysExecuting(acts: seq<Act>, r: RunId)
    ensures Executing(ViewOf(Steps(EMPTY, acts), r))
  {
    if acts != [] {
      AlwaysExecuting(acts[..|acts| - 1], r);
      StepExecuting(Steps(EMPTY, acts[..|acts| - 1]), acts[|acts| - 1], r);
    }
  }

  /** The steps that write over a terminal status: what the execution of a run cancelled in flight does
      at its last commit or in its failure handler, and, with none in flight, an exception raised before
      the terminal check, unless the handler would only write `failed` over `failed`. */
  predicate Overwrites(w: World, a: Act, r: RunId) {
    a.r == r && r in w.db.runs &&
    if r in w.flights then a.Raise? || (a.Final? && w.flights[r].stage.Settled?)
    else a.EarlyRaise? && (Requeues(w.db.runs[r], a.transient) || !w.db.runs[r].status.Failed?)
  }

  lemma OwnStepOverwrites(w: World, a: Act)
    requires Executing(ViewOf(w, a.r)) && a.r in w.db.runs && Terminal(w.db.runs[a.r].status)
    ensures a.r in Step(w, a).db.runs
    ensures Step(w, a).db.runs[a.r].status != w.db.runs[a.r].status <==> Overwrites(w, a, a.r)
  {
    var r := a.r;
    if Advances(a) && Flying(w, r) {
      if a.Save? {
        SaveKeepsStatus(w, r);
      } else if !a.Final? {
        AdvanceKeepsStatus(w, a);
      }
    }
  }

  /** In every reachable world, one step changes the status of a terminal run if and only if it is one
      of those. */
  lemma TerminalLeftExactly(acts: seq<Act>, a: Act, r: RunId)
    requires r in Steps(EMPTY, acts).db.runs && Terminal(Steps(EMPTY, acts).db.runs[r].status)
    ensures var w := Steps(EMPTY, acts);
            r in Step(w, a).db.runs && (Step(w, a).db.runs[r].status != w.db.runs[r].status <==> Overwrites(w, a, r))
  {
    var w := Steps(EMPTY, acts);
    AlwaysExecuting(acts, r);
    if a.r != r {
      StepFrame(w, a, r);
      assert ViewOf(Step(w, a), r).run == Some(w.db.runs[r]);
    } else {
      OwnStepOverwrites(w, a);
    }
  }

  predicate StatusIs(w: World, r: RunId, s: Status) { r in w.db.runs && w.db.runs[r].status == s }

  /** The status is `s` now and after each of the steps. */
  ghost predicate Keeps(w: World, acts: seq<Act>, r: RunId, s: Status) {
    StatusIs(Steps(w, acts), r, s) && (acts == [] || Keeps(w, acts[..|acts| - 1], r, s))
  }

  /** No step writes over the status when it is taken. */
  ghost predicate Spared(w: World, acts: seq<Act>, r: RunId) {
    acts == [] ||
    (Spared(w, acts[..|acts| - 1], r) && !Overwrites(Steps(w, acts[..|acts| - 1]), acts[|acts| - 1], r))
  }

  /** Over whole histories: a terminal status, a cancel during an execution included, outlives a sequence
      of steps if and only if none of them is one of those when it is taken. */
  lemma {:induction false} TerminalKeptExactly(pre: seq<Act>, acts: seq<Act>, r: RunId)
    requires r in Steps(EMPTY, pre).db.runs && Terminal(Steps(EMPTY, pre).db.runs[r].status)
    ensures var w := Steps(EMPTY, pre); Keeps(w, acts, r, w.db.runs[r].status) <==> Spared(w, acts, r)
  {
    if acts != [] {
      var w, front, last := Steps(EMPTY, pre), acts[..|acts| - 1], acts[|acts| - 1];
      var s := w.db.runs[r].status;
      TerminalKeptExactly(pre, front, r);
      if StatusIs(Steps(w, front), r, s) {
        StepsConcat(EMPTY, pre, front);
        TerminalLeftExactly(pre + front, last, r);
        KeptOneMore(w, acts, r, s);
      } else {
        NotKept(w, front, r, s);
      }
    }
  }

  /** In particular a cancel of a waiting or running run: it takes effect, and lasts if and only if what
      follows holds no last commit and no exception of an execution then in flight, and no exception
      before the terminal check. */
  lemma {:induction false} CancelKeptExactly(pre: seq<Act>, user: UserId, now: int, acts: seq<Act>, r: RunId)
    requires r in Steps(EMPTY, pre).db.runs && Steps(EMPTY, pre).db.runs[r].userId == user
    requires !Terminal(Steps(EMPTY, pre).db.runs[r].status)
    ensures var w := Step(Steps(EMPTY, pre), Cancel(r, user, now));
            && StatusIs(w, r, Cancelled) && w.flights == Steps(EMPTY, pre).flights
            && (Keeps(w, acts, r, Cancelled) <==> Spared(w, acts, r))
  {
    var cancelled := pre + [Cancel(r, user, now)];
    StepsOne(EMPTY, pre, Cancel(r, user, now));
    CancelTakesEffect(Steps(EMPTY, pre), r, user, now);
    TerminalKeptExactly(cancelled, acts, r);
  }

  lemma CancelTakesEffect(w: World, r: RunId, user: UserId, now: int)
    requires r in w.db.runs && w.db.runs[r].userId == user && !Terminal(w.db.runs[r].status)
    ensures StatusIs(Step(w, Cancel(r, user, now)), r, Cancelled) && Step(w, Cancel(r, user, now)).flights == w.flights
  {}

  lemma KeptOneMore(w: World, acts: seq<Act>, r: RunId, s: Status)
    requires acts != [] && StatusIs(Steps(w, acts[..|acts| - 1]), r, s)
    requires StatusIs(Step(Steps(w, acts[..|acts| - 1]), acts[|acts| - 1]), r, s) <==>
             !Overwrites(Steps(w, acts[..|acts| - 1]), acts[|acts| - 1], r)
    requires Keeps(w, acts[..|acts| - 1], r, s) <==> Spared(w, acts[..|acts| - 1], r)
    ensures Keeps(w, acts, r, s) <==> Spared(w, acts, r)
  {}

  lemma NotKept(w: World, front: seq<Act>, r: RunId, s: Status)
    requires !StatusIs(Steps(w, front), r, s)
    ensures !Keeps(w, front, r, s)
  {}

  const QUIET := EngineResult(0, 0, [], map[], map[], false)

  /** A reachable finished run that a transient exception on redelivery puts back in the queue. */
  lemma EarlyRaiseRequeuesFinished() returns (acts: seq<Act>, a: Act)
    ensures a.EarlyRaise? && CalmRun(EMPTY, acts, 0) && 0 in Steps(EMPTY, acts).db.runs
    ensures Steps(EMPTY, acts).db.runs[0].status.Succeeded?
    ensures Step(Steps(EMPTY, acts), a).db.runs[0].status.Queued? &&
              Step(Steps(EMPTY, acts), a).db.runs[0].finishedAt.Some?
  {
    var fly := ToLastCommit();
    acts := fly + [Final(0, 2)];
    a := EarlyRaise(0, true, "", 3);
    assert acts[..|acts| - 1] == fly;
  }

  /** A cancel while the run is executed is overwritten by the last commit. */
  lemma CancelInFlightIsLost() returns (acts: seq<Act>)
    ensures acts != [] && acts[|acts| - 1] == Cancel(0, 0, 2)
    ensures var w := Steps(EMPTY, acts);
            0 in w.db.runs && w.db.runs[0].status.Cancelled? && 0 in Step(w, Final(0, 3)).db.runs &&
            Step(w, Final(0, 3)).db.runs[0].status.Succeeded?
  {
    var fly := ToLastCommit();
    acts := fly + [Cancel(0, 0, 2)];
    StepsOne(EMPTY, fly, Cancel(0, 0, 2));
  }

  /** An execution that found nothing, up to its last commit. */
  lemma ToLastCommit() returns (acts: seq<Act>)
    ensures CalmRun(EMPTY, acts, 0)
    ensures var w := Steps(EMPTY, acts);
            && 0 in w.db.runs && w.db.runs[0].status.Running? && w.db.runs[0].userId == 0
            && w.db.runs[0].attempt == 1 && w.db.runs[0].maxAttempts == 3
            && 0 in w.flights && w.flights[0].stage == Settled(QUIET, false, false)
  {
    acts := [Create(0, 0, 0, 3)];
    StepsOne(EMPTY, [], acts[0]);
    var waiting := Steps(EMPTY, acts);
    assert waiting.db.runs == map[0 := Run(0, 0, Queued, 0, 3, None, None, None, None, None, None)];
    assert waiting.flights == map[] && waiting.db.matches == map[];
    QuietStart(waiting);
    acts := CalmThen(acts, Begin(0, 1));
    acts := CalmThen(acts, Load(0));
    acts := CalmThen(acts, Compute(0, QUIET));
    QuietEnd(Steps(EMPTY, acts));
    acts := CalmThen(acts, Save(0));
    acts := CalmThen(acts, Upload(0));
  }

  lemma QuietStart(w: World)
    requires w.db.runs == map[0 := Run(0, 0, Queued, 0, 3, None, None, None, None, None, None)] && w.flights == map[]
    requires w.db.matches == map[]
    ensures var v := Step(Step(Step(w, Begin(0, 1)), Load(0)), Compute(0, QUIET));
            && Flying(v, 0) && v.flights[0] == Flight(Computed({}, QUIET), None) && v.db.matches == map[]
            && v.db.runs[0].status.Running? && v.db.runs[0].userId == 0 && v.db.runs[0].attempt == 1 &&
                 v.db.runs[0].maxAttempts == 3
  {
    var w1 := Step(w, Begin(0, 1));
    assert Flying(w1, 0) && w1.flights[0] == Flight(Started, None);
    var w2 := Step(w1, Load(0));
    assert Flying(w2, 0) && w2.flights[0].stage == Loaded({});
  }

  lemma QuietEnd(w: World)
    requires Flying(w, 0) && w.flights[0] == Flight(Computed({}, QUIET), None) && w.db.matches == map[]
    ensures var v := Step(Step(w, Save(0)), Upload(0));
            && Flying(v, 0) && v.flights[0].stage == Settled(QUIET, false, false)
            && v.db.runs[0].(stats := None) == w.db.runs[0].(stats := None)
  {
    QuietSave(w, 0);
    var saved := Step(w, Save(0));
    NoRows(saved.db.matches, 0);
    QuietUpload(saved, 0);
  }

  lemma NoRows(matches: Matches, r: RunId)
    requires matches == map[]
    ensures OwnedRows(matches, r) == map[]
  {}

  lemma QuietUpload(w: World, r: RunId)
    requires Flying(w, r) && w.flights[r].stage == Persisted(QUIET) && OwnedRows(w.db.matches, r) == map[]
    ensures var v := Step(w, Upload(r));
            Flying(v, r) && v.flights[r].stage == Settled(QUIET, false, false) && v.db == w.db
  {}

  lemma CalmThen(acts: seq<Act>, a: Act) returns (more: seq<Act>)
    requires CalmRun(EMPTY, acts, 0) && !a.EarlyRaise? && !a.Cancel?
    ensures more == acts + [a] && CalmRun(EMPTY, more, 0) && Steps(EMPTY, more) == Step(Steps(EMPTY, acts), a)
  {
    more := acts + [a];
    assert more[..|more| - 1] == acts;
  }

  lemma QuietSave(w: World, r: RunId)
    requires Flying(w, r) && w.flights[r].stage.Computed? && w.flights[r].stage.result == QUIET
    ensures var v := Step(w, Save(r));
            && Flying(v, r) && v.db.matches == w.db.matches && v.flights[r].stage == Persisted(QUIET)
            && v.db.runs[r].(stats := None) == w.db.runs[r].(stats := None)
  {
    assert Step(w, Save(r)) == DoSave(w, r);
  }
}
