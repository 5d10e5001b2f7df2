/** When `finished_at` agrees with the status, and when the mailed report still covers the run, exactly. */
module RunReports {
  import opened Wrappers
  import opened EngineTypes
  import opened Engine
  import opened RunSteps
  import opened RunInvariants
  import opened RunWorker
  import opened RunMails

  // ----- finished_at -----

  /** A terminal run has its `finished_at`. */
  predicate Stamped(v: View) { v.run.Some? && Terminal(v.run.value.status) ==> v.run.value.finishedAt.Some? }

  /** `finished_at` is set exactly if the run is terminal. */
  predicate Agrees(w: World, r: RunId) {
    r in w.db.runs && (w.db.runs[r].finishedAt.Some? <==> Terminal(w.db.runs[r].status))
  }

  predicate SameEnd(run: Run, later: Run) { later.status == run.status && later.finishedAt == run.finishedAt }

  lemma SaveKeepsEnd(w: World, r: RunId)
    requires Flying(w, r)
    ensures r in DoSave(w, r).db.runs && SameEnd(w.db.runs[r], DoSave(w, r).db.runs[r])
  {}

  lemma AdvanceKeepsEnd(w: World, a: Act)
    requires Flying(w, a.r) && Advances(a) && !a.Final? && !a.Save?
    ensures a.r in Advance(w, a).db.runs && SameEnd(w.db.runs[a.r], Advance(w, a).db.runs[a.r])
  {}

  lemma FinalStamps(w: World, r: RunId, now: int)
    requires Flying(w, r)
    ensures var v := DoFinal(w, r, now);
            && r in v.db.runs
            && if w.flights[r].stage.Settled? then Terminal(v.db.runs[r].status) && v.db.runs[r].finishedAt.Some?
               else SameEnd(w.db.runs[r], v.db.runs[r])
  {}

  lemma RaiseEnd(w: World, a: Act)
    requires a.r in w.db.runs && (a.Raise? || a.EarlyRaise?)
    ensures a.r in Step(w, a).db.runs
    ensures var run, later := w.db.runs[a.r], Step(w, a).db.runs[a.r];
            if !Handles(w, a) then later == run
            else if a.transient && run.attempt < run.maxAttempts then
              later.status.Queued? && later.error == Some(a.message) && later.finishedAt == run.finishedAt
            else later.status.Failed? && later.error == Some(a.message) && later.finishedAt == Some(a.now)
  {}

  /** The failure handler runs: after an exception of an execution in flight, or of one that had not begun. */
  predicate Handles(w: World, a: Act) {
    (a.Raise? && a.r in w.flights) || (a.EarlyRaise? && a.r !in w.flights)
  }

  lemma OutsideEnd(w: World, a: Act)
    requires a.r in w.db.runs && (a.Create? || a.Cancel? || a.Begin? || a.Die?)
    ensures a.r in Step(w, a).db.runs
    ensures var run, later := w.db.runs[a.r], Step(w, a).db.runs[a.r];
            || SameEnd(run, later)
            || (a.Cancel? && !Terminal(run.status) && later.status.Cancelled? && later.finishedAt.Some?)
            || (a.Begin? && !Terminal(run.status) && later.status.Running? && later.finishedAt == run.finishedAt)
  {}

  /** What a step can do to the status and `finished_at` of its run. */
  lemma OwnStepEnd(w: World, a: Act)
    requires a.r in w.db.runs
    ensures a.r in Step(w, a).db.runs
    ensures var run, later := w.db.runs[a.r], Step(w, a).db.runs[a.r];
            || SameEnd(run, later)
            || (Terminal(later.status) && later.finishedAt.Some?)
            || (a.Begin? && !Terminal(run.status) && later.status.Running? && later.finishedAt == run.finishedAt)
            || (Handles(w, a) && Requeues(run, a.transient))
  {
    if a.Raise? || a.EarlyRaise? {
      RaiseEnd(w, a);
    } else if !Advances(a) {
      OutsideEnd(w, a);
    } else if Flying(w, a.r) {
      match a {
        case Final(r, now) => FinalStamps(w, r, now);
        case Save(r) => SaveKeepsEnd(w, r);
        case _ => AdvanceKeepsEnd(w, a);
      }
    }
  }

  lemma CreateStamped(w: World, a: Act)
    requires a.r !in w.db.runs && a.r !in w.flights
    ensures Stamped(ViewOf(Step(w, a), a.r))
  {}

  lemma StepStamped(w: World, a: Act, r: RunId)
    requires Accounted(ViewOf(w, r)) && Stamped(ViewOf(w, r))
    ensures Stamped(ViewOf(Step(w, a), r))
  {
    if a.r != r {
      StepFrame(w, a, r);
    } else if r in w.db.runs {
      OwnStepEnd(w, a);
      if a.Raise? || a.EarlyRaise? {
        RaiseEnd(w, a);
      }
    } else {
      CreateStamped(w, a);
    }
  }

  lemma {:induction false} AlwaysStampedView(acts: seq<Act>, r: RunId)
    ensures Stamped(ViewOf(Steps(EMPTY, acts), r))
  {
    if acts != [] {
      AlwaysStampedView(acts[..|acts| - 1], r);
      AlwaysAccounted(acts[..|acts| - 1], r);
      StepStamped(Steps(EMPTY, acts[..|acts| - 1]), acts[|acts| - 1], r);
    }
  }

  /** In every reachable world a terminal run has its `finished_at`. */
  lemma AlwaysStamped(acts: seq<Act>, r: RunId)
    requires r in Steps(EMPTY, acts).db.runs && Terminal(Steps(EMPTY, acts).db.runs[r].status)
    ensures Steps(EMPTY, acts).db.runs[r].finishedAt.Some?
  {
    AlwaysStampedView(acts, r);
  }

  /** The failure handler puts a terminal run back in the queue. */
  predicate Reopens(w: World, a: Act, r: RunId) {
    && a.r == r && r in w.db.runs && Terminal(w.db.runs[r].status)
    && Handles(w, a) && Requeues(w.db.runs[r], a.transient)
  }

  /** Where the two agree in a reachable world, one step breaks that if and only if the failure handler
      requeues the run although it is terminal: cancelled in flight and then failing transiently, or
      failing transiently before its terminal check. */
  lemma FinishedAtLeftExactly(acts: seq<Act>, a: Act, r: RunId)
    requires Agrees(Steps(EMPTY, acts), r)
    ensures !Agrees(Step(Steps(EMPTY, acts), a), r) <==> Reopens(Steps(EMPTY, acts), a, r)
  {
    var w := Steps(EMPTY, acts);
    if a.r != r {
      StepFrame(w, a, r);
      assert ViewOf(Step(w, a), r).run == Some(w.db.runs[r]);
    } else {
      OwnStepEnd(w, a);
      if a.Raise? || a.EarlyRaise? {
        RaiseEnd(w, a);
      }
    }
  }

  ghost predicate AgreesThroughout(w: World, acts: seq<Act>, r: RunId) {
    Agrees(Steps(w, acts), r) && (acts == [] || AgreesThroughout(w, acts[..|acts| - 1], r))
  }

  ghost predicate NeverReopened(w: World, acts: seq<Act>, r: RunId) {
    acts == [] ||
    (NeverReopened(w, acts[..|acts| - 1], r) && !Reopens(Steps(w, acts[..|acts| - 1]), acts[|acts| - 1], r))
  }

  /** Over whole histories: `finished_at` keeps agreeing with the status if and only if the failure handler
      never requeues the run while it is terminal. */
  lemma {:induction false} FinishedAtKeptExactly(pre: seq<Act>, acts: seq<Act>, r: RunId)
    requires Agrees(Steps(EMPTY, pre), r)
    ensures AgreesThroughout(Steps(EMPTY, pre), acts, r) <==> NeverReopened(Steps(EMPTY, pre), acts, r)
  {
    if acts != [] {
      var w, front, last := Steps(EMPTY, pre), acts[..|acts| - 1], acts[|acts| - 1];
      FinishedAtKeptExactly(pre, front, r);
      if Agrees(Steps(w, front), r) {
        StepsConcat(EMPTY, pre, front);
        FinishedAtLeftExactly(pre + front, last, r);
      } else {
        assert !AgreesThroughout(w, front, r);
      }
    }
  }

  // ----- start, error and statistics -----

  /** A run has a start exactly if it was attempted; a failed one has its error, a successful one has none, and
      its statistics; an execution past its save runs on a row with the statistics of its result. */
  predicate Booked(v: View) {
    v.run.Some? ==>
      var run := v.run.value;
      && (run.startedAt.Some? <==> run.attempt > 0)
      && (run.status.Failed? ==> run.error.Some?)
      && (Successful(run.status) ==> run.error.None? && run.stats.Some?)
      && (v.flight.Some? ==> run.error.None? && BookedFor(run, v.flight.value.stage))
  }

  predicate BookedFor(run: Run, stage: Stage) {
    stage.Persisted? || stage.Uploaded? || stage.Settled? ==>
      run.stats.Some? && run.stats.value.scraped == stage.result.scraped &&
      run.stats.value.newCount == stage.result.newCount && run.stats.value.matched == |stage.result.matched|
  }

  lemma AdvanceBooked(w: World, a: Act)
    requires Flying(w, a.r) && Booked(ViewOf(w, a.r)) && Advances(a) && !a.Save? && !a.Final?
    ensures Booked(ViewOf(Advance(w, a), a.r))
  {}

  lemma SaveBooked(w: World, r: RunId)
    requires Flying(w, r) && Booked(ViewOf(w, r))
    ensures Booked(ViewOf(DoSave(w, r), r))
  {}

  lemma FinalBooked(w: World, r: RunId, now: int)
    requires Flying(w, r) && Booked(ViewOf(w, r))
    ensures Booked(ViewOf(DoFinal(w, r, now), r))
  {}

  lemma RaiseBooked(w: World, a: Act)
    requires Accounted(ViewOf(w, a.r)) && Booked(ViewOf(w, a.r)) && (a.Raise? || a.EarlyRaise?)
    ensures Booked(ViewOf(Step(w, a), a.r))
  {}

  lemma OutsideBooked(w: World, a: Act)
    requires Accounted(ViewOf(w, a.r)) && Booked(ViewOf(w, a.r)) && (a.Create? || a.Cancel? || a.Begin? || a.Die?)
    ensures Booked(ViewOf(Step(w, a), a.r))
  {}

  lemma StepBooked(w: World, a: Act, r: RunId)
    requires Accounted(ViewOf(w, r)) && Booked(ViewOf(w, r))
    ensures Booked(ViewOf(Step(w, a), r))
  {
    if a.r != r {
      StepFrame(w, a, r);
    } else if a.Raise? || a.EarlyRaise? {
      RaiseBooked(w, a);
    } else if !Advances(a) {
      OutsideBooked(w, a);
    } else if Flying(w, r) {
      match a {
        case Save(_) => SaveBooked(w, r);
        case Final(_, now) => FinalBooked(w, r, now);
        case _ => AdvanceBooked(w, a);
      }
    }
  }

  /** So it is in every reachable world. */
  lemma {:induction false} AlwaysBooked(acts: seq<Act>, r: RunId)
    ensures Booked(ViewOf(Steps(EMPTY, acts), r))
  {
    if acts != [] {
      AlwaysBooked(acts[..|acts| - 1], r);
      AlwaysAccounted(acts[..|acts| - 1], r);
      StepBooked(Steps(EMPTY, acts[..|acts| - 1]), acts[|acts| - 1], r);
    }
  }

  function StartOf(w: World, r: RunId): Option<int> { if r in w.db.runs then w.db.runs[r].startedAt else None }

  lemma AdvanceKeepsStart(w: World, a: Act)
    requires Flying(w, a.r)
    ensures StartOf(Advance(w, a), a.r) == StartOf(w, a.r)
  {}

  lemma StartStep(w: World, a: Act, r: RunId)
    ensures StartOf(Step(w, a), r) != StartOf(w, r) ==>
              StartOf(w, r).None? && a.Begin? && a.r == r && StartOf(Step(w, a), r) == Some(a.now)
  {
    if a.r != r {
      StepOther(w, a, r);
    } else if Flying(w, r) {
      AdvanceKeepsStart(w, a);
    }
  }

  /** `started_at` is the time of the first attempt that began, whatever retries, cancels and requeues follow. */
  lemma {:induction false} StartKept(w: World, acts: seq<Act>, r: RunId)
    ensures StartOf(w, r).Some? ==> StartOf(Steps(w, acts), r) == StartOf(w, r)
    ensures StartOf(w, r).None? && StartOf(Steps(w, acts), r).Some? ==>
              exists k :: 0 <= k < |acts| && acts[k].Begin? && acts[k].r == r &&
                          StartOf(Steps(w, acts), r) == Some(acts[k].now) && StartOf(Steps(w, acts[..k]), r).None?
  {
    if acts != [] {
      var n := |acts| - 1;
      StartKept(w, acts[..n], r);
      StartStep(Steps(w, acts[..n]), acts[n], r);
      assert forall k :: 0 <= k < n ==> acts[..n][k] == acts[k] && acts[..n][..k] == acts[..k];
    }
  }

  // ----- the report -----

  /** The run has notified its user, and its last mail reports exactly the rows it owns. */
  predicate Covered(w: World, r: RunId) {
    r in w.db.runs && w.db.runs[r].notifiedAt.Some? && LastReport(w.outbox, r) == Some(OwnedRows(w.db.matches, r))
  }

  /** A notified run is over and its report is complete; a report on its way is complete. */
  predicate Told(v: View) {
    v.run.Some? ==>
      var run := v.run.value;
      && (run.notifiedAt.Some? ==> v.flight.None? && Terminal(run.status) && v.report == Some(v.owned))
      && (v.flight.Some? && v.flight.value.stage.Uploaded? ==> v.flight.value.stage.rows == v.owned)
      && (MailInFlight(v) ==> v.report == Some(v.owned))
  }

  /** An exception before the terminal check puts a notified run back in the queue. */
  predicate RequeuesNotified(w: World, a: Act, r: RunId) {
    && a.EarlyRaise? && a.r == r && r in w.db.runs && r !in w.flights
    && w.db.runs[r].notifiedAt.Some? && Requeues(w.db.runs[r], a.transient)
  }

  ghost predicate LeftAlone(w: World, acts: seq<Act>, r: RunId) {
    acts == [] ||
    (LeftAlone(w, acts[..|acts| - 1], r) && !RequeuesNotified(Steps(w, acts[..|acts| - 1]), acts[|acts| - 1], r))
  }

  lemma SaveTold(w: World, r: RunId)
    requires Flying(w, r) && Told(ViewOf(w, r))
    ensures Told(ViewOf(DoSave(w, r), r))
  {}

  lemma SendTold(w: World, r: RunId, userFound: bool)
    requires Flying(w, r) && Told(ViewOf(w, r))
    ensures Told(ViewOf(DoSend(w, r, userFound), r))
  {
    if w.flights[r].stage.Uploaded? {
      MailAppended(w.outbox, Mail(r, w.flights[r].stage.rows), r);
    }
  }

  lemma UploadTold(w: World, r: RunId)
    requires Flying(w, r) && Told(ViewOf(w, r))
    ensures Told(ViewOf(DoUpload(w, r), r))
  {}

  lemma FinalTold(w: World, r: RunId, now: int)
    requires Flying(w, r) && Told(ViewOf(w, r))
    ensures Told(ViewOf(DoFinal(w, r, now), r))
  {}

  lemma EarlyStagesTold(w: World, a: Act)
    requires Flying(w, a.r) && Told(ViewOf(w, a.r)) && (a.Load? || a.Compute? || a.Progress?)
    ensures Told(ViewOf(Advance(w, a), a.r))
  {}

  lemma AdvanceTold(w: World, a: Act)
    requires Flying(w, a.r) && Told(ViewOf(w, a.r)) && Advances(a)
    ensures Told(ViewOf(Advance(w, a), a.r))
  {
    match a {
      case Save(r) => SaveTold(w, r);
      case Upload(r) => UploadTold(w, r);
      case Send(r, userFound) => SendTold(w, r, userFound);
      case Final(r, now) => FinalTold(w, r, now);
      case _ => EarlyStagesTold(w, a);
    }
  }

  lemma EndTold(w: World, a: Act)
    requires Told(ViewOf(w, a.r)) && (a.Die? || a.Raise?)
    ensures Told(ViewOf(Step(w, a), a.r))
  {}

  lemma OutsideTold(w: World, a: Act)
    requires Accounted(ViewOf(w, a.r)) && Told(ViewOf(w, a.r)) && !RequeuesNotified(w, a, a.r)
    requires a.Create? || a.Cancel? || a.EarlyRaise? || a.Begin?
    ensures Told(ViewOf(Step(w, a), a.r))
  {}

  lemma StepTold(w: World, a: Act, r: RunId)
    requires Accounted(ViewOf(w, r)) && Told(ViewOf(w, r)) && !RequeuesNotified(w, a, r)
    ensures Told(ViewOf(Step(w, a), r))
  {
    if a.r != r {
      StepFrame(w, a, r);
    } else if a.Die? || a.Raise? {
      EndTold(w, a);
    } else if !Advances(a) {
      OutsideTold(w, a);
    } else if Flying(w, r) {
      AdvanceTold(w, a);
    }
  }

  lemma {:induction false} AlwaysTold(acts: seq<Act>, r: RunId)
    requires LeftAlone(EMPTY, acts, r)
    ensures Told(ViewOf(Steps(EMPTY, acts), r))
  {
    if acts != [] {
      AlwaysTold(acts[..|acts| - 1], r);
      AlwaysAccounted(acts[..|acts| - 1], r);
      StepTold(Steps(EMPTY, acts[..|acts| - 1]), acts[|acts| - 1], r);
    }
  }

  /** Cancels in flight and early exceptions included: until an early exception requeues the run after it
      has notified its user, a notified run is over, terminal, and its last mail reports exactly the rows it
      owns, those saved by earlier failed attempts included. */
  lemma ReportCovers(acts: seq<Act>, r: RunId)
    requires LeftAlone(EMPTY, acts, r)
    requires r in Steps(EMPTY, acts).db.runs && Steps(EMPTY, acts).db.runs[r].notifiedAt.Some?
    ensures var w := Steps(EMPTY, acts);
            && Covered(w, r) && r !in w.flights && Terminal(w.db.runs[r].status)
            && forall key :: (key in LastReport(w.outbox, r).value <==>
                                key in w.db.matches && w.db.matches[key].runId == r) &&
                             (key in LastReport(w.outbox, r).value ==>
                                LastReport(w.outbox, r).value[key] == w.db.matches[key])
  {
    AlwaysTold(acts, r);
  }

  // ----- the stored report -----

  function ObjectOf(w: World, r: RunId): Option<Matches> { if r in w.objects then Some(w.objects[r]) else None }

  /** A report key has its object; a notified run's object is what was mailed last. */
  predicate Stored(v: View, put: Option<Matches>, r: RunId) {
    && (v.run.Some? && v.run.value.reportKey.Some? ==> put.Some? && v.run.value.reportKey == Some(r))
    && (v.run.Some? && v.run.value.notifiedAt.Some? ==> v.run.value.reportKey.Some? && put == v.report)
    && (v.flight.Some? ==> OnItsWay(v, put, v.flight.value.stage))
  }

  predicate OnItsWay(v: View, put: Option<Matches>, stage: Stage) {
    match stage
    case Uploaded(_, rows) => put == Some(rows)
    case Settled(_, reported, sent) => (reported ==> put.Some?) && (sent ==> reported && put == v.report)
    case _ => true
  }

  lemma ObjectFrame(w: World, a: Act, r: RunId)
    requires a.r != r || !a.Upload?
    ensures ObjectOf(Step(w, a), r) == ObjectOf(w, r)
  {
    if Flying(w, a.r) {
      AdvanceObject(w, a, r);
    }
  }

  lemma AdvanceObject(w: World, a: Act, r: RunId)
    requires Flying(w, a.r) && (a.r != r || !a.Upload?)
    ensures ObjectOf(Advance(w, a), r) == ObjectOf(w, r)
  {}

  lemma UploadStored(w: World, r: RunId)
    requires Flying(w, r) && Accounted(ViewOf(w, r)) && Stored(ViewOf(w, r), ObjectOf(w, r), r)
    ensures Stored(ViewOf(DoUpload(w, r), r), ObjectOf(DoUpload(w, r), r), r)
  {}

  lemma SendStored(w: World, r: RunId, userFound: bool)
    requires Flying(w, r) && Accounted(ViewOf(w, r)) && Stored(ViewOf(w, r), ObjectOf(w, r), r)
    ensures Stored(ViewOf(DoSend(w, r, userFound), r), ObjectOf(w, r), r)
  {
    if w.flights[r].stage.Uploaded? {
      MailAppended(w.outbox, Mail(r, w.flights[r].stage.rows), r);
    }
  }

  lemma FinalStored(w: World, r: RunId, now: int)
    requires Flying(w, r) && Stored(ViewOf(w, r), ObjectOf(w, r), r)
    ensures Stored(ViewOf(DoFinal(w, r, now), r), ObjectOf(w, r), r)
  {}

  lemma SaveStored(w: World, r: RunId)
    requires Flying(w, r) && Stored(ViewOf(w, r), ObjectOf(w, r), r)
    ensures Stored(ViewOf(DoSave(w, r), r), ObjectOf(w, r), r)
  {}

  lemma EarlyStagesStored(w: World, a: Act)
    requires Flying(w, a.r) && Stored(ViewOf(w, a.r), ObjectOf(w, a.r), a.r) && (a.Load? || a.Compute? || a.Progress?)
    ensures Stored(ViewOf(Advance(w, a), a.r), ObjectOf(w, a.r), a.r)
  {}

  lemma OutsideStored(w: World, a: Act)
    requires Accounted(ViewOf(w, a.r)) && Stored(ViewOf(w, a.r), ObjectOf(w, a.r), a.r) && !Advances(a)
    ensures Stored(ViewOf(Step(w, a), a.r), ObjectOf(w, a.r), a.r)
  {}

  lemma OwnStepStored(w: World, a: Act)
    requires Accounted(ViewOf(w, a.r)) && Stored(ViewOf(w, a.r), ObjectOf(w, a.r), a.r)
    ensures Stored(ViewOf(Step(w, a), a.r), ObjectOf(Step(w, a), a.r), a.r)
  {
    if a.Upload? {
      if Flying(w, a.r) {
        UploadStored(w, a.r);
      }
    } else {
      ObjectFrame(w, a, a.r);
      if !Advances(a) {
        OutsideStored(w, a);
      } else if Flying(w, a.r) {
        match a {
          case Save(r) => SaveStored(w, r);
          case Send(r, userFound) => SendStored(w, r, userFound);
          case Final(r, now) => FinalStored(w, r, now);
          case _ => EarlyStagesStored(w, a);
        }
      }
    }
  }

  lemma {:induction false} AlwaysStored(acts: seq<Act>, r: RunId)
    ensures Stored(ViewOf(Steps(EMPTY, acts), r), ObjectOf(Steps(EMPTY, acts), r), r)
  {
    if acts != [] {
      var w, a := Steps(EMPTY, acts[..|acts| - 1]), acts[|acts| - 1];
      AlwaysStored(acts[..|acts| - 1], r);
      AlwaysAccounted(acts[..|acts| - 1], r);
      if a.r == r {
        OwnStepStored(w, a);
      } else {
        StepFrame(w, a, r);
        ObjectFrame(w, a, r);
      }
    }
  }

  /** In every reachable world a report key leads to a stored report, and that of a run that has notified its
      user is what the last mail reported. */
  lemma ReportStored(acts: seq<Act>, r: RunId)
    requires r in Steps(EMPTY, acts).db.runs
    ensures var w := Steps(EMPTY, acts);
            var run := w.db.runs[r];
            && (run.reportKey.Some? ==> run.reportKey == Some(r) && r in w.objects)
            && (run.notifiedAt.Some? ==> run.reportKey.Some? && LastReport(w.outbox, r) == Some(w.objects[r]))
  {
    AlwaysStored(acts, r);
  }

  // ----- how a report stops covering its run -----

  lemma {:induction false} NothingInserted(matches: Matches, run: Run, r: RunId, ms: seq<MatchedJob>)
    requires Inserted(matches, run, r, ms) == 0
    ensures InsertAll(matches, run, r, ms) == matches
  {
    if ms != [] {
      NothingInserted(matches, run, r, ms[..|ms| - 1]);
    }
  }

  lemma {:induction false} SomethingInserted(matches: Matches, run: Run, r: RunId, ms: seq<MatchedJob>)
    returns (key: (UserId, string))
    requires Inserted(matches, run, r, ms) > 0
    ensures key !in matches && key in InsertAll(matches, run, r, ms) && InsertAll(matches, run, r, ms)[key].runId == r
  {
    var front, last := ms[..|ms| - 1], ms[|ms| - 1];
    key := (run.userId, last.job.externalHash);
    if key in InsertAll(matches, run, r, front) {
      key := SomethingInserted(matches, run, r, front);
    } else {
      InsertAllKeeps(matches, run, r, front);
    }
  }

  /** Inserting leaves a run's rows as they were exactly if no insert takes effect. */
  lemma OwnedKeptExactly(matches: Matches, run: Run, r: RunId, ms: seq<MatchedJob>)
    ensures OwnedRows(InsertAll(matches, run, r, ms), r) == OwnedRows(matches, r) <==>
            Inserted(matches, run, r, ms) == 0
  {
    if Inserted(matches, run, r, ms) == 0 {
      NothingInserted(matches, run, r, ms);
    } else {
      var key := SomethingInserted(matches, run, r, ms);
      assert key in OwnedRows(InsertAll(matches, run, r, ms), r) && key !in OwnedRows(matches, r);
    }
  }

  /** The step saves a result of which at least one match is new. */
  predicate AddsRows(w: World, a: Act, r: RunId) {
    && a.Save? && a.r == r && Flying(w, r) && w.flights[r].stage.Computed?
    && Inserted(w.db.matches, w.db.runs[r], r, w.flights[r].stage.result.matched) > 0
  }

  /** Nothing about the run's notification changes. */
  predicate SameTelling(w: World, v: World, r: RunId) {
    && r in w.db.runs && r in v.db.runs && v.db.runs[r].notifiedAt == w.db.runs[r].notifiedAt
    && LastReport(v.outbox, r) == LastReport(w.outbox, r)
  }

  lemma SaveTelling(w: World, r: RunId)
    requires Flying(w, r)
    ensures SameTelling(w, DoSave(w, r), r)
    ensures OwnedRows(DoSave(w, r).db.matches, r) == OwnedRows(w.db.matches, r) <==> !AddsRows(w, Save(r), r)
  {
    if w.flights[r].stage.Computed? {
      OwnedKeptExactly(w.db.matches, w.db.runs[r], r, w.flights[r].stage.result.matched);
    }
  }

  lemma AdvanceTelling(w: World, a: Act)
    requires Flying(w, a.r) && Accounted(ViewOf(w, a.r)) && w.db.runs[a.r].notifiedAt.Some? && Advances(a) && !a.Save?
    ensures SameTelling(w, Advance(w, a), a.r) && Advance(w, a).db.matches == w.db.matches
  {
    QuietAdvance(w, a);
  }

  lemma OutsideTelling(w: World, a: Act)
    requires a.r in w.db.runs && !Advances(a)
    ensures SameTelling(w, Step(w, a), a.r) && Step(w, a).db.matches == w.db.matches
  {
    QuietStep(w, a);
  }

  lemma OwnStepCovered(w: World, a: Act)
    requires Accounted(ViewOf(w, a.r)) && Covered(w, a.r)
    ensures !Covered(Step(w, a), a.r) <==> AddsRows(w, a, a.r)
  {
    if !Advances(a) {
      OutsideTelling(w, a);
    } else if Flying(w, a.r) {
      if a.Save? {
        SaveTelling(w, a.r);
      } else {
        AdvanceTelling(w, a);
      }
    }
  }

  /** Where a reachable report covers its run, one step breaks that if and only if it saves a row of the run
      that was not there. */
  lemma ReportLeftExactly(acts: seq<Act>, a: Act, r: RunId)
    requires Covered(Steps(EMPTY, acts), r)
    ensures !Covered(Step(Steps(EMPTY, acts), a), r) <==> AddsRows(Steps(EMPTY, acts), a, r)
  {
    var w := Steps(EMPTY, acts);
    AlwaysAccounted(acts, r);
    if a.r != r {
      StepFrame(w, a, r);
      assert ViewOf(Step(w, a), r).run == Some(w.db.runs[r]);
      assert ViewOf(Step(w, a), r).report == ViewOf(w, r).report && ViewOf(Step(w, a), r).owned == ViewOf(w, r).owned;
    } else {
      OwnStepCovered(w, a);
    }
  }

  ghost predicate CoveredThroughout(w: World, acts: seq<Act>, r: RunId) {
    Covered(Steps(w, acts), r) && (acts == [] || CoveredThroughout(w, acts[..|acts| - 1], r))
  }

  ghost predicate NoRowAdded(w: World, acts: seq<Act>, r: RunId) {
    acts == [] ||
    (NoRowAdded(w, acts[..|acts| - 1], r) && !AddsRows(Steps(w, acts[..|acts| - 1]), acts[|acts| - 1], r))
  }

  /** Over whole histories: a report goes on covering its run if and only if no later save adds a row. */
  lemma {:induction false} ReportKeptExactly(pre: seq<Act>, acts: seq<Act>, r: RunId)
    requires Covered(Steps(EMPTY, pre), r)
    ensures CoveredThroughout(Steps(EMPTY, pre), acts, r) <==> NoRowAdded(Steps(EMPTY, pre), acts, r)
  {
    if acts != [] {
      var w, front, last := Steps(EMPTY, pre), acts[..|acts| - 1], acts[|acts| - 1];
      ReportKeptExactly(pre, front, r);
      if Covered(Steps(w, front), r) {
        StepsConcat(EMPTY, pre, front);
        ReportLeftExactly(pre + front, last, r);
      } else {
        assert !CoveredThroughout(w, front, r);
      }
    }
  }

  // ----- a row nobody is told of -----

  /** A whole execution of a run that has notified its user before. */
  function Quietly(r: RunId, result: EngineResult, now: int): seq<Act> {
    [Begin(r, now), Load(r), Compute(r, result), Save(r), Upload(r), Final(r, now)]
  }

  lemma QuietlyIs(r: RunId, result: EngineResult, now: int)
    ensures var acts := Quietly(r, result, now);
            && |acts| == 6 && acts[0] == Begin(r, now) && acts[1] == Load(r) && acts[2] == Compute(r, result)
            && acts[3] == Save(r) && acts[4] == Upload(r) && acts[5] == Final(r, now)
  {}

  lemma SettledThen(w: World, acts: seq<Act>, r: RunId, result: EngineResult)
    requires |acts| > 4 && acts[4] == Upload(r) && r in w.db.runs && w.db.runs[r].notifiedAt.Some?
    requires Underway(w, Steps(w, acts[..4]), r, Persisted(result), RowsAfter(w, r, result))
    ensures Underway(w, Steps(w, acts[..5]), r, Settled(result, false, false), RowsAfter(w, r, result))
  {
    StepsPrefix(w, acts, 4);
    UploadsNothing(w, Steps(w, acts[..4]), r, result);
  }

  lemma ClosedThen(w: World, acts: seq<Act>, r: RunId, result: EngineResult, now: int)
    requires |acts| == 6 && acts[5] == Final(r, now) && r in w.db.runs
    requires Underway(w, Steps(w, acts[..5]), r, Settled(result, false, false), RowsAfter(w, r, result))
    ensures Unnoticed(w, Steps(w, acts), r, result)
  {
    StepsPrefix(w, acts, 5);
    EndSettled(w, Steps(w, acts[..5]), r, result, false, false, now);
    assert acts[..6] == acts;
  }

  /** The run ended well again, with the rows of `result`, and no mail was sent. */
  ghost predicate Unnoticed(w: World, v: World, r: RunId, result: EngineResult)
    requires r in w.db.runs
  {
    && r in v.db.runs && r !in v.flights && Successful(v.db.runs[r].status)
    && v.db.runs[r].notifiedAt == w.db.runs[r].notifiedAt
    && v.db.matches == RowsAfter(w, r, result) && v.outbox == w.outbox
  }

  /** Redelivered after it has notified its user, a run saves whatever it finds and tells nobody. */
  lemma RedeliveryIsUnnoticed(w: World, r: RunId, result: EngineResult, now: int)
    requires Waiting(w, r) && r !in w.flights && w.db.runs[r].notifiedAt.Some?
    ensures Unnoticed(w, Steps(w, Quietly(r, result, now)), r, result)
  {
    QuietlyIs(r, result, now);
    QuietlyThen(w, Quietly(r, result, now), r, result, now);
  }

  lemma QuietlyThen(w: World, acts: seq<Act>, r: RunId, result: EngineResult, now: int)
    requires Waiting(w, r) && r !in w.flights && w.db.runs[r].notifiedAt.Some?
    requires |acts| == 6 && acts[0] == Begin(r, now) && acts[1] == Load(r) && acts[2] == Compute(r, result)
    requires acts[3] == Save(r) && acts[4] == Upload(r) && acts[5] == Final(r, now)
    ensures Unnoticed(w, Steps(w, acts), r, result)
  {
    LoadedThen(w, acts, r, now);
    SavedThen(w, acts, r, KnownHashes(w.db.matches, w.db.runs[r].userId), result);
    SettledThen(w, acts, r, result);
    ClosedThen(w, acts, r, result, now);
  }

  lemma RequeuedAfterNotice(w: World, r: RunId, message: string, now: int)
    requires r in w.db.runs && r !in w.flights && Requeues(w.db.runs[r], true)
    ensures var v := Step(w, EarlyRaise(r, true, message, now));
            && Waiting(v, r) && r !in v.flights && v.db.matches == w.db.matches && v.outbox == w.outbox
            && v.db.runs[r].notifiedAt == w.db.runs[r].notifiedAt && v.db.runs[r].userId == w.db.runs[r].userId
  {}

  const LATER := MATCH.(job := MATCH.job.(externalHash := "i"))
  const MORE := EngineResult(2, 1, [LATER], map[], map[], false)

  /** One match, for a user who has no row for it, becomes a row of the run. */
  lemma LaterIsInserted(matches: Matches, run: Run, r: RunId)
    requires (run.userId, LATER.job.externalHash) !in matches
    ensures OwnedRows(InsertAll(matches, run, r, MORE.matched), r) != OwnedRows(matches, r)
  {
    assert MORE.matched[..0] == [] && MORE.matched[0] == LATER;
    assert Inserted(matches, run, r, []) == 0 && InsertAll(matches, run, r, []) == matches;
    OwnedKeptExactly(matches, run, r, MORE.matched);
  }

  lemma FoundOnly(run: Run)
    ensures (run.userId, LATER.job.externalHash) !in InsertAll(map[], run, 0, FOUND.matched)
  {
    InsertAllGrows(map[], run, 0, FOUND.matched);
    assert MATCH.job.externalHash != LATER.job.externalHash;
  }

  /** A run succeeds and notifies its user. */
  lemma NotifiedOnce() returns (acts: seq<Act>)
    ensures var w := Steps(EMPTY, acts);
            && Covered(w, 0) && 0 !in w.flights && Successful(w.db.runs[0].status) && Requeues(w.db.runs[0], true)
            && (w.db.runs[0].userId, LATER.job.externalHash) !in w.db.matches && MailsOf(w.outbox, 0) == 1
  {
    var create, rest := [Create(0, 0, 0, 3)], UpToMail(0, FOUND, 1) + [Final(0, 1)];
    var run := Run(0, 0, Queued, 0, 3, None, None, None, None, None, None);
    var w := Steps(EMPTY, create);
    StepsOne(EMPTY, [], create[0]);
    assert [] + create == create;
    assert w == EMPTY.(db := EMPTY.db.(runs := map[0 := run]));
    OneMatchOwned(run);
    MailThenFinal(w, 0, FOUND, 1);
    acts := create + rest;
    StepsConcat(EMPTY, create, rest);
    FoundOnly(run);
    MailsOfNothing();
    MailAppended(w.outbox, Steps(w, rest).outbox[0], 0);
  }

  /** A reachable run that succeeded, told its user, was requeued by a transient exception on redelivery
      and then saved a row that no mail reports. */
  lemma UntoldRowReachable() returns (pre: seq<Act>, acts: seq<Act>)
    ensures Covered(Steps(EMPTY, pre), 0) && RequeuesNotified(Steps(EMPTY, pre), EarlyRaise(0, true, "", 2), 0)
    ensures acts == pre + ([EarlyRaise(0, true, "", 2)] + Quietly(0, MORE, 3))
    ensures var w := Steps(EMPTY, acts);
            && 0 in w.db.runs && 0 !in w.flights && Successful(w.db.runs[0].status) && w.db.runs[0].notifiedAt.Some?
            && MailsOf(w.outbox, 0) == 1 && !Covered(w, 0)
  {
    pre := NotifiedOnce();
    var w, raise := Steps(EMPTY, pre), [EarlyRaise(0, true, "", 2)];
    RequeuedAfterNotice(w, 0, "", 2);
    StepsOne(w, [], raise[0]);
    assert [] + raise == raise;
    var again := Steps(w, raise);
    RedeliveryIsUnnoticed(again, 0, MORE, 3);
    LaterIsInserted(again.db.matches, again.db.runs[0], 0);
    StepsConcat(w, raise, Quietly(0, MORE, 3));
    acts := pre + (raise + Quietly(0, MORE, 3));
    StepsConcat(EMPTY, pre, raise + Quietly(0, MORE, 3));
  }
}
