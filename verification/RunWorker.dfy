/** `execute_run` as the worker runs it: one session, its commits, and the effects in between.

    Every call does exactly a sequence of the atomic steps of `RunSteps`, so what is proved there
    of all step sequences holds of the worker under any plan of faults. */
module RunWorker {
  import opened Wrappers
  import opened EngineTypes
  import opened Matching
  import opened Engine
  import opened RunSteps
  import opened RunRefinement

  /** What happens at one point of an execution. */
  datatype Fault = Fine | Raises(transient: bool, message: string) | Dies

  /** How `_run_once` ended. */
  datatype End = Done | Raised(transient: bool, message: string) | Died

  /** One delivery of a run: what the outside world answers, and the faults it suffers. */
  datatype Delivery = Delivery(now: int, inp: EngineInput, progress: seq<StepRow>, userFound: bool,
                               onRead: Fault, onStart: Fault, onInput: Fault, onEngine: Fault, onSave: Fault,
                               onUpload: Fault, onSend: Fault, onFinal: Fault, onHandler: Fault)

  function EndOf(f: Fault): End
    requires !f.Fine?
  { if f.Dies? then Died else End.Raised(f.transient, f.message) }

  /** The hunt describes what the engine computes from this input, whatever is already known. */
  ghost predicate Fits(h: Hunt, inp: EngineInput) {
    && inp.batchSize > 0
    && PerSource(inp, |inp.sources|) == h.per
    && forall known :: Matched(inp, known) == HuntMatches(h, known)
  }

  // ----- what one delivery does, as a function of its faults -----

  function Stops(f: Fault): Option<End> { if f.Fine? then None else Some(EndOf(f)) }

  ghost predicate Waiting(w: World, r: RunId) { r in w.db.runs && !Terminal(w.db.runs[r].status) }

  /** Up to the first commit. */
  ghost function Begins(w: World, r: RunId, d: Delivery): (World, Option<End>) {
    if !d.onRead.Fine? then (w, Stops(d.onRead))
    else if !Waiting(w, r) then (w, Some(Done))
    else if !d.onStart.Fine? then (w, Stops(d.onStart))
    else (Step(w, Begin(r, d.now)), None)
  }

  function Rows(r: RunId, progress: seq<StepRow>): seq<Act> { MapSeq(row => Progress(r, row), progress) }

  /** From there to the engine's result. */
  ghost function Searches(w: World, r: RunId, d: Delivery, result: EngineResult): (World, Option<End>) {
    if !d.onInput.Fine? then (w, Stops(d.onInput))
    else
      var v := Steps(Step(w, Load(r)), Rows(r, d.progress));
      if !d.onEngine.Fine? then (v, Stops(d.onEngine)) else (Step(v, Compute(r, result)), None)
  }

  ghost function Saves(w: World, r: RunId, d: Delivery): (World, Option<End>) {
    if d.onSave.Fine? then (Step(w, Save(r)), None) else (w, Stops(d.onSave))
  }

  /** The run has rows, and its execution did not find it notified. */
  ghost predicate News(w: World, r: RunId) {
    r in w.flights && w.flights[r].notifiedAt.None? && OwnedRows(w.db.matches, r) != map[]
  }

  ghost function Notifies(w: World, r: RunId, d: Delivery): (World, Option<End>) {
    if !News(w, r) then (Step(w, Upload(r)), None)
    else if !d.onUpload.Fine? then (w, Stops(d.onUpload))
    else if !d.onSend.Fine? then (Step(w, Upload(r)), Stops(d.onSend))
    else (Step(Step(w, Upload(r)), Send(r, d.userFound)), None)
  }

  ghost function Closes(w: World, r: RunId, d: Delivery): (World, End) {
    if d.onFinal.Fine? then (Step(w, Final(r, d.now)), Done) else (w, EndOf(d.onFinal))
  }

  ghost function Concludes(w: World, r: RunId, d: Delivery): (World, End) {
    var (v, end) := Notifies(w, r, d);
    if end.Some? then (v, end.value) else Closes(v, r, d)
  }

  ghost function Persists(w: World, r: RunId, d: Delivery): (World, End) {
    var (v, end) := Saves(w, r, d);
    if end.Some? then (v, end.value) else Concludes(v, r, d)
  }

  ghost function Continues(w: World, r: RunId, d: Delivery, result: EngineResult): (World, End) {
    var (v, end) := Searches(w, r, d, result);
    if end.Some? then (v, end.value) else Persists(v, r, d)
  }

  ghost function Once(w: World, r: RunId, d: Delivery, result: EngineResult): (World, End) {
    var (v, end) := Begins(w, r, d);
    if end.Some? then (v, end.value) else Continues(v, r, d, result)
  }

  /** What the failure handler does, or fails to do. */
  function HandlerAct(w: World, r: RunId, transient: bool, message: string, d: Delivery): Act {
    if !d.onHandler.Fine? then Die(r)
    else if r in w.flights then Raise(r, transient, message, d.now)
    else EarlyRaise(r, transient, message, d.now)
  }

  /** One whole delivery. */
  ghost function Delivered(w: World, r: RunId, d: Delivery, result: EngineResult): World {
    var (v, end) := Once(w, r, d, result);
    match end
    case Done => v
    case Died => Step(v, Die(r))
    case Raised(transient, message) => Step(v, HandlerAct(v, r, transient, message, d))
  }

  const NOTHING := EngineResult(0, 0, [], map[], map[], false)

  /** The delivery gets as far as the engine's result. */
  predicate UpToEngine(d: Delivery) { d.onRead.Fine? && d.onStart.Fine? && d.onInput.Fine? && d.onEngine.Fine? }

  predicate FaultFree(d: Delivery) {
    UpToEngine(d) && d.onSave.Fine? && d.onUpload.Fine? && d.onSend.Fine? && d.onFinal.Fine?
  }

  lemma BeginKeepsRows(w: World, r: RunId, now: int)
    requires Waiting(w, r) && r !in w.flights
    ensures var v := Step(w, Begin(r, now));
            r in v.db.runs && v.db.matches == w.db.matches && v.db.runs[r].userId == w.db.runs[r].userId
  {}

  /** What the engine promises of its result. */
  ghost predicate Answers(inp: EngineInput, known: set<string>, result: EngineResult)
    requires inp.batchSize > 0
  {
    && result.matched == Matched(inp, known) && result.perSource == PerSource(inp, |inp.sources|)
    && result.scraped == |Scraped(inp, |inp.sources|)|
    && result.newCount == |NewJobs(Scraped(inp, |inp.sources|), known)|
    && TalliesMissing(result.tally, Scored(inp, known)) && (result.degraded <==> Degraded(Scored(inp, known)))
  }

  /** Old rows stay, every match has a row, and each new row belongs to the user of the run and shows the match
      with its hash. */
  ghost predicate ShowsAll(before: Matches, after: Matches, run: Run, r: RunId, ms: seq<MatchedJob>) {
    && (forall key :: key in before ==> key in after && after[key] == before[key])
    && (forall m :: m in ms ==> (run.userId, m.job.externalHash) in after)
    && (forall key :: key in after && key !in before ==>
          key.0 == run.userId && ShowsOneOf(after[key], run, r, ms, key.1))
  }

  /** So does saving a result. */
  lemma SavedShows(db: Tables, r: RunId, result: EngineResult)
    requires r in db.runs
    ensures ShowsAll(db.matches, Saved(db, r, result).matches, db.runs[r], r, result.matched)
  {
    InsertAllGrows(db.matches, db.runs[r], r, result.matched);
  }

  class Worker {
    /** The database, and this session's uncommitted view of it. */
    var committed: Tables
    var pending: Tables
    /** What the mail server and the object store have received. */
    var sent: seq<Mail>
    var objects: map<RunId, Matches>
    /** The same, in the terms of the step system. */
    ghost var world: World

    ghost predicate Valid()
      reads this
    {
      world.db == committed && world.outbox == sent && world.objects == objects
    }

    method Commit()
      modifies this`committed
      ensures committed == pending
    { committed := pending; }

    method Rollback()
      modifies this`pending
      ensures pending == committed
    { pending := committed; }

    method ClearSteps(r: RunId)
      modifies this`pending
      ensures pending == old(pending).(steps := old(pending).steps - {r})
    { pending := pending.(steps := pending.steps - {r}); }

    method PersistStep(r: RunId, row: StepRow)
      modifies this`pending
      ensures pending == old(pending).(steps := old(pending).steps[r := StepsOf(old(pending), r) + [row]])
    { pending := pending.(steps := pending.steps[r := StepsOf(pending, r) + [row]]); }

    static method UpsertAll(before: map<(RunId, string), SourceInfo>, r: RunId, per: map<string, SourceInfo>)
      returns (sources: map<(RunId, string), SourceInfo>)
      ensures sources == UpsertSources(before, r, per)
    {
      var todo := per.Keys;
      sources := before;
      while todo != {}
        invariant todo <= per.Keys
        invariant forall key :: key in sources <==> key in before || (key.0 == r && key.1 in per.Keys - todo)
        invariant forall key :: key in sources ==>
          sources[key] == if key.0 == r && key.1 in per.Keys - todo then per[key.1] else before[key]
        decreases todo
      {
        var s :| s in todo;
        sources := sources[(r, s) := per[s]];
        todo := todo - {s};
      }
      UpsertPointwise(before, r, per, sources);
    }

    method UpsertPerSource(r: RunId, per: map<string, SourceInfo>)
      modifies this`pending
      ensures pending == old(pending).(sources := UpsertSources(old(pending).sources, r, per))
    {
      var sources := UpsertAll(pending.sources, r, per);
      pending := pending.(sources := sources);
    }

    method InsertMatches(r: RunId, ms: seq<MatchedJob>) returns (inserted: nat)
      requires r in pending.runs
      modifies this`pending
      ensures pending == old(pending).(matches := InsertAll(old(pending).matches, old(pending).runs[r], r, ms))
      ensures inserted == Inserted(old(pending).matches, old(pending).runs[r], r, ms)
      ensures ShowsAll(old(pending).matches, pending.matches, old(pending).runs[r], r, ms)
    {
      var run := pending.runs[r];
      var matches := pending.matches;
      inserted := 0;
      for i := 0 to |ms|
        invariant matches == InsertAll(old(pending).matches, run, r, ms[..i])
        invariant inserted == Inserted(old(pending).matches, run, r, ms[..i])
      {
        var key := (run.userId, ms[i].job.externalHash);
        assert ms[..i + 1][..i] == ms[..i];
        if key !in matches {
          matches := matches[key := RowOf(run, r, ms[i])];
          inserted := inserted + 1;
        }
      }
      assert ms[..|ms|] == ms;
      InsertAllGrows(old(pending).matches, run, r, ms);
      pending := pending.(matches := matches);
    }

    method SaveResult(r: RunId, result: EngineResult) returns (inserted: nat)
      requires r in pending.runs
      modifies this`pending
      ensures pending == Saved(old(pending), r, result)
      ensures |pending.matches| == |old(pending).matches| + inserted
    {
      UpsertPerSource(r, result.perSource);
      inserted := InsertMatches(r, result.matched);
      GrowthIsCounted(old(pending).matches, old(pending).runs[r], r, result.matched);
      var run := pending.runs[r];
      pending := pending.(runs := pending.runs[r := run.(stats :=
        Some(Stats(result.scraped, result.newCount, |result.matched|, inserted)))]);
    }

    /** Load the run, stop if it is missing or terminal, else mark it running: the first commit. */
    method Start(r: RunId, d: Delivery) returns (end: Option<End>, notifiedAt: Option<int>)
      requires Valid() && r !in world.flights
      modifies this
      ensures Valid() && pending == committed
      ensures end.None? ==> world == Step(old(world), Begin(r, d.now)) && Flying(world, r) &&
                            world.flights[r] == Flight(Started, notifiedAt)
      ensures end.Some? ==> world == old(world)
      ensures (world, end) == Begins(old(world), r, d)
    {
      end, notifiedAt := None, None;
      Rollback();
      if !d.onRead.Fine? {
        return Some(EndOf(d.onRead)), None;
      }
      if r !in pending.runs {
        return Some(Done), None;
      }
      var run := pending.runs[r];
      if Terminal(run.status) {
        return Some(Done), None;
      }
      run := run.(status := Running, startedAt := if run.startedAt.Some? then run.startedAt else Some(d.now),
                  attempt := run.attempt + 1, error := None);
      pending := pending.(runs := pending.runs[r := run]);
      ClearSteps(r);
      if !d.onStart.Fine? {
        Rollback();
        return Some(EndOf(d.onStart)), None;
      }
      Commit();
      world := Step(world, Begin(r, d.now));
      return None, run.notifiedAt;
    }

    method ReportOne(r: RunId, row: StepRow)
      requires Valid() && pending == committed && Flying(world, r) && world.flights[r].stage.Loaded?
      modifies this
      ensures Valid() && pending == committed && world == Step(old(world), Progress(r, row))
      ensures SameButSteps(old(world), world)
    {
      PersistStep(r, row);
      Commit();
      world := Step(world, Progress(r, row));
    }

    /** Commit the progress rows of the engine one by one. */
    method Report(r: RunId, rows: seq<StepRow>) returns (ghost acts: seq<Act>)
      requires Valid() && pending == committed && Flying(world, r) && world.flights[r].stage.Loaded?
      modifies this
      ensures Valid() && pending == committed && world == Steps(old(world), acts)
      ensures acts == Rows(r, rows)
      ensures SameButSteps(old(world), world)
    {
      acts := [];
      for i := 0 to |rows|
        invariant Valid() && pending == committed && world == Steps(old(world), acts)
        invariant acts == Rows(r, rows[..i])
        invariant SameButSteps(old(world), world)
      {
        StepsOne(old(world), acts, Progress(r, rows[i]));
        ReportOne(r, rows[i]);
        acts := acts + [Progress(r, rows[i])];
      }
      assert rows[..|rows|] == rows;
    }

    /** Save the result and commit it, whether or not the notification succeeds later. */
    method Persist(r: RunId, result: EngineResult, fault: Fault) returns (end: Option<End>)
      requires Valid() && pending == committed && Flying(world, r)
      requires world.flights[r].stage.Computed? && world.flights[r].stage.result == result
      modifies this
      ensures Valid() && pending == committed
      ensures end.None? ==> world == Step(old(world), Save(r)) && Flying(world, r) &&
                            world.flights[r] == old(world).flights[r].(stage := Persisted(result))
      ensures end.Some? ==> world == old(world) && end.value != Done
      ensures end == Stops(fault)
    {
      var inserted := SaveResult(r, result);
      if !fault.Fine? {
        Rollback();
        return Some(EndOf(fault));
      }
      Commit();
      world := Step(world, Save(r));
      return None;
    }

    /** Upload the report of the run's rows and remember its key in the session. */
    method UploadReport(r: RunId, rows: Matches, result: EngineResult, d: Delivery) returns (end: Option<End>)
      requires Valid() && pending == committed && Flying(world, r)
      requires world.flights[r] == Flight(Persisted(result), None)
      requires rows == OwnedRows(committed.matches, r) && rows != map[]
      modifies this
      ensures Valid() && committed == old(committed)
      ensures end.None? ==> world == Step(old(world), Upload(r)) && Flying(world, r) &&
                            world.flights[r] == Flight(Uploaded(result, rows), None) &&
                            pending == Noted(committed, r, true, false, d.now)
      ensures end.Some? ==> world == old(world) && end.value != Done
      ensures end == Stops(d.onUpload)
    {
      if !d.onUpload.Fine? {
        return Some(EndOf(d.onUpload));
      }
      objects := objects[r := rows];
      pending := pending.(runs := pending.runs[r := pending.runs[r].(reportKey := Some(r))]);
      world := Step(world, Upload(r));
      return None;
    }

    /** Mail the report if the user still exists, and record the mail in the session. */
    method SendReport(r: RunId, rows: Matches, result: EngineResult, d: Delivery) returns (end: Option<End>)
      requires Valid() && Flying(world, r) && world.flights[r] == Flight(Uploaded(result, rows), None)
      requires pending == Noted(committed, r, true, false, d.now)
      modifies this
      ensures Valid() && committed == old(committed)
      ensures end.None? ==> world == Step(old(world), Send(r, d.userFound)) && Flying(world, r) &&
                            world.flights[r].stage == Settled(result, true, d.userFound) &&
                            pending == Noted(committed, r, true, d.userFound, d.now)
      ensures end.Some? ==> world == old(world) && end.value != Done
      ensures end == Stops(d.onSend)
    {
      if !d.onSend.Fine? {
        return Some(EndOf(d.onSend));
      }
      if d.userFound {
        sent := sent + [Mail(r, rows)];
        pending := pending.(runs := pending.runs[r := pending.runs[r].(notifiedAt := Some(d.now))],
                            notes := pending.notes + [Note(r, pending.runs[r].userId)]);
      }
      world := Step(world, Send(r, d.userFound));
      return None;
    }

    /** Nothing to tell: the run is settled without a report. */
    ghost method SkipReport(r: RunId, result: EngineResult, d: Delivery)
      requires Valid() && pending == committed && Flying(world, r) && world.flights[r].stage == Persisted(result)
      requires world.flights[r].notifiedAt.Some? || OwnedRows(committed.matches, r) == map[]
      modifies this`world
      ensures Valid() && world == Step(old(world), Upload(r)) && Flying(world, r)
      ensures world.flights[r].stage == Settled(result, false, false)
      ensures pending == Noted(committed, r, false, false, d.now)
    {
      world := Step(world, Upload(r));
    }

    /** Notify the user at most once, building the report from the database. */
    method NotifyIfNeeded(r: RunId, notifiedAt: Option<int>, result: EngineResult, d: Delivery)
      returns (end: Option<End>, ghost acts: seq<Act>, ghost reported: bool, ghost mailed: bool)
      requires Valid() && pending == committed && Flying(world, r)
      requires world.flights[r] == Flight(Persisted(result), notifiedAt)
      modifies this
      ensures Valid() && committed == old(committed) && world == Steps(old(world), acts) && Flying(world, r)
      ensures forall a :: a in acts ==> a.r == r && (a.Upload? || a.Send?)
      ensures end.None? ==> world.flights[r].stage == Settled(result, reported, mailed) &&
                            pending == Noted(committed, r, reported, mailed, d.now)
      ensures end.Some? ==> end.value != Done
      ensures (world, end) == Notifies(old(world), r, d)
    {
      acts, reported, mailed := [], false, false;
      var rows := OwnedRows(pending.matches, r);
      StepsOne(world, [], Upload(r));
      if notifiedAt.Some? || rows == map[] {
        acts := acts + [Upload(r)];
        SkipReport(r, result, d);
        return None, acts, reported, mailed;
      }
      end := UploadReport(r, rows, result, d);
      if end.Some? {
        return end, acts, reported, mailed;
      }
      acts := acts + [Upload(r)];
      end := SendReport(r, rows, result, d);
      if end.Some? {
        return end, acts, reported, mailed;
      }
      StepsOne(old(world), acts, Send(r, d.userFound));
      acts := acts + [Send(r, d.userFound)];
      return None, acts, true, d.userFound;
    }

    /** The last commit. */
    method Finish(r: RunId, result: EngineResult, ghost reported: bool, ghost mailed: bool, d: Delivery)
      returns (end: End)
      requires Valid() && Flying(world, r) && world.flights[r].stage == Settled(result, reported, mailed)
      requires pending == Noted(committed, r, reported, mailed, d.now)
      modifies this
      ensures Valid()
      ensures (world, end) == Closes(old(world), r, d)
      ensures end.Done? ==> r !in world.flights
    {
      var run := pending.runs[r];
      run := run.(status := FinalStatus(result), finishedAt := Some(d.now));
      pending := pending.(runs := pending.runs[r := run]);
      if !d.onFinal.Fine? {
        return EndOf(d.onFinal);
      }
      Commit();
      world := Step(world, Final(r, d.now));
      return Done;
    }

    method Mark(r: RunId, transient: bool, message: string, now: int)
      requires r in committed.runs
      modifies this`pending, this`committed
      ensures committed == Handled(old(committed), r, transient, message, now)
    {
      Rollback();
      var run := pending.runs[r];
      if transient && run.attempt < run.maxAttempts {
        run := run.(status := Queued, error := Some(message));
      } else {
        run := run.(status := Status.Failed, error := Some(message), finishedAt := Some(now));
      }
      pending := pending.(runs := pending.runs[r := run]);
      Commit();
    }

    /** The failure handler, in a session of its own: requeue a transient failure, fail any other.
        It may die before its commit too. */
    method Handle(r: RunId, transient: bool, message: string, d: Delivery) returns (ghost a: Act)
      requires Valid() && (r in world.flights ==> r in world.db.runs)
      modifies this
      ensures Valid() && r !in world.flights && world == Step(old(world), a)
      ensures a == HandlerAct(old(world), r, transient, message, d)
    {
      if !d.onHandler.Fine? {
        a := Die(r);
        Vanish(r);
        return;
      }
      if r in committed.runs {
        Mark(r, transient, message, d.now);
      }
      if r in world.flights {
        a := Raise(r, transient, message, d.now);
      } else {
        a := EarlyRaise(r, transient, message, d.now);
      }
      world := Step(world, a);
    }

    /** The process is gone, and the session with it. */
    ghost method Vanish(r: RunId)
      requires Valid() && (r in world.flights ==> r in world.db.runs)
      modifies this`world
      ensures Valid() && r !in world.flights && world == Step(old(world), Die(r))
    {
      world := Step(world, Die(r));
    }

    // ----- a whole execution -----

    method LoadKnown(r: RunId) returns (seen: PgSeenStore)
      requires Valid() && pending == committed && Flying(world, r) && world.flights[r].stage.Started?
      modifies this
      ensures fresh(seen) && Valid() && pending == committed && world == Step(old(world), Load(r)) && Flying(world, r)
      ensures world.flights[r] == old(world).flights[r].(stage := Loaded(seen.known))
    {
      var known := KnownHashes(committed.matches, committed.runs[r].userId);
      seen := new PgSeenStore(known);
      world := Step(world, Load(r));
    }

    method Hunting(r: RunId, seen: PgSeenStore, inp: EngineInput) returns (result: EngineResult)
      requires Valid() && pending == committed && Flying(world, r) && inp.batchSize > 0
      requires world.flights[r].stage == Loaded(seen.known)
      modifies this
      ensures Valid() && pending == committed && world == Step(old(world), Compute(r, result)) && Flying(world, r)
      ensures world.flights[r] == old(world).flights[r].(stage := Computed(seen.known, result))
      ensures OwnStep(old(world), Compute(r, result), r, inp) && Answers(inp, seen.known, result)
    {
      result := RunEngine(inp, seen);
      NoteResult(r, seen.known, result);
    }

    ghost method NoteResult(r: RunId, known: set<string>, result: EngineResult)
      requires Valid() && Flying(world, r) && world.flights[r].stage == Loaded(known)
      modifies this`world
      ensures Valid() && world == Step(old(world), Compute(r, result)) && Flying(world, r)
      ensures world.flights[r] == old(world).flights[r].(stage := Computed(known, result))
    {
      world := Step(world, Compute(r, result));
    }

    /** Read the input, run the engine and report its progress: everything between two commits. */
    method Search(r: RunId, d: Delivery) returns (end: Option<End>, result: EngineResult, ghost acts: seq<Act>)
      requires Valid() && pending == committed && Flying(world, r) && world.flights[r].stage.Started? &&
                 d.inp.batchSize > 0
      modifies this
      ensures Valid() && pending == committed && world == Steps(old(world), acts) && Flying(world, r)
      ensures world.flights[r].notifiedAt == old(world).flights[r].notifiedAt
      ensures end.None? ==> world.flights[r].stage.Computed? && world.flights[r].stage.result == result
      ensures end.Some? ==> end.value != Done
      ensures OwnSteps(old(world), acts, r, d.inp)
      ensures (world, end) == Searches(old(world), r, d, result)
      ensures end.None? ==> Answers(d.inp, KnownHashes(old(world).db.matches, old(world).db.runs[r].userId), result)
    {
      acts := [];
      result := NOTHING;
      if !d.onInput.Fine? {
        return Some(EndOf(d.onInput)), result, acts;
      }
      ghost var w0 := world;
      OwnStepsMore(w0, acts, r, d.inp, Load(r));
      var seen := LoadKnown(r);
      acts := acts + [Load(r)];
      ghost var rows := Report(r, d.progress);
      OwnProgress(w0, acts, r, d.inp, rows);
      StepsConcat(w0, acts, rows);
      acts := acts + rows;
      if !d.onEngine.Fine? {
        return Some(EndOf(d.onEngine)), result, acts;
      }
      result := Hunting(r, seen, d.inp);
      OwnStepsMore(w0, acts, r, d.inp, Compute(r, result));
      acts := acts + [Compute(r, result)];
      return None, result, acts;
    }

    /** Notify, then close the run. */
    method Conclude(r: RunId, notifiedAt: Option<int>, result: EngineResult, d: Delivery)
      returns (end: End, ghost acts: seq<Act>)
      requires Valid() && pending == committed && Flying(world, r) && d.inp.batchSize > 0
      requires world.flights[r] == Flight(Persisted(result), notifiedAt)
      modifies this
      ensures Valid() && world == Steps(old(world), acts) && OwnSteps(old(world), acts, r, d.inp)
      ensures r in world.flights ==> r in world.db.runs
      ensures end.Done? ==> r !in world.flights
      ensures (world, end) == Concludes(old(world), r, d)
    {
      ghost var w0 := world;
      ghost var reported, mailed;
      var stopped;
      stopped, acts, reported, mailed := NotifyIfNeeded(r, notifiedAt, result, d);
      OwnPlain(w0, acts, r, d.inp);
      if stopped.Some? {
        return stopped.value, acts;
      }
      end := Finish(r, result, reported, mailed, d);
      if end.Done? {
        OwnStepsMore(w0, acts, r, d.inp, Final(r, d.now));
        acts := acts + [Final(r, d.now)];
      }
    }

    /** From a saved result to the end. */
    method PersistAndConclude(r: RunId, notifiedAt: Option<int>, result: EngineResult, d: Delivery)
      returns (end: End, ghost acts: seq<Act>)
      requires Valid() && pending == committed && Flying(world, r) && d.inp.batchSize > 0
      requires world.flights[r].stage.Computed? && world.flights[r].stage.result == result
      requires world.flights[r].notifiedAt == notifiedAt
      modifies this
      ensures Valid() && world == Steps(old(world), acts) && OwnSteps(old(world), acts, r, d.inp)
      ensures r in world.flights ==> r in world.db.runs
      ensures end.Done? ==> r !in world.flights
      ensures (world, end) == Persists(old(world), r, d)
    {
      ghost var w0 := world;
      acts := [];
      var stopped := Persist(r, result, d.onSave);
      if stopped.Some? {
        return stopped.value, acts;
      }
      OwnStepsMore(w0, acts, r, d.inp, Save(r));
      acts := acts + [Save(r)];
      ghost var last;
      end, last := Conclude(r, notifiedAt, result, d);
      OwnConcat(w0, acts, last, r, d.inp);
      acts := acts + last;
    }

    method RunOnce(r: RunId, d: Delivery) returns (end: End, ghost acts: seq<Act>, ghost result: EngineResult)
      requires Valid() && r !in world.flights && d.inp.batchSize > 0
      modifies this
      ensures Valid() && world == Steps(old(world), acts) && OwnSteps(old(world), acts, r, d.inp)
      ensures r in world.flights ==> r in world.db.runs
      ensures end.Done? ==> r !in world.flights
      ensures (world, end) == Once(old(world), r, d, result)
      ensures Waiting(old(world), r) && UpToEngine(d) ==>
                Answers(d.inp, KnownHashes(old(world).db.matches, old(world).db.runs[r].userId), result)
    {
      ghost var w0 := world;
      acts := [];
      result := NOTHING;
      var early, notifiedAt := Start(r, d);
      if early.Some? {
        return early.value, acts, result;
      }
      OwnStepsMore(w0, [], r, d.inp, Begin(r, d.now));
      acts := [Begin(r, d.now)];
      BeginKeepsRows(w0, r, d.now);
      var stopped, found;
      ghost var more;
      stopped, found, more := Search(r, d);
      result := found;
      OwnConcat(w0, acts, more, r, d.inp);
      acts := acts + more;
      if stopped.Some? {
        return stopped.value, acts, result;
      }
      end, more := PersistAndConclude(r, notifiedAt, found, d);
      OwnConcat(w0, acts, more, r, d.inp);
      acts := acts + more;
    }

    /** One delivery of a run. Whatever fails, the worker takes exactly the steps that the faults of
        the delivery determine, all of them of this run, with the engine computing what its input
        determines, and leaves none in flight. */
    method ExecuteRun(r: RunId, d: Delivery) returns (ghost acts: seq<Act>, ghost result: EngineResult)
      requires Valid() && r !in world.flights && d.inp.batchSize > 0
      modifies this
      ensures Valid() && world == Steps(old(world), acts) && r !in world.flights
      ensures OwnSteps(old(world), acts, r, d.inp)
      ensures world == Delivered(old(world), r, d, result)
      ensures Waiting(old(world), r) && UpToEngine(d) ==>
                Answers(d.inp, KnownHashes(old(world).db.matches, old(world).db.runs[r].userId), result)
    {
      ghost var w0 := world;
      var end;
      end, acts, result := RunOnce(r, d);
      match end {
        case Done =>
        case Died =>
          OwnStepsMore(w0, acts, r, d.inp, Die(r));
          Vanish(r);
          acts := acts + [Die(r)];
        case Raised(transient, message) =>
          ghost var a := Handle(r, transient, message, d);
          OwnStepsMore(w0, acts, r, d.inp, a);
          acts := acts + [a];
      }
    }

    /** Any number of deliveries of one waiting run, each with any faults: if the run ends well, its
        user has exactly the rows, and the run the status, of one uninterrupted execution. It has
        ended, well or not, once a delivery meets no fault. */
    method Redeliver(r: RunId, ds: seq<Delivery>, ghost h: Hunt, ghost now: int)
      requires Valid() && r !in world.flights && r in world.db.runs && !Terminal(world.db.runs[r].status)
      requires Labels(h.score) && forall d :: d in ds ==> Fits(h, d.inp)
      modifies this
      ensures Valid() && r !in world.flights && r in world.db.runs
      ensures Successful(world.db.runs[r].status) ==>
                var clean := Steps(old(world), CleanRun(h, old(world), r, now));
                var user := old(world).db.runs[r].userId;
                && UserRows(committed.matches, user) == UserRows(clean.db.matches, user)
                && r in clean.db.runs && committed.runs[r].status == clean.db.runs[r].status
      ensures ds != [] && FaultFree(ds[|ds| - 1]) ==> Terminal(committed.runs[r].status)
    {
      ghost var w0 := world;
      ghost var user := world.db.runs[r].userId;
      ghost var acts: seq<Act> := [];
      for i := 0 to |ds|
        invariant Valid() && r !in world.flights && world == Steps(w0, acts)
        invariant SteadyRun(h, r, user, w0, acts)
        invariant r in world.db.runs && (i > 0 && FaultFree(ds[i - 1]) ==> Terminal(world.db.runs[r].status))
      {
        ghost var before := world;
        ghost var more, result := ExecuteRun(r, ds[i]);
        OwnIsSteady(h, Steps(w0, acts), more, r, user, ds[i].inp);
        SteadyConcat(h, r, user, w0, acts, more);
        StepsConcat(w0, acts, more);
        acts := acts + more;
        RunRecovers(h, w0, r, acts);
        if FaultFree(ds[i]) {
          FaultFreeEnds(before, r, ds[i], result);
        }
      }
      if Successful(world.db.runs[r].status) {
        RecoveryRefinesCleanRun(h, w0, r, acts, now);
      }
    }
  }

  // ----- a delivery without faults -----

  /** An execution that began in `w` has come to `stage` in `v`, with these match rows so far. */
  ghost predicate Underway(w: World, v: World, r: RunId, stage: Stage, matches: Matches) {
    && r in w.db.runs && Flying(v, r) && v.flights[r] == Flight(stage, w.db.runs[r].notifiedAt)
    && v.db.runs[r].status.Running?
    && v.db.matches == matches && v.outbox == w.outbox && v.db.notes == w.db.notes
    && v.db.runs[r].(status := Queued, stats := None, startedAt := None, error := None)
       == w.db.runs[r].(status := Queued, stats := None, startedAt := None, error := None,
           attempt := w.db.runs[r].attempt + 1)
  }

  lemma UnderwayBegin(w: World, r: RunId, now: int)
    requires Waiting(w, r) && r !in w.flights
    ensures Underway(w, Step(w, Begin(r, now)), r, Started, w.db.matches)
  {}

  lemma UnderwayLoad(w: World, v: World, r: RunId)
    requires Underway(w, v, r, Started, w.db.matches)
    ensures Underway(w, Step(v, Load(r)), r, Loaded(KnownHashes(w.db.matches, w.db.runs[r].userId)), w.db.matches)
  {}

  lemma {:induction false} UnderwayRows(w: World, v: World, r: RunId, known: set<string>, rows: seq<StepRow>)
    requires Underway(w, v, r, Loaded(known), w.db.matches)
    ensures Underway(w, Steps(v, Rows(r, rows)), r, Loaded(known), w.db.matches)
  {
    if rows != [] {
      var front := rows[..|rows| - 1];
      UnderwayRows(w, v, r, known, front);
      assert Rows(r, rows) == Rows(r, front) + [Progress(r, rows[|rows| - 1])];
      StepsOne(v, Rows(r, front), Progress(r, rows[|rows| - 1]));
    }
  }

  lemma UnderwayCompute(w: World, v: World, r: RunId, known: set<string>, result: EngineResult)
    requires Underway(w, v, r, Loaded(known), w.db.matches)
    ensures Underway(w, Step(v, Compute(r, result)), r, Computed(known, result), w.db.matches)
  {}

  lemma UnderwaySave(w: World, v: World, r: RunId, known: set<string>, result: EngineResult)
    requires Underway(w, v, r, Computed(known, result), w.db.matches)
    ensures Underway(w, Step(v, Save(r)), r, Persisted(result),
              InsertAll(w.db.matches, w.db.runs[r], r, result.matched))
  {
    InsertSameOwner(w.db.matches, v.db.runs[r], w.db.runs[r], r, result.matched);
  }

  /** The end of a run that ended well: its status, its rows, and its mail if there was something new to tell. */
  ghost predicate Finishes(w: World, v: World, r: RunId, result: EngineResult, userFound: bool, now: int)
    requires r in w.db.runs
  {
    var rows := InsertAll(w.db.matches, w.db.runs[r], r, result.matched);
    var tells := w.db.runs[r].notifiedAt.None? && OwnedRows(rows, r) != map[] && userFound;
    && r in v.db.runs && r !in v.flights && v.db.matches == rows
    && v.db.runs[r].status == FinalStatus(result) && v.db.runs[r].finishedAt == Some(now)
    && v.db.runs[r].attempt == w.db.runs[r].attempt + 1
    && v.outbox == (if tells then w.outbox + [Mail(r, OwnedRows(rows, r))] else w.outbox)
    && v.db.notes == (if tells then w.db.notes + [Note(r, w.db.runs[r].userId)] else w.db.notes)
    && v.db.runs[r].notifiedAt == (if tells then Some(now) else w.db.runs[r].notifiedAt)
  }

  /** The last commit of a settled execution. */
  lemma EndSettled(w: World, v: World, r: RunId, result: EngineResult, reported: bool, sent: bool, now: int)
    requires r in w.db.runs && v.outbox == w.outbox
    requires Underway(w, v, r, Settled(result, reported, sent),
               InsertAll(w.db.matches, w.db.runs[r], r, result.matched))
    ensures var u := Step(v, Final(r, now));
            && r in u.db.runs && r !in u.flights && u.outbox == v.outbox && u.db.matches == v.db.matches
            && u.db.runs[r].status == FinalStatus(result) && u.db.runs[r].finishedAt == Some(now)
            && u.db.runs[r].attempt == w.db.runs[r].attempt + 1
            && u.db.runs[r].maxAttempts == w.db.runs[r].maxAttempts && u.db.runs[r].userId == w.db.runs[r].userId
            && u.db.notes == (if sent then w.db.notes + [Note(r, w.db.runs[r].userId)] else w.db.notes)
            && u.db.runs[r].notifiedAt == (if sent then Some(now) else w.db.runs[r].notifiedAt)
  {}

  /** Nothing to tell: no rows, or told before. */
  lemma EndQuiet(w: World, v: World, r: RunId, result: EngineResult, userFound: bool, now: int)
    requires r in w.db.runs && Underway(w, v, r, Persisted(result),
               InsertAll(w.db.matches, w.db.runs[r], r, result.matched))
    requires !News(v, r)
    ensures Finishes(w, Step(Step(v, Upload(r)), Final(r, now)), r, result, userFound, now)
  {
    UploadsNothing(w, v, r, result);
    EndSettled(w, Step(v, Upload(r)), r, result, false, false, now);
  }

  lemma UploadsNothing(w: World, v: World, r: RunId, result: EngineResult)
    requires Underway(w, v, r, Persisted(result), v.db.matches) && !News(v, r)
    ensures Underway(w, Step(v, Upload(r)), r, Settled(result, false, false), v.db.matches)
  {}

  lemma UploadsNews(w: World, v: World, r: RunId, result: EngineResult)
    requires Underway(w, v, r, Persisted(result), v.db.matches) && News(v, r)
    ensures var rows := OwnedRows(v.db.matches, r);
            Underway(w, Step(v, Upload(r)), r, Uploaded(result, rows), v.db.matches) && rows != map[]
  {}

  /** Sending settles the execution; but for the mail the world is as it was under way. */
  lemma SendsNews(w: World, v: World, r: RunId, result: EngineResult, rows: Matches, userFound: bool)
    requires Underway(w, v, r, Uploaded(result, rows), v.db.matches)
    ensures var u := Step(v, Send(r, userFound));
            && u.outbox == (if userFound then w.outbox + [Mail(r, rows)] else w.outbox)
            && Underway(w.(outbox := u.outbox), u, r, Settled(result, true, userFound), v.db.matches)
  {}

  lemma EndNews(w: World, v: World, r: RunId, result: EngineResult, userFound: bool, now: int)
    requires r in w.db.runs && w.db.runs[r].notifiedAt.None?
    requires var rows := InsertAll(w.db.matches, w.db.runs[r], r, result.matched);
             Underway(w, v, r, Uploaded(result, OwnedRows(rows, r)), rows) && OwnedRows(rows, r) != map[]
    ensures Finishes(w, Step(Step(v, Send(r, userFound)), Final(r, now)), r, result, userFound, now)
  {
    var settled := Step(v, Send(r, userFound));
    SendsNews(w, v, r, result, OwnedRows(v.db.matches, r), userFound);
    EndSettled(w.(outbox := settled.outbox), settled, r, result, true, userFound, now);
  }

  lemma UnderwayEnd(w: World, v: World, r: RunId, result: EngineResult, d: Delivery)
    requires r in w.db.runs && Underway(w, v, r, Persisted(result),
               InsertAll(w.db.matches, w.db.runs[r], r, result.matched))
    requires FaultFree(d)
    ensures Concludes(v, r, d).1 == Done && Finishes(w, Concludes(v, r, d).0, r, result, d.userFound, d.now)
  {
    if News(v, r) {
      UploadsNews(w, v, r, result);
      EndNews(w, Step(v, Upload(r)), r, result, d.userFound, d.now);
    } else {
      EndQuiet(w, v, r, result, d.userFound, d.now);
    }
  }

  /** A delivery without faults finishes a waiting run: every match of the engine has its row, and the
      user gets one mail about all rows of the run unless there are none or one was sent before. */
  lemma FaultFreeFinishes(w: World, r: RunId, d: Delivery, result: EngineResult)
    requires Waiting(w, r) && r !in w.flights && FaultFree(d)
    ensures Finishes(w, Delivered(w, r, d, result), r, result, d.userFound, d.now)
  {
    var known := KnownHashes(w.db.matches, w.db.runs[r].userId);
    var begun := Step(w, Begin(r, d.now));
    UnderwayBegin(w, r, d.now);
    var loaded := Step(begun, Load(r));
    UnderwayLoad(w, begun, r);
    var reported := Steps(loaded, Rows(r, d.progress));
    UnderwayRows(w, loaded, r, known, d.progress);
    var computed := Step(reported, Compute(r, result));
    UnderwayCompute(w, reported, r, known, result);
    UnderwaySave(w, computed, r, known, result);
    UnderwayEnd(w, Step(computed, Save(r)), r, result, d);
  }

  /** A finished run is partial exactly if asking some source failed. */
  lemma PartialExactly(inp: EngineInput, result: EngineResult)
    requires DistinctSources(inp) && result.perSource == PerSource(inp, |inp.sources|)
    ensures FinalStatus(result) ==
            if exists i :: 0 <= i < |inp.sources| && Fails(inp, inp.sources[i]) then Partial else Succeeded
  {
    AnyFailedExactly(inp);
  }

  lemma FaultFreeEnds(w: World, r: RunId, d: Delivery, result: EngineResult)
    requires r in w.db.runs && r !in w.flights && FaultFree(d)
    ensures var v := Delivered(w, r, d, result); r in v.db.runs && Terminal(v.db.runs[r].status)
  {
    if Waiting(w, r) {
      FaultFreeFinishes(w, r, d, result);
    }
  }

  // ----- the steps of one execution -----

  /** Steps of run `r` alone, its engine computing what `inp` and the known hashes determine. */
  ghost predicate OwnStep(w: World, a: Act, r: RunId, inp: EngineInput)
    requires inp.batchSize > 0
  {
    && a.r == r
    && (a.Compute? && r in w.flights && w.flights[r].stage.Loaded? ==>
          a.result.matched == Matched(inp, w.flights[r].stage.known) &&
              a.result.perSource == PerSource(inp, |inp.sources|))
  }

  ghost predicate OwnSteps(w: World, acts: seq<Act>, r: RunId, inp: EngineInput)
    requires inp.batchSize > 0
  {
    acts == [] || (OwnSteps(w, acts[..|acts| - 1], r, inp) &&
        OwnStep(Steps(w, acts[..|acts| - 1]), acts[|acts| - 1], r, inp))
  }

  lemma OwnStepsMore(w: World, acts: seq<Act>, r: RunId, inp: EngineInput, a: Act)
    requires inp.batchSize > 0 && OwnSteps(w, acts, r, inp) && OwnStep(Steps(w, acts), a, r, inp)
    ensures OwnSteps(w, acts + [a], r, inp) && Steps(w, acts + [a]) == Step(Steps(w, acts), a)
  {
    assert (acts + [a])[..|acts + [a]| - 1] == acts;
  }

  lemma OwnLast(w: World, acts: seq<Act>, r: RunId, inp: EngineInput)
    requires inp.batchSize > 0 && OwnSteps(w, acts, r, inp) && acts != []
    ensures OwnSteps(w, acts[..|acts| - 1], r, inp) && OwnStep(Steps(w, acts[..|acts| - 1]), acts[|acts| - 1], r, inp)
  {}

  lemma SplitLast(xs: seq<Act>, ys: seq<Act>)
    requires ys != []
    ensures xs + ys == xs + ys[..|ys| - 1] + [ys[|ys| - 1]] && ys == ys[..|ys| - 1] + [ys[|ys| - 1]]
  {}

  lemma {:induction false} OwnConcat(w: World, xs: seq<Act>, ys: seq<Act>, r: RunId, inp: EngineInput)
    requires inp.batchSize > 0 && OwnSteps(w, xs, r, inp) && OwnSteps(Steps(w, xs), ys, r, inp)
    ensures OwnSteps(w, xs + ys, r, inp) && Steps(w, xs + ys) == Steps(Steps(w, xs), ys)
  {
    StepsConcat(w, xs, ys);
    if ys == [] {
      assert xs + ys == xs;
    } else {
      OwnLast(Steps(w, xs), ys, r, inp);
      OwnConcat(w, xs, ys[..|ys| - 1], r, inp);
      OwnOneMore(w, xs + ys[..|ys| - 1], Steps(Steps(w, xs), ys[..|ys| - 1]), ys[|ys| - 1], r, inp);
      SplitLast(xs, ys);
    }
  }

  lemma OwnOneMore(w: World, acts: seq<Act>, v: World, a: Act, r: RunId, inp: EngineInput)
    requires inp.batchSize > 0 && OwnSteps(w, acts, r, inp) && v == Steps(w, acts) && OwnStep(v, a, r, inp)
    ensures OwnSteps(w, acts + [a], r, inp)
  {
    OwnStepsMore(w, acts, r, inp, a);
  }

  lemma {:induction false} OwnPlain(w: World, acts: seq<Act>, r: RunId, inp: EngineInput)
    requires inp.batchSize > 0 && forall a :: a in acts ==> a.r == r && !a.Compute?
    ensures OwnSteps(w, acts, r, inp)
  {
    if acts != [] {
      OwnPlain(w, acts[..|acts| - 1], r, inp);
    }
  }

  lemma OwnProgress(w: World, acts: seq<Act>, r: RunId, inp: EngineInput, rows: seq<Act>)
    requires inp.batchSize > 0 && OwnSteps(w, acts, r, inp) && forall a :: a in rows ==> a.r == r && a.Progress?
    ensures OwnSteps(w, acts + rows, r, inp)
  {
    OwnPlain(Steps(w, acts), rows, r, inp);
    OwnConcat(w, acts, rows, r, inp);
  }

  lemma {:induction false} OwnIsSteady(h: Hunt, w: World, acts: seq<Act>, r: RunId, user: UserId, inp: EngineInput)
    requires Fits(h, inp) && OwnSteps(w, acts, r, inp)
    ensures SteadyRun(h, r, user, w, acts)
  {
    if acts != [] {
      OwnIsSteady(h, w, acts[..|acts| - 1], r, user, inp);
    }
  }

  lemma SteadyLast(h: Hunt, r: RunId, user: UserId, w: World, acts: seq<Act>)
    requires SteadyRun(h, r, user, w, acts) && acts != []
    ensures SteadyRun(h, r, user, w, acts[..|acts| - 1]) &&
              Steady(h, r, user, Steps(w, acts[..|acts| - 1]), acts[|acts| - 1])
  {}

  lemma {:induction false} SteadyConcat(h: Hunt, r: RunId, user: UserId, w: World, xs: seq<Act>, ys: seq<Act>)
    requires SteadyRun(h, r, user, w, xs) && SteadyRun(h, r, user, Steps(w, xs), ys)
    ensures SteadyRun(h, r, user, w, xs + ys)
  {
    if ys == [] {
      assert xs + ys == xs;
    } else {
      SteadyLast(h, r, user, Steps(w, xs), ys);
      SteadyConcat(h, r, user, w, xs, ys[..|ys| - 1]);
      StepsConcat(w, xs, ys[..|ys| - 1]);
      SteadyOneMore(h, r, user, w, xs + ys[..|ys| - 1], Steps(Steps(w, xs), ys[..|ys| - 1]), ys[|ys| - 1]);
      SplitLast(xs, ys);
    }
  }

  lemma SteadyOneMore(h: Hunt, r: RunId, user: UserId, w: World, acts: seq<Act>, v: World, a: Act)
    requires SteadyRun(h, r, user, w, acts) && v == Steps(w, acts) && Steady(h, r, user, v, a)
    ensures SteadyRun(h, r, user, w, acts + [a])
  {
    SteadyOne(h, r, user, w, acts, a);
  }

  /** Replies that score each posting on its own merits make the engine a hunt. */
  lemma PerJobScoringFits(inp: EngineInput, score: (Resume, Job) -> RawEval)
    requires inp.batchSize > 0 && PerPosting(inp.replies, inp.resumes, score)
    ensures Fits(HuntOf(inp, score), inp) && Labels(HuntOf(inp, score).score)
  {
    var h := HuntOf(inp, score);
    forall known ensures Matched(inp, known) == HuntMatches(h, known) {
      if inp.resumes == [] {
        assert HuntMatches(h, known) == [];
      } else {
        EngineMatchesByJob(inp, known, score);
      }
    }
    if inp.resumes != [] {
      forall j ensures BestAlone(inp.resumes, score, j, |inp.resumes|).job == j {
        BestAloneLabels(inp.resumes, score, j, |inp.resumes|);
      }
    }
  }

  /** The hunt of an input: without a résumé there is nothing to score. */
  ghost function HuntOf(inp: EngineInput, score: (Resume, Job) -> RawEval): Hunt {
    if inp.resumes == [] then Hunt([], Unscored, KeepOf(inp), PerSource(inp, |inp.sources|))
    else
      Hunt(Scraped(inp, |inp.sources|), j => BestAlone(inp.resumes, score, j, |inp.resumes|), KeepOf(inp),
           PerSource(inp, |inp.sources|))
  }

  function Unscored(j: Job): MatchedJob { ToMatched(j, RawEval(Absent, Absent, Absent, Absent, Absent, Absent), "") }

  /** The theorems about hunts speak of every scorer: whatever percentages `score` gives, there are
      replies with which the engine is the hunt of that scorer, and two postings that one résumé's
      `score` tells apart are told apart by the hunt. */
  lemma EveryScorerFits(inp: EngineInput, score: (Resume, Job) -> RawEval) returns (answered: EngineInput)
    requires inp.batchSize > 0 && forall r: Resume, j: Job :: !score(r, j).percentage.Absent?
    ensures answered == inp.(replies := answered.replies)
    ensures Fits(HuntOf(answered, score), answered) && Labels(HuntOf(answered, score).score)
    ensures |inp.resumes| == 1 ==>
              forall j :: HuntOf(answered, score).score(j).percentage ==
                  OrElse(score(inp.resumes[0], j).percentage, 0, 0)
  {
    answered := inp.(replies := Answering(inp.resumes, score));
    AnsweringIsPerPosting(inp.resumes, score);
    PerJobScoringFits(answered, score);
  }

  lemma {:induction false} BestAloneLabels(resumes: seq<Resume>, score: (Resume, Job) -> RawEval, job: Job, n: nat)
    requires 0 < n <= |resumes|
    ensures BestAlone(resumes, score, job, n).job == job
  {
    if n > 1 {
      BestAloneLabels(resumes, score, job, n - 1);
    }
  }

  lemma UpsertPointwise(before: map<(RunId, string), SourceInfo>, r: RunId, per: map<string, SourceInfo>,
                        after: map<(RunId, string), SourceInfo>)
    requires forall key :: key in after <==> key in before || (key.0 == r && key.1 in per)
    requires forall key :: key in after ==> after[key] == if key.0 == r && key.1 in per then per[key.1] else before[key]
    ensures after == UpsertSources(before, r, per)
  {
    var target := UpsertSources(before, r, per);
    forall key ensures key in target <==> key in after {}
  }

  /** A progress commit changes nothing but the progress rows. */
  ghost predicate SameButSteps(before: World, after: World) {
    after == before.(db := before.db.(steps := after.db.steps))
  }
}
