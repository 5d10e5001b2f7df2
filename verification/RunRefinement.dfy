/** Crash recovery refines one clean execution: whatever dies, raises or is redelivered on the way,
    a run that ends well leaves the match rows of a single uninterrupted execution. */
module RunRefinement {
  import opened Wrappers
  import opened EngineTypes
  import opened Engine
  import opened RunSteps

  /** A deterministic hunt: the postings scraped, how one is scored and kept, and how the sources fared. */
  datatype Hunt = Hunt(jobs: seq<Job>, score: Job -> MatchedJob, keep: MatchedJob -> bool, per: map<string, SourceInfo>)

  ghost function HuntMatches(h: Hunt, known: set<string>): seq<MatchedJob> {
    MatchedBy(h.score, h.keep, h.jobs, known)
  }

  ghost predicate Follows(h: Hunt, result: EngineResult, known: set<string>) {
    result.matched == HuntMatches(h, known) && result.perSource == h.per
  }

  /** The engine computes for run `r` what the hunt says, and no other run of its user saves. */
  ghost predicate Steady(h: Hunt, r: RunId, user: UserId, w: World, a: Act) {
    && (a.Compute? && a.r == r && r in w.flights && w.flights[r].stage.Loaded? ==>
         Follows(h, a.result, w.flights[r].stage.known))
    && (a.Save? && a.r != r && a.r in w.db.runs ==> w.db.runs[a.r].userId != user)
  }

  ghost predicate SteadyRun(h: Hunt, r: RunId, user: UserId, w: World, acts: seq<Act>) {
    acts == [] ||
    (SteadyRun(h, r, user, w, acts[..|acts| - 1]) && Steady(h, r, user, Steps(w, acts[..|acts| - 1]), acts[|acts| - 1]))
  }

  function UserRows(matches: Matches, user: UserId): Matches {
    map key | key in matches && key.0 == user :: matches[key]
  }

  function SourceRows(sources: map<(RunId, string), SourceInfo>, r: RunId): map<string, SourceInfo> {
    map s | s in (set key | key in sources && key.0 == r :: key.1) :: sources[(r, s)]
  }

  ghost predicate Agrees(rows: map<string, SourceInfo>, per: map<string, SourceInfo>) {
    forall s :: s in per ==> s in rows && rows[s] == per[s]
  }

  function StatusOf(per: map<string, SourceInfo>): Status {
    if exists s :: s in per && per[s].status.Failed? then Partial else Succeeded
  }

  /** What of the world the theorem is about: the run, its execution, its user's rows, its source rows. */
  datatype Focus = Focus(run: Option<Run>, flight: Option<Flight>, rows: Matches, sources: map<string, SourceInfo>)

  function FocusOn(w: World, r: RunId, user: UserId): Focus {
    Focus(if r in w.db.runs then Some(w.db.runs[r]) else None, if r in w.flights then Some(w.flights[r]) else None,
          UserRows(w.db.matches, user), SourceRows(w.db.sources, r))
  }

  // ----- the effect of saving on one user's rows -----

  lemma {:induction false} InsertForUser(matches: Matches, run: Run, r: RunId, ms: seq<MatchedJob>, user: UserId)
    ensures UserRows(InsertAll(matches, run, r, ms), user) ==
            if run.userId == user then InsertAll(UserRows(matches, user), run, r, ms) else UserRows(matches, user)
  {
    if ms != [] {
      InsertForUser(matches, run, r, ms[..|ms| - 1], user);
      InsertOneForUser(InsertAll(matches, run, r, ms[..|ms| - 1]), run, r, ms[|ms| - 1], user);
    }
  }

  lemma InsertOneForUser(matches: Matches, run: Run, r: RunId, m: MatchedJob, user: UserId)
    ensures UserRows(InsertOne(matches, run, r, m), user) ==
            if run.userId == user then InsertOne(UserRows(matches, user), run, r, m) else UserRows(matches, user)
  {}

  /** Rows depend on the run only through its owner and profile. */
  lemma {:induction false} InsertSameOwner(matches: Matches, run: Run, later: Run, r: RunId, ms: seq<MatchedJob>)
    requires run.userId == later.userId && run.profileId == later.profileId
    ensures InsertAll(matches, run, r, ms) == InsertAll(matches, later, r, ms)
  {
    if ms != [] {
      InsertSameOwner(matches, run, later, r, ms[..|ms| - 1]);
    }
  }

  lemma KnownOfUserRows(matches: Matches, user: UserId)
    ensures KnownHashes(UserRows(matches, user), user) == KnownHashes(matches, user)
  {
    forall h ensures h in KnownHashes(UserRows(matches, user), user) <==> h in KnownHashes(matches, user) {
      assert (user, h) in UserRows(matches, user) <==> (user, h) in matches;
    }
  }

  /** The rows a clean execution leaves its user. */
  ghost function Goal(h: Hunt, rows: Matches, run: Run, r: RunId): Matches {
    InsertAll(rows, run, r, HuntMatches(h, KnownHashes(rows, run.userId)))
  }

  /** Saving from the initial rows reaches the goal, saving from the goal stays there. */
  lemma SaveReachesGoal(h: Hunt, initial: Matches, rows: Matches, run: Run, r: RunId)
    requires Labels(h.score) && (rows == initial || rows == Goal(h, initial, run, r))
    ensures Goal(h, rows, run, r) == Goal(h, initial, run, r)
  {
    var known := KnownHashes(initial, run.userId);
    var ms := HuntMatches(h, known);
    InsertAllKeeps(initial, run, r, ms);
    InsertAllCovers(initial, run, r, ms);
    if rows != initial {
      var later := KnownHashes(rows, run.userId);
      forall hash | hash in known + MatchHashes(ms) ensures hash in later {
        assert (run.userId, hash) in rows;
      }
      SecondRunFindsNothing(h.score, h.keep, h.jobs, known, later);
    }
  }

  // ----- the invariant of recovery -----

  /** The run, as it stands with respect to the rows it started from and the rows it is to reach. */
  ghost predicate Recovering(h: Hunt, initial: Matches, goal: Matches, run0: Run, f: Focus) {
    && f.run.Some? && f.run.value.userId == run0.userId && f.run.value.profileId == run0.profileId
    && (f.rows == initial || f.rows == goal)
    && (Successful(f.run.value.status) ==> Reached(h, goal, f) && f.run.value.status == StatusOf(h.per))
    && (f.flight.Some? ==> OnCourse(h, goal, run0, f, f.flight.value.stage))
  }

  ghost predicate Reached(h: Hunt, goal: Matches, f: Focus) { f.rows == goal && Agrees(f.sources, h.per) }

  ghost predicate OnCourse(h: Hunt, goal: Matches, run0: Run, f: Focus, stage: Stage) {
    match stage
    case Started => true
    case Loaded(known) => known == KnownHashes(f.rows, run0.userId)
    case Computed(known, result) => known == KnownHashes(f.rows, run0.userId) && Follows(h, result, known)
    case Persisted(result) => Reached(h, goal, f) && result.perSource == h.per
    case Uploaded(result, _) => Reached(h, goal, f) && result.perSource == h.per
    case Settled(result, _, _) => Reached(h, goal, f) && result.perSource == h.per
  }

  lemma SourcesOfOther(sources: map<(RunId, string), SourceInfo>, other: RunId, per: map<string, SourceInfo>, r: RunId)
    ensures other != r ==> SourceRows(UpsertSources(sources, other, per), r) == SourceRows(sources, r)
    ensures other == r ==> Agrees(SourceRows(UpsertSources(sources, other, per), r), per)
  {
    var after := UpsertSources(sources, other, per);
    assert forall key :: key in after <==> key in sources || (key.0 == other && key.1 in per);
    assert forall s :: s in per ==> (other, s) in after && after[(other, s)] == per[s];
    assert forall s :: s in SourceRows(after, r) <==> (r, s) in after;
    assert forall s :: s in SourceRows(sources, r) <==> (r, s) in sources;
  }

  lemma SaveFocusFrame(w: World, other: RunId, r: RunId, user: UserId)
    requires Flying(w, other) && other != r && w.db.runs[other].userId != user
    ensures FocusOn(DoSave(w, other), r, user) == FocusOn(w, r, user)
  {
    if w.flights[other].stage.Computed? {
      var result := w.flights[other].stage.result;
      InsertForUser(w.db.matches, w.db.runs[other], other, result.matched, user);
      SourcesOfOther(w.db.sources, other, result.perSource, r);
    }
  }

  lemma FocusFrame(w: World, a: Act, r: RunId, user: UserId)
    requires a.r != r && (a.Save? && a.r in w.db.runs ==> w.db.runs[a.r].userId != user)
    ensures FocusOn(Step(w, a), r, user) == FocusOn(w, r, user)
  {
    if a.Save? {
      if Flying(w, a.r) {
        SaveFocusFrame(w, a.r, r, user);
      }
    } else {
      QuietStep(w, a);
      StepOther(w, a, r);
    }
  }

  /** What a save does to the user's rows, the run's sources and the run. */
  lemma SaveFocus(w: World, r: RunId, user: UserId)
    requires Flying(w, r) && w.flights[r].stage.Computed? && w.db.runs[r].userId == user
    ensures var f, result := FocusOn(DoSave(w, r), r, user), w.flights[r].stage.result;
            && f.rows == InsertAll(UserRows(w.db.matches, user), w.db.runs[r], r, result.matched)
            && Agrees(f.sources, result.perSource)
            && f.run == Some(w.db.runs[r].(stats := f.run.value.stats))
            && f.flight == Some(w.flights[r].(stage := Persisted(result)))
  {
    var result := w.flights[r].stage.result;
    InsertForUser(w.db.matches, w.db.runs[r], r, result.matched, user);
    SourcesOfOther(w.db.sources, r, result.perSource, r);
  }

  lemma SavedRowsAreGoal(h: Hunt, initial: Matches, goal: Matches, run0: Run, run: Run, r: RunId, rows: Matches,
                         result: EngineResult)
    requires Labels(h.score) && goal == Goal(h, initial, run0, r) && (rows == initial || rows == goal)
    requires run.userId == run0.userId && run.profileId == run0.profileId
    requires Follows(h, result, KnownHashes(rows, run0.userId))
    ensures InsertAll(rows, run, r, result.matched) == goal
  {
    InsertSameOwner(rows, run, run0, r, result.matched);
    SaveReachesGoal(h, initial, rows, run0, r);
  }

  lemma SaveRecovers(h: Hunt, initial: Matches, goal: Matches, run0: Run, r: RunId, w: World)
    requires Labels(h.score) && goal == Goal(h, initial, run0, r)
    requires Flying(w, r) && Recovering(h, initial, goal, run0, FocusOn(w, r, run0.userId))
    ensures Recovering(h, initial, goal, run0, FocusOn(DoSave(w, r), r, run0.userId))
  {
    if w.flights[r].stage.Computed? {
      SavedRowsAreGoal(h, initial, goal, run0, w.db.runs[r], r, UserRows(w.db.matches, run0.userId),
          w.flights[r].stage.result);
      SaveFocus(w, r, run0.userId);
    }
  }

  lemma LoadRecovers(h: Hunt, initial: Matches, goal: Matches, run0: Run, r: RunId, w: World)
    requires Flying(w, r) && Recovering(h, initial, goal, run0, FocusOn(w, r, run0.userId))
    ensures Recovering(h, initial, goal, run0, FocusOn(DoLoad(w, r), r, run0.userId))
  {
    KnownOfUserRows(w.db.matches, run0.userId);
  }

  lemma FinalFocus(w: World, r: RunId, user: UserId, now: int) returns (run: Run)
    requires Flying(w, r) && w.flights[r].stage.Settled?
    ensures FocusOn(DoFinal(w, r, now), r, user) == FocusOn(w, r, user).(run := Some(run), flight := None)
    ensures run.status == FinalStatus(w.flights[r].stage.result)
    ensures run.userId == w.db.runs[r].userId && run.profileId == w.db.runs[r].profileId
  {
    run := DoFinal(w, r, now).db.runs[r];
  }

  lemma FinalRecovers(h: Hunt, initial: Matches, goal: Matches, run0: Run, r: RunId, w: World, now: int)
    requires Flying(w, r) && Recovering(h, initial, goal, run0, FocusOn(w, r, run0.userId))
    ensures Recovering(h, initial, goal, run0, FocusOn(DoFinal(w, r, now), r, run0.userId))
  {
    if w.flights[r].stage.Settled? {
      var run := FinalFocus(w, r, run0.userId, now);
      ClosedRecovers(h, initial, goal, run0, FocusOn(w, r, run0.userId), run);
    }
  }

  lemma ClosedRecovers(h: Hunt, initial: Matches, goal: Matches, run0: Run, f: Focus, run: Run)
    requires Recovering(h, initial, goal, run0, f) && f.flight.Some? && f.flight.value.stage.Settled?
    requires run.status == FinalStatus(f.flight.value.stage.result)
    requires run.userId == run0.userId && run.profileId == run0.profileId
    ensures Recovering(h, initial, goal, run0, f.(run := Some(run), flight := None))
  {}

  lemma UploadFocus(w: World, r: RunId, user: UserId) returns (stage: Stage)
    requires Flying(w, r) && w.flights[r].stage.Persisted?
    ensures FocusOn(DoUpload(w, r), r, user) == FocusOn(w, r, user).(flight := Some(w.flights[r].(stage := stage)))
    ensures stage.Uploaded? || stage.Settled?
    ensures stage.result == w.flights[r].stage.result
  {
    stage := DoUpload(w, r).flights[r].stage;
  }

  lemma UploadRecovers(h: Hunt, initial: Matches, goal: Matches, run0: Run, r: RunId, w: World)
    requires Flying(w, r) && Recovering(h, initial, goal, run0, FocusOn(w, r, run0.userId))
    ensures Recovering(h, initial, goal, run0, FocusOn(DoUpload(w, r), r, run0.userId))
  {
    if w.flights[r].stage.Persisted? {
      var stage := UploadFocus(w, r, run0.userId);
    }
  }

  lemma SendRecovers(h: Hunt, initial: Matches, goal: Matches, run0: Run, r: RunId, w: World, userFound: bool)
    requires Flying(w, r) && Recovering(h, initial, goal, run0, FocusOn(w, r, run0.userId))
    ensures Recovering(h, initial, goal, run0, FocusOn(DoSend(w, r, userFound), r, run0.userId))
  {}

  lemma AdvanceRecovers(h: Hunt, initial: Matches, goal: Matches, run0: Run, r: RunId, w: World, a: Act)
    requires Labels(h.score) && goal == Goal(h, initial, run0, r) && a.r == r && Flying(w, r)
    requires Recovering(h, initial, goal, run0, FocusOn(w, r, run0.userId)) && Steady(h, r, run0.userId, w, a)
    ensures Recovering(h, initial, goal, run0, FocusOn(Advance(w, a), r, run0.userId))
  {
    match a {
      case Load(_) => LoadRecovers(h, initial, goal, run0, r, w);
      case Save(_) => SaveRecovers(h, initial, goal, run0, r, w);
      case Upload(_) => UploadRecovers(h, initial, goal, run0, r, w);
      case Send(_, userFound) => SendRecovers(h, initial, goal, run0, r, w, userFound);
      case Final(_, now) => FinalRecovers(h, initial, goal, run0, r, w, now);
      case _ =>
    }
  }

  predicate Outside(a: Act) {
    a.Create? || a.Cancel? || a.EarlyRaise? || a.Begin? || a.Die? || a.Raise?
  }

  /** What creating, cancelling, starting and ending can do to the run and its execution. */
  ghost predicate Kept(f: Focus, g: Focus) {
    && g.rows == f.rows && g.sources == f.sources && f.run.Some? && g.run.Some?
    && g.run.value.userId == f.run.value.userId && g.run.value.profileId == f.run.value.profileId
    && (Successful(g.run.value.status) ==> g.run.value.status == f.run.value.status)
    && (g.flight == f.flight || g.flight.None? || g.flight.value.stage.Started?)
  }

  lemma KeptRecovers(h: Hunt, initial: Matches, goal: Matches, run0: Run, f: Focus, g: Focus)
    requires Recovering(h, initial, goal, run0, f) && Kept(f, g)
    ensures Recovering(h, initial, goal, run0, g)
  {}

  lemma KeptFocus(w: World, v: World, r: RunId, user: UserId)
    requires v.db.matches == w.db.matches && v.db.sources == w.db.sources && KeptRun(w, v, r)
    ensures Kept(FocusOn(w, r, user), FocusOn(v, r, user))
  {}

  predicate KeptRun(w: World, v: World, r: RunId) {
    && r in w.db.runs && r in v.db.runs
    && v.db.runs[r].userId == w.db.runs[r].userId && v.db.runs[r].profileId == w.db.runs[r].profileId
    && (Successful(v.db.runs[r].status) ==> v.db.runs[r].status == w.db.runs[r].status)
    && (r in v.flights ==> v.flights[r].stage.Started? || (r in w.flights && v.flights[r] == w.flights[r]))
  }

  lemma RaiseKeeps(w: World, a: Act)
    requires (a.Raise? || a.EarlyRaise?) && a.r in w.db.runs
    ensures KeptRun(w, Step(w, a), a.r)
  {}

  lemma OtherwiseKeeps(w: World, a: Act)
    requires (a.Create? || a.Cancel? || a.Begin? || a.Die?) && a.r in w.db.runs
    ensures KeptRun(w, Step(w, a), a.r)
  {}

  lemma OutsideRecovers(h: Hunt, initial: Matches, goal: Matches, run0: Run, r: RunId, w: World, a: Act)
    requires a.r == r && Outside(a) && Recovering(h, initial, goal, run0, FocusOn(w, r, run0.userId))
    ensures Recovering(h, initial, goal, run0, FocusOn(Step(w, a), r, run0.userId))
  {
    QuietStep(w, a);
    if a.Raise? || a.EarlyRaise? {
      RaiseKeeps(w, a);
    } else {
      OtherwiseKeeps(w, a);
    }
    KeptFocus(w, Step(w, a), r, run0.userId);
    KeptRecovers(h, initial, goal, run0, FocusOn(w, r, run0.userId), FocusOn(Step(w, a), r, run0.userId));
  }

  lemma StepRecovers(h: Hunt, initial: Matches, goal: Matches, run0: Run, r: RunId, w: World, a: Act)
    requires Labels(h.score) && goal == Goal(h, initial, run0, r)
    requires Recovering(h, initial, goal, run0, FocusOn(w, r, run0.userId)) && Steady(h, r, run0.userId, w, a)
    ensures Recovering(h, initial, goal, run0, FocusOn(Step(w, a), r, run0.userId))
  {
    if a.r != r {
      FocusFrame(w, a, r, run0.userId);
    } else if Outside(a) {
      OutsideRecovers(h, initial, goal, run0, r, w, a);
    } else if Flying(w, r) {
      AdvanceRecovers(h, initial, goal, run0, r, w, a);
    }
  }

  lemma {:induction false} RunRecovers(h: Hunt, w: World, r: RunId, acts: seq<Act>)
    requires Labels(h.score) && r in w.db.runs && r !in w.flights && !Successful(w.db.runs[r].status)
    requires SteadyRun(h, r, w.db.runs[r].userId, w, acts)
    ensures var run0 := w.db.runs[r];
            var initial := UserRows(w.db.matches, run0.userId);
            Recovering(h, initial, Goal(h, initial, run0, r), run0, FocusOn(Steps(w, acts), r, run0.userId))
  {
    if acts != [] {
      var front, run0 := acts[..|acts| - 1], w.db.runs[r];
      var initial := UserRows(w.db.matches, run0.userId);
      RunRecovers(h, w, r, front);
      StepRecovers(h, initial, Goal(h, initial, run0, r), run0, r, Steps(w, front), acts[|acts| - 1]);
    }
  }

  // ----- the clean execution -----

  ghost function CleanResult(h: Hunt, known: set<string>): EngineResult {
    EngineResult(|h.jobs|, |NewJobs(h.jobs, known)|, HuntMatches(h, known), h.per, map[], false)
  }

  /** One uninterrupted execution of run `r`. */
  ghost function CleanRun(h: Hunt, w: World, r: RunId, now: int): seq<Act>
    requires r in w.db.runs
  {
    var known := KnownHashes(w.db.matches, w.db.runs[r].userId);
    [Begin(r, now), Load(r), Compute(r, CleanResult(h, known)), Save(r), Upload(r), Send(r, true), Final(r, now)]
  }

  lemma SteadyOne(h: Hunt, r: RunId, user: UserId, w: World, acts: seq<Act>, a: Act)
    requires SteadyRun(h, r, user, w, acts) && Steady(h, r, user, Steps(w, acts), a)
    ensures SteadyRun(h, r, user, w, acts + [a]) && Steps(w, acts + [a]) == Step(Steps(w, acts), a)
  {
    assert (acts + [a])[..|acts + [a]| - 1] == acts;
  }

  lemma BeginStage(w: World, r: RunId, now: int)
    requires r in w.db.runs && r !in w.flights && !Terminal(w.db.runs[r].status)
    ensures var v := Step(w, Begin(r, now));
            && Flying(v, r) && v.flights[r].stage.Started? && v.db.matches == w.db.matches
            && v.db.runs[r].userId == w.db.runs[r].userId
  {}

  lemma LoadStage(w: World, r: RunId)
    requires Flying(w, r) && w.flights[r].stage.Started?
    ensures var v := Step(w, Load(r));
            Flying(v, r) && v.flights[r].stage == Loaded(KnownHashes(w.db.matches, w.db.runs[r].userId))
  {}

  lemma ComputeStage(w: World, r: RunId, result: EngineResult)
    requires Flying(w, r) && w.flights[r].stage.Loaded?
    ensures var v := Step(w, Compute(r, result)); Flying(v, r) && v.flights[r].stage.Computed?
  {}

  lemma UpToCompute(h: Hunt, w: World, r: RunId, now: int)
    requires r in w.db.runs && r !in w.flights && !Terminal(w.db.runs[r].status)
    ensures var acts := CleanRun(h, w, r, now)[..3];
            && SteadyRun(h, r, w.db.runs[r].userId, w, acts) && Flying(Steps(w, acts), r)
            && Steps(w, acts).flights[r].stage.Computed?
  {
    var user := w.db.runs[r].userId;
    var known := KnownHashes(w.db.matches, user);
    var result := CleanResult(h, known);
    var xs := UpToLoad(h, w, r, now);
    ComputeStage(Steps(w, xs), r, result);
    SteadyCompute(h, r, user, w, xs, result, known);
    assert CleanRun(h, w, r, now)[..3] == xs + [Compute(r, result)];
  }

  lemma UpToLoad(h: Hunt, w: World, r: RunId, now: int) returns (xs: seq<Act>)
    requires r in w.db.runs && r !in w.flights && !Terminal(w.db.runs[r].status)
    ensures xs == [Begin(r, now)] + [Load(r)] && SteadyRun(h, r, w.db.runs[r].userId, w, xs)
    ensures Flying(Steps(w, xs), r)
    ensures Steps(w, xs).flights[r].stage == Loaded(KnownHashes(w.db.matches, w.db.runs[r].userId))
  {
    var user := w.db.runs[r].userId;
    var none: seq<Act> := [];
    BeginStage(w, r, now);
    SteadyOwn(h, r, user, w, none, Begin(r, now));
    xs := none + [Begin(r, now)];
    LoadStage(Steps(w, xs), r);
    SteadyOwn(h, r, user, w, xs, Load(r));
    xs := xs + [Load(r)];
  }

  lemma SteadyCompute(h: Hunt, r: RunId, user: UserId, w: World, acts: seq<Act>, result: EngineResult,
                      known: set<string>)
    requires SteadyRun(h, r, user, w, acts) && r in Steps(w, acts).flights
    requires Steps(w, acts).flights[r].stage == Loaded(known) && Follows(h, result, known)
    ensures SteadyRun(h, r, user, w, acts + [Compute(r, result)])
    ensures Steps(w, acts + [Compute(r, result)]) == Step(Steps(w, acts), Compute(r, result))
  {
    SteadyOne(h, r, user, w, acts, Compute(r, result));
  }

  lemma SaveStage(w: World, r: RunId)
    requires Flying(w, r) && w.flights[r].stage.Computed?
    ensures Flying(Step(w, Save(r)), r) && Step(w, Save(r)).flights[r].stage.Persisted?
  {}

  lemma UploadStage(w: World, r: RunId)
    requires Flying(w, r) && w.flights[r].stage.Persisted?
    ensures var v := Step(w, Upload(r)); Flying(v, r) && (v.flights[r].stage.Uploaded? || v.flights[r].stage.Settled?)
  {}

  lemma SendStage(w: World, r: RunId)
    requires Flying(w, r) && (w.flights[r].stage.Uploaded? || w.flights[r].stage.Settled?)
    ensures Flying(Step(w, Send(r, true)), r) && Step(w, Send(r, true)).flights[r].stage.Settled?
  {}

  lemma FinalStage(w: World, r: RunId, now: int)
    requires Flying(w, r) && w.flights[r].stage.Settled?
    ensures var v := Step(w, Final(r, now)); r in v.db.runs && Successful(v.db.runs[r].status)
  {}

  lemma SteadyOwn(h: Hunt, r: RunId, user: UserId, w: World, acts: seq<Act>, a: Act)
    requires SteadyRun(h, r, user, w, acts) && a.r == r && !a.Compute?
    ensures SteadyRun(h, r, user, w, acts + [a]) && Steps(w, acts + [a]) == Step(Steps(w, acts), a)
  {
    assert (acts + [a])[..|acts + [a]| - 1] == acts;
  }

  lemma SteadyTail(h: Hunt, r: RunId, user: UserId, w: World, acts: seq<Act>, now: int)
    requires SteadyRun(h, r, user, w, acts)
    requires Flying(Steps(w, acts), r) && Steps(w, acts).flights[r].stage.Computed?
    ensures var all := acts + [Save(r)] + [Upload(r)] + [Send(r, true)] + [Final(r, now)];
            && SteadyRun(h, r, user, w, all)
            && r in Steps(w, all).db.runs && Successful(Steps(w, all).db.runs[r].status)
  {
    var xs := acts;
    SaveStage(Steps(w, xs), r);
    SteadyOwn(h, r, user, w, xs, Save(r));
    xs := xs + [Save(r)];
    UploadStage(Steps(w, xs), r);
    SteadyOwn(h, r, user, w, xs, Upload(r));
    xs := xs + [Upload(r)];
    SendStage(Steps(w, xs), r);
    SteadyOwn(h, r, user, w, xs, Send(r, true));
    xs := xs + [Send(r, true)];
    FinalStage(Steps(w, xs), r, now);
    SteadyOwn(h, r, user, w, xs, Final(r, now));
  }

  lemma CleanRunSucceeds(h: Hunt, w: World, r: RunId, now: int)
    requires r in w.db.runs && r !in w.flights && !Terminal(w.db.runs[r].status)
    ensures var acts := CleanRun(h, w, r, now);
            && SteadyRun(h, r, w.db.runs[r].userId, w, acts)
            && r in Steps(w, acts).db.runs && Successful(Steps(w, acts).db.runs[r].status)
  {
    var clean := CleanRun(h, w, r, now);
    UpToCompute(h, w, r, now);
    SteadyTail(h, r, w.db.runs[r].userId, w, clean[..3], now);
    CleanRunParts(h, w, r, now);
  }

  lemma CleanRunParts(h: Hunt, w: World, r: RunId, now: int)
    requires r in w.db.runs
    ensures var clean := CleanRun(h, w, r, now);
            clean == clean[..3] + [Save(r)] + [Upload(r)] + [Send(r, true)] + [Final(r, now)]
  {}

  /** The refinement. From any world in which run `r` is waiting, any mixture of crashes, failures,
      redeliveries, cancels and steps of other users that ends with `r` succeeded or partial leaves
      its user exactly the rows, and `r` the status, of one uninterrupted execution. */
  lemma RecoveryRefinesCleanRun(h: Hunt, w: World, r: RunId, acts: seq<Act>, now: int)
    requires Labels(h.score) && r in w.db.runs && r !in w.flights && !Terminal(w.db.runs[r].status)
    requires SteadyRun(h, r, w.db.runs[r].userId, w, acts)
    requires r in Steps(w, acts).db.runs && Successful(Steps(w, acts).db.runs[r].status)
    ensures var clean := Steps(w, CleanRun(h, w, r, now));
            var user := w.db.runs[r].userId;
            && UserRows(Steps(w, acts).db.matches, user) == UserRows(clean.db.matches, user)
            && r in clean.db.runs && Steps(w, acts).db.runs[r].status == clean.db.runs[r].status
  {
    CleanRunSucceeds(h, w, r, now);
    RunRecovers(h, w, r, acts);
    RunRecovers(h, w, r, CleanRun(h, w, r, now));
  }

  // ----- what those rows are -----

  lemma {:induction false} FilterDistinct(keep: MatchedJob -> bool, ms: seq<MatchedJob>)
    requires DistinctHashes(ms)
    ensures DistinctHashes(Filter(keep, ms))
  {
    if ms != [] {
      var rest := ms[1..];
      forall i, k | 0 <= i < k < |rest| ensures rest[i].job.externalHash != rest[k].job.externalHash {
        assert rest[i] == ms[i + 1] && rest[k] == ms[k + 1];
      }
      FilterDistinct(keep, rest);
      forall m | m in rest ensures m.job.externalHash != ms[0].job.externalHash {
        var i :| 0 <= i < |rest| && rest[i] == m;
        assert ms[i + 1] == m;
      }
    }
  }

  lemma HuntDistinct(h: Hunt, known: set<string>)
    requires Labels(h.score)
    ensures DistinctHashes(HuntMatches(h, known))
  {
    NewJobsMembers(h.jobs, known);
    FilterDistinct(h.keep, MapSeq(h.score, NewJobs(h.jobs, known)));
  }

  /** The rows of a run that ended well, hash by hash: the user's old row if there was one, else a
      row of the run that shows the first scraped posting with that hash if its score is kept, else none. */
  lemma RecoveredRows(h: Hunt, w: World, r: RunId, acts: seq<Act>, hash: string)
    requires Labels(h.score) && r in w.db.runs && r !in w.flights && !Terminal(w.db.runs[r].status)
    requires SteadyRun(h, r, w.db.runs[r].userId, w, acts)
    requires r in Steps(w, acts).db.runs && Successful(Steps(w, acts).db.runs[r].status)
    ensures var run0 := w.db.runs[r];
            var key, first, after := (run0.userId, hash), FirstWith(h.jobs, hash), Steps(w, acts).db.matches;
            && (key in after <==> key in w.db.matches || (first.Some? && h.keep(h.score(first.value))))
            && (key in w.db.matches ==> after[key] == w.db.matches[key])
            && (key in after && key !in w.db.matches ==>
                  Shows(after[key], h.score(first.value)) && after[key].runId == r &&
                  after[key].profileId == run0.profileId)
  {
    var run0 := w.db.runs[r];
    var user, first := run0.userId, FirstWith(h.jobs, hash);
    var rows := UserRows(w.db.matches, user);
    var known := KnownHashes(rows, user);
    var ms := HuntMatches(h, known);
    RunRecovers(h, w, r, acts);
    var after := Steps(w, acts).db.matches;
    assert (user, hash) in UserRows(after, user) <==> (user, hash) in after;
    assert (user, hash) in rows <==> (user, hash) in w.db.matches;
    assert (user, hash) in rows <==> hash in known;
    HuntDistinct(h, known);
    InsertAllGrows(rows, run0, r, ms);
    FirstWithIndex(h.jobs, hash);
    if first.Some? {
      var m := h.score(first.value);
      MatchedByMembers(h.score, h.keep, h.jobs, known, m);
      if m in ms {
        InsertedRow(rows, run0, r, ms, m);
      }
    }
    if (user, hash) in after && (user, hash) !in rows {
      var m :| m in ms && m.job.externalHash == hash;
      MatchedByMembers(h.score, h.keep, h.jobs, known, m);
    }
  }

  /** A save inserts as many rows as the run matched exactly when the user has come to none of those
      postings since the run loaded its index; with an index still current, it inserts all. */
  lemma SaveInsertsMatched(h: Hunt, w: World, r: RunId)
    requires Labels(h.score) && Flying(w, r) && w.flights[r].stage.Computed?
    requires Follows(h, w.flights[r].stage.result, w.flights[r].stage.known)
    ensures var stage, user := w.flights[r].stage, w.db.runs[r].userId;
            var saved := DoSave(w, r);
            && |saved.db.matches| == |w.db.matches| + saved.db.runs[r].stats.value.inserted
            && (saved.db.runs[r].stats.value.inserted == |stage.result.matched| <==>
                  MatchHashes(stage.result.matched) !! KnownHashes(w.db.matches, user))
            && (stage.known == KnownHashes(w.db.matches, user) ==>
                  saved.db.runs[r].stats.value.inserted == |stage.result.matched|)
  {
    var known, ms := w.flights[r].stage.known, w.flights[r].stage.result.matched;
    HuntDistinct(h, known);
    GrowthIsCounted(w.db.matches, w.db.runs[r], r, ms);
    InsertedEqualsMatched(w.db.matches, w.db.runs[r], r, ms);
    forall hash | hash in MatchHashes(ms) ensures hash !in known {
      var m :| m in ms && m.job.externalHash == hash;
      MatchedByMembers(h.score, h.keep, h.jobs, known, m);
    }
  }

  /** Over whole histories: while no other run of the user saves, every save of the run inserts exactly the
      rows it matched, whatever attempts came before. */
  lemma SteadySavesInsertAll(h: Hunt, w: World, r: RunId, acts: seq<Act>)
    requires Labels(h.score) && r in w.db.runs && r !in w.flights && !Successful(w.db.runs[r].status)
    requires SteadyRun(h, r, w.db.runs[r].userId, w, acts)
    requires Flying(Steps(w, acts), r) && Steps(w, acts).flights[r].stage.Computed?
    ensures var v := Steps(w, acts);
            var matched := |v.flights[r].stage.result.matched|;
            && DoSave(v, r).db.runs[r].stats.value.inserted == matched
            && DoSave(v, r).inserted == v.inserted + matched
            && |DoSave(v, r).db.matches| == |v.db.matches| + matched
  {
    var v, user := Steps(w, acts), w.db.runs[r].userId;
    RunRecovers(h, w, r, acts);
    KnownOfUserRows(v.db.matches, user);
    SaveInsertsMatched(h, v, r);
  }
}
