/** The run executor as a system of atomic steps.

    An execution of a run is cut at its database commits and at its external effects; between
    two steps other runs may take any of theirs, and an execution may end by dying or raising.
    Executions of one run are serial, as the job queue delivers them. */
module RunSteps {
  import opened Wrappers
  import opened EngineTypes
  import opened Engine

  type RunId = nat
  type UserId = nat

  datatype Status = Queued | Running | Succeeded | Partial | Failed | Cancelled

  predicate Terminal(s: Status) { s.Succeeded? || s.Partial? || s.Failed? || s.Cancelled? }

  predicate Successful(s: Status) { s.Succeeded? || s.Partial? }

  datatype Stats = Stats(scraped: nat, newCount: nat, matched: nat, inserted: nat)

  datatype Run = Run(userId: UserId, profileId: nat, status: Status, attempt: nat, maxAttempts: nat,
                     startedAt: Option<int>, finishedAt: Option<int>, notifiedAt: Option<int>,
                     reportKey: Option<RunId>, error: Option<string>, stats: Option<Stats>)

  datatype MatchRow = MatchRow(runId: RunId, profileId: nat, source: string, company: string, title: string,
                               location: string, url: string, excerpt: string, percentage: int,
                               matchedSkills: seq<string>, missingSkills: seq<string>, whyFit: string,
                               urgency: string, action: string, matchedProfile: string)

  /** `job_matches`, under its unique constraint on (user, hash). */
  type Matches = map<(UserId, string), MatchRow>

  datatype StepRow = StepRow(name: string, status: string)

  datatype Note = Note(runId: RunId, userId: UserId)

  datatype Tables = Tables(runs: map<RunId, Run>, matches: Matches, sources: map<(RunId, string), SourceInfo>,
                           steps: map<RunId, seq<StepRow>>, notes: seq<Note>)

  datatype Mail = Mail(runId: RunId, rows: Matches)

  // ----- what each block of code does to the tables -----

  function RowOf(run: Run, r: RunId, m: MatchedJob): MatchRow {
    var j := m.job;
    MatchRow(r, run.profileId, Take(j.source, 60), Take(j.company, 300), Take(j.title, 400), Take(j.location, 200),
             Take(j.url, 1024), Take(j.description, 2000), m.percentage, m.matchedSkills, m.missingSkills,
             Take(m.whyFit, 4000), Take(if m.urgency == "" then "LOW" else m.urgency, 12), Take(m.action, 40),
             Take(m.profileId, 64))
  }

  /** A row shows its match, each text cut to the width of its column. */
  predicate Shows(row: MatchRow, m: MatchedJob) {
    && row.company == Take(m.job.company, 300) && row.title == Take(m.job.title, 400)
    && row.source == Take(m.job.source, 60) && row.location == Take(m.job.location, 200)
    && row.url == Take(m.job.url, 1024) && row.excerpt == Take(m.job.description, 2000)
    && row.percentage == m.percentage
    && row.matchedSkills == m.matchedSkills && row.missingSkills == m.missingSkills
    && row.whyFit == Take(m.whyFit, 4000) && row.action == Take(m.action, 40)
    && (m.urgency != "" ==> row.urgency == Take(m.urgency, 12)) && (m.urgency == "" ==> row.urgency == "LOW")
    && row.matchedProfile == Take(m.profileId, 64)
  }

  /** It is a row of the run that shows one of these matches, the one with this hash. */
  predicate ShowsOneOf(row: MatchRow, run: Run, r: RunId, ms: seq<MatchedJob>, hash: string) {
    && row.runId == r && row.profileId == run.profileId
    && exists m :: m in ms && m.job.externalHash == hash && Shows(row, m)
  }

  /** Insert one match, or do nothing when the user already has a row with its hash. */
  function InsertOne(matches: Matches, run: Run, r: RunId, m: MatchedJob): Matches {
    var key := (run.userId, m.job.externalHash);
    if key in matches then matches else matches[key := RowOf(run, r, m)]
  }

  function InsertAll(matches: Matches, run: Run, r: RunId, ms: seq<MatchedJob>): Matches {
    if ms == [] then matches else InsertOne(InsertAll(matches, run, r, ms[..|ms| - 1]), run, r, ms[|ms| - 1])
  }

  /** How many of the inserts took effect: the row counts of the statements, added up. */
  function Inserted(matches: Matches, run: Run, r: RunId, ms: seq<MatchedJob>): nat {
    if ms == [] then 0
    else
      var front, last := ms[..|ms| - 1], ms[|ms| - 1];
      var taken := (run.userId, last.job.externalHash) in InsertAll(matches, run, r, front);
      Inserted(matches, run, r, front) + (if taken then 0 else 1)
  }

  function UpsertSources(sources: map<(RunId, string), SourceInfo>, r: RunId, per: map<string, SourceInfo>)
    : map<(RunId, string), SourceInfo>
  {
    sources + map key | key in (set s | s in per :: (r, s)) :: per[key.1]
  }

  function Begun(db: Tables, r: RunId, now: int): Tables
    requires r in db.runs
  {
    var run := db.runs[r];
    var startedAt := if run.startedAt.Some? then run.startedAt else Some(now);
    db.(runs := db.runs[r := run.(status := Running, startedAt := startedAt,
                                  attempt := run.attempt + 1, error := None)],
        steps := db.steps - {r})
  }

  function StepsOf(db: Tables, r: RunId): seq<StepRow> { if r in db.steps then db.steps[r] else [] }

  function Saved(db: Tables, r: RunId, result: EngineResult): Tables
    requires r in db.runs
  {
    var run := db.runs[r];
    var stats := Stats(result.scraped, result.newCount, |result.matched|, Inserted(db.matches, run, r, result.matched));
    db.(matches := InsertAll(db.matches, run, r, result.matched),
        sources := UpsertSources(db.sources, r, result.perSource),
        runs := db.runs[r := run.(stats := Some(stats))])
  }

  function FinalStatus(result: EngineResult): Status {
    if exists s :: s in result.perSource && result.perSource[s].status.Failed? then Partial else Succeeded
  }

  /** What `notify_if_needed` leaves in the session: the report's key, and the record of the mail. */
  function Noted(db: Tables, r: RunId, reported: bool, sent: bool, now: int): (noted: Tables)
    requires r in db.runs
    ensures r in noted.runs
  {
    var run := db.runs[r];
    db.(runs := db.runs[r := run.(reportKey := if reported then Some(r) else run.reportKey,
                                  notifiedAt := if sent then Some(now) else run.notifiedAt)],
        notes := if sent then db.notes + [Note(r, run.userId)] else db.notes)
  }

  function Finished(db: Tables, r: RunId, result: EngineResult, reported: bool, sent: bool, now: int): Tables
    requires r in db.runs
  {
    var noted := Noted(db, r, reported, sent, now);
    noted.(runs := noted.runs[r := noted.runs[r].(status := FinalStatus(result), finishedAt := Some(now))])
  }

  /** Does the failure handler put the run back in the queue? */
  predicate Requeues(run: Run, transient: bool) { transient && run.attempt < run.maxAttempts }

  function Handled(db: Tables, r: RunId, transient: bool, message: string, now: int): Tables {
    if r !in db.runs then db
    else
      var run := db.runs[r];
      db.(runs := db.runs[r :=
        if Requeues(run, transient) then run.(status := Queued, error := Some(message))
        else run.(status := Status.Failed, error := Some(message), finishedAt := Some(now))])
  }

  function CancelledRun(db: Tables, r: RunId, user: UserId, now: int): Tables {
    if r in db.runs && db.runs[r].userId == user && !Terminal(db.runs[r].status) then
      db.(runs := db.runs[r := db.runs[r].(status := Cancelled, finishedAt := Some(now))])
    else db
  }

  function KnownHashes(matches: Matches, user: UserId): set<string> {
    set key | key in matches && key.0 == user :: key.1
  }

  /** The rows of a run: what its report is built from. */
  function OwnedRows(matches: Matches, r: RunId): Matches {
    map key | key in matches && matches[key].runId == r :: matches[key]
  }

  // ----- the world and its steps -----

  /** How far an execution has come. `Settled` is after `notify_if_needed`, before the last commit. */
  datatype Stage =
    | Started
    | Loaded(known: set<string>)
    | Computed(known: set<string>, result: EngineResult)
    | Persisted(result: EngineResult)
    | Uploaded(result: EngineResult, rows: Matches)
    | Settled(result: EngineResult, reported: bool, sent: bool)

  /** An execution in flight, with the `notified_at` of the run object it loaded at its start. */
  datatype Flight = Flight(stage: Stage, notifiedAt: Option<int>)

  /** The committed tables, the executions in flight, what the outside world has received, and three
      counts kept only to state theorems: mails whose record was lost, requeues by the failure
      handler after the first commit, and match rows reported as inserted. */
  datatype World = World(db: Tables, flights: map<RunId, Flight>, outbox: seq<Mail>, objects: map<RunId, Matches>,
                         lost: map<RunId, nat>, retries: map<RunId, nat>, inserted: nat)

  datatype Act =
    | Create(r: RunId, user: UserId, profile: nat, maxAttempts: nat)
    | Cancel(r: RunId, user: UserId, now: int)
    | EarlyRaise(r: RunId, transient: bool, message: string, now: int)
    | Begin(r: RunId, now: int)
    | Load(r: RunId)
    | Progress(r: RunId, row: StepRow)
    | Compute(r: RunId, result: EngineResult)
    | Save(r: RunId)
    | Upload(r: RunId)
    | Send(r: RunId, userFound: bool)
    | Final(r: RunId, now: int)
    | Raise(r: RunId, transient: bool, message: string, now: int)
    | Die(r: RunId)

  const EMPTY := World(Tables(map[], map[], map[], map[], []), map[], [], map[], map[], map[], 0)

  function Get(m: map<RunId, nat>, r: RunId): nat { if r in m then m[r] else 0 }

  function SentBy(w: World, r: RunId): nat {
    if r in w.flights && w.flights[r].stage.Settled? && w.flights[r].stage.sent then 1 else 0
  }

  /** An execution ends without its last commit. */
  function Ended(w: World, r: RunId): World {
    w.(flights := w.flights - {r}, lost := w.lost[r := Get(w.lost, r) + SentBy(w, r)])
  }

  /** The run has an execution in flight that has reached its database row. */
  predicate Flying(w: World, r: RunId) { r in w.flights && r in w.db.runs }

  function SetStage(w: World, r: RunId, stage: Stage): World
    requires r in w.flights
  { w.(flights := w.flights[r := w.flights[r].(stage := stage)]) }

  /** One step; a step that is not possible in `w` leaves it as it is. */
  function Step(w: World, a: Act): World {
    var r := a.r;
    match a
    case Create(_, user, profile, maxAttempts) =>
      if r in w.db.runs then w
      else w.(db := w.db.(runs := w.db.runs[r :=
        Run(user, profile, Queued, 0, maxAttempts, None, None, None, None, None, None)]))
    case Cancel(_, user, now) => w.(db := CancelledRun(w.db, r, user, now))
    case EarlyRaise(_, transient, message, now) =>
      if r in w.flights then w else w.(db := Handled(w.db, r, transient, message, now))
    case Begin(_, now) =>
      if r in w.flights || r !in w.db.runs || Terminal(w.db.runs[r].status) then w
      else w.(db := Begun(w.db, r, now), flights := w.flights[r := Flight(Started, w.db.runs[r].notifiedAt)])
    case Die(_) => if Flying(w, r) then Ended(w, r) else w
    case Raise(_, transient, message, now) =>
      if !Flying(w, r) then w
      else
        var more := if Requeues(w.db.runs[r], transient) then 1 else 0;
        Ended(w, r).(db := Handled(w.db, r, transient, message, now),
            retries := w.retries[r := Get(w.retries, r) + more])
    case _ => if Flying(w, r) then Advance(w, a) else w
  }

  // The steps of an execution in flight, in order; each waits for the stage before it.

  function DoLoad(w: World, r: RunId): World
    requires Flying(w, r)
  {
    if w.flights[r].stage.Started? then SetStage(w, r, Loaded(KnownHashes(w.db.matches, w.db.runs[r].userId))) else w
  }

  function DoProgress(w: World, r: RunId, row: StepRow): World
    requires Flying(w, r)
  {
    if w.flights[r].stage.Loaded? then w.(db := w.db.(steps := w.db.steps[r := StepsOf(w.db, r) + [row]])) else w
  }

  function DoCompute(w: World, r: RunId, result: EngineResult): World
    requires Flying(w, r)
  {
    if w.flights[r].stage.Loaded? then SetStage(w, r, Computed(w.flights[r].stage.known, result)) else w
  }

  function DoSave(w: World, r: RunId): World
    requires Flying(w, r)
  {
    if w.flights[r].stage.Computed? then
      var result := w.flights[r].stage.result;
      var db := Saved(w.db, r, result);
      SetStage(w, r, Persisted(result)).(db := db, inserted := w.inserted + db.runs[r].stats.value.inserted)
    else w
  }

  function DoUpload(w: World, r: RunId): World
    requires Flying(w, r)
  {
    if w.flights[r].stage.Persisted? then
      var result := w.flights[r].stage.result;
      var rows := OwnedRows(w.db.matches, r);
      if w.flights[r].notifiedAt.Some? || rows == map[] then SetStage(w, r, Settled(result, false, false))
      else SetStage(w, r, Uploaded(result, rows)).(objects := w.objects[r := rows])
    else w
  }

  function DoSend(w: World, r: RunId, userFound: bool): World
    requires Flying(w, r)
  {
    if w.flights[r].stage.Uploaded? then
      var stage := w.flights[r].stage;
      if userFound then SetStage(w, r, Settled(stage.result, true, true)).(outbox := w.outbox + [Mail(r, stage.rows)])
      else SetStage(w, r, Settled(stage.result, true, false))
    else w
  }

  function DoFinal(w: World, r: RunId, now: int): World
    requires Flying(w, r)
  {
    if w.flights[r].stage.Settled? then
      var stage := w.flights[r].stage;
      w.(db := Finished(w.db, r, stage.result, stage.reported, stage.sent, now), flights := w.flights - {r})
    else w
  }

  function Advance(w: World, a: Act): World
    requires Flying(w, a.r)
  {
    match a
    case Load(r) => DoLoad(w, r)
    case Progress(r, row) => DoProgress(w, r, row)
    case Compute(r, result) => DoCompute(w, r, result)
    case Save(r) => DoSave(w, r)
    case Upload(r) => DoUpload(w, r)
    case Send(r, userFound) => DoSend(w, r, userFound)
    case Final(r, now) => DoFinal(w, r, now)
    case _ => w
  }

  function Steps(w: World, acts: seq<Act>): World {
    if acts == [] then w else Step(Steps(w, acts[..|acts| - 1]), acts[|acts| - 1])
  }

  lemma {:induction false} StepsConcat(w: World, xs: seq<Act>, ys: seq<Act>)
    ensures Steps(w, xs + ys) == Steps(Steps(w, xs), ys)
  {
    if ys == [] {
      assert xs + ys == xs;
    } else {
      assert (xs + ys)[..|xs + ys| - 1] == xs + ys[..|ys| - 1];
      StepsConcat(w, xs, ys[..|ys| - 1]);
    }
  }

  lemma StepsOne(w: World, acts: seq<Act>, a: Act)
    ensures Steps(w, acts + [a]) == Step(Steps(w, acts), a)
  {
    assert (acts + [a])[..|acts + [a]| - 1] == acts;
  }

  lemma StepsPrefix(w: World, acts: seq<Act>, k: nat)
    requires k < |acts|
    ensures Steps(w, acts[..k + 1]) == Step(Steps(w, acts[..k]), acts[k])
  {
    assert acts[..k + 1] == acts[..k] + [acts[k]];
    StepsOne(w, acts[..k], acts[k]);
  }

  // ----- what a step leaves alone -----

  lemma QuietAdvance(w: World, a: Act)
    requires Flying(w, a.r) && !a.Save?
    ensures var v := Advance(w, a);
            v.db.matches == w.db.matches && v.db.sources == w.db.sources && v.inserted == w.inserted
  {}

  /** Only a save touches match rows and source rows. */
  lemma QuietStep(w: World, a: Act)
    requires !a.Save?
    ensures var v := Step(w, a);
            v.db.matches == w.db.matches && v.db.sources == w.db.sources && v.inserted == w.inserted
  {
    if Flying(w, a.r) {
      QuietAdvance(w, a);
    }
  }

  predicate SameRun(w: World, v: World, r: RunId) {
    && (r in v.db.runs <==> r in w.db.runs) && (r in w.db.runs ==> v.db.runs[r] == w.db.runs[r])
    && (r in v.flights <==> r in w.flights) && (r in w.flights ==> v.flights[r] == w.flights[r])
  }

  lemma AdvanceOther(w: World, a: Act, r: RunId)
    requires Flying(w, a.r) && a.r != r
    ensures SameRun(w, Advance(w, a), r)
  {}

  /** A step of one run leaves the others' rows and executions alone. */
  lemma StepOther(w: World, a: Act, r: RunId)
    requires a.r != r
    ensures SameRun(w, Step(w, a), r)
  {
    if Flying(w, a.r) {
      AdvanceOther(w, a, r);
    }
  }

  // ----- inserting matches -----

  lemma {:induction false} InsertAllSize(matches: Matches, run: Run, r: RunId, ms: seq<MatchedJob>)
    ensures |matches| <= |InsertAll(matches, run, r, ms)| <= |matches| + |ms|
  {
    if ms != [] {
      InsertAllSize(matches, run, r, ms[..|ms| - 1]);
    }
  }

  /** The table grows by one row for each insert that took effect. */
  lemma {:induction false} GrowthIsCounted(matches: Matches, run: Run, r: RunId, ms: seq<MatchedJob>)
    ensures |InsertAll(matches, run, r, ms)| == |matches| + Inserted(matches, run, r, ms)
  {
    if ms != [] {
      GrowthIsCounted(matches, run, r, ms[..|ms| - 1]);
    }
  }

  lemma {:induction false} InsertAllKeeps(matches: Matches, run: Run, r: RunId, ms: seq<MatchedJob>)
    ensures forall key :: key in matches ==>
              key in InsertAll(matches, run, r, ms) && InsertAll(matches, run, r, ms)[key] == matches[key]
  {
    if ms != [] {
      InsertAllKeeps(matches, run, r, ms[..|ms| - 1]);
    }
  }

  lemma {:induction false} InsertAllAdds(matches: Matches, run: Run, r: RunId, ms: seq<MatchedJob>,
                                         key: (UserId, string)) returns (m: MatchedJob)
    requires key in InsertAll(matches, run, r, ms) && key !in matches
    ensures m in ms && key == (run.userId, m.job.externalHash)
    ensures InsertAll(matches, run, r, ms)[key] == RowOf(run, r, m)
  {
    var front := ms[..|ms| - 1];
    m := ms[|ms| - 1];
    if key in InsertAll(matches, run, r, front) {
      m := InsertAllAdds(matches, run, r, front, key);
    }
  }

  lemma RowShows(run: Run, r: RunId, m: MatchedJob, ms: seq<MatchedJob>)
    ensures Shows(RowOf(run, r, m), m)
    ensures m in ms ==> ShowsOneOf(RowOf(run, r, m), run, r, ms, m.job.externalHash)
  {}

  lemma {:induction false} InsertAllCovers(matches: Matches, run: Run, r: RunId, ms: seq<MatchedJob>)
    ensures forall m :: m in ms ==> (run.userId, m.job.externalHash) in InsertAll(matches, run, r, ms)
  {
    if ms != [] {
      var front, last := ms[..|ms| - 1], ms[|ms| - 1];
      InsertAllCovers(matches, run, r, front);
      assert ms == front + [last];
    }
  }

  /** Inserting only adds rows: of this user and this run, for exactly the hashes of the matches, each showing
      its match. */
  lemma InsertAllGrows(matches: Matches, run: Run, r: RunId, ms: seq<MatchedJob>)
    ensures |matches| <= |InsertAll(matches, run, r, ms)| <= |matches| + |ms|
    ensures forall key :: key in matches ==>
              key in InsertAll(matches, run, r, ms) && InsertAll(matches, run, r, ms)[key] == matches[key]
    ensures forall key :: key in InsertAll(matches, run, r, ms) ==>
              key in matches || (key.0 == run.userId && key.1 in MatchHashes(ms) &&
                  ShowsOneOf(InsertAll(matches, run, r, ms)[key], run, r, ms, key.1))
    ensures forall m :: m in ms ==> (run.userId, m.job.externalHash) in InsertAll(matches, run, r, ms)
  {
    InsertAllSize(matches, run, r, ms);
    InsertAllKeeps(matches, run, r, ms);
    forall key | key in InsertAll(matches, run, r, ms) && key !in matches
      ensures key.0 == run.userId && key.1 in MatchHashes(ms)
      ensures ShowsOneOf(InsertAll(matches, run, r, ms)[key], run, r, ms, key.1)
    {
      var m := InsertAllAdds(matches, run, r, ms, key);
      RowShows(run, r, m, ms);
    }
    InsertAllCovers(matches, run, r, ms);
  }

  predicate DistinctHashes(ms: seq<MatchedJob>) {
    forall i, k :: 0 <= i < k < |ms| ==> ms[i].job.externalHash != ms[k].job.externalHash
  }

  lemma MatchHashesSplit(front: seq<MatchedJob>, last: MatchedJob)
    ensures MatchHashes(front + [last]) == MatchHashes(front) + {last.job.externalHash}
  {}

  lemma LastIsNew(matches: Matches, run: Run, r: RunId, front: seq<MatchedJob>, last: MatchedJob)
    requires DistinctHashes(front + [last])
    ensures DistinctHashes(front) && last.job.externalHash !in MatchHashes(front)
    ensures var key := (run.userId, last.job.externalHash);
            key in InsertAll(matches, run, r, front) <==> key in matches
  {
    var ms := front + [last];
    assert forall i :: 0 <= i < |front| ==> ms[i] == front[i] && ms[i].job.externalHash != ms[|front|].job.externalHash;
    InsertAllGrows(matches, run, r, front);
  }

  /** With distinct hashes, as the dedupe step guarantees, as many rows are inserted as there are
      matches exactly when the user had a row for none of them. */
  lemma {:induction false} InsertedEqualsMatched(matches: Matches, run: Run, r: RunId, ms: seq<MatchedJob>)
    requires DistinctHashes(ms)
    ensures |InsertAll(matches, run, r, ms)| == |matches| + |ms| <==>
              MatchHashes(ms) !! KnownHashes(matches, run.userId)
  {
    InsertAllGrows(matches, run, r, ms);
    if ms != [] {
      var front, last := ms[..|ms| - 1], ms[|ms| - 1];
      assert ms == front + [last];
      MatchHashesSplit(front, last);
      LastIsNew(matches, run, r, front, last);
      InsertAllGrows(matches, run, r, front);
      InsertedEqualsMatched(matches, run, r, front);
      var key := (run.userId, last.job.externalHash);
      assert key in matches <==> key.1 in KnownHashes(matches, run.userId);
    }
  }

  /** What inserting leaves for one hash of the user: the row that was there, else one that shows its match. */
  lemma {:induction false} InsertedRow(matches: Matches, run: Run, r: RunId, ms: seq<MatchedJob>, m: MatchedJob)
    requires DistinctHashes(ms) && m in ms
    ensures var key := (run.userId, m.job.externalHash);
            var after := InsertAll(matches, run, r, ms);
            && key in after
            && if key in matches then after[key] == matches[key]
               else Shows(after[key], m) && after[key].runId == r && after[key].profileId == run.profileId
  {
    var front, last := ms[..|ms| - 1], ms[|ms| - 1];
    assert ms == front + [last];
    LastIsNew(matches, run, r, front, last);
    InsertAllGrows(matches, run, r, front);
    if m in front {
      InsertedRow(matches, run, r, front, m);
    }
  }
}
