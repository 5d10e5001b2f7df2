/** The live event stream of a run, watched while the run is executed. */
module RunStream {
  import opened Wrappers
  import opened EngineTypes
  import opened RunSteps
  import EventStream

  /** What the stream carries: the progress rows and, at its end, the status. */
  datatype Datum = Row(row: StepRow) | Closed(status: Status)

  type Poll = EventStream.Poll<Datum>

  /** Steps up to the moment a poll reads the progress rows, and from there until it reads the status. */
  datatype Gap = Gap(before: seq<Act>, between: seq<Act>)

  function RowData(w: World, r: RunId): seq<Datum> { MapSeq((row: StepRow) => Row(row), StepsOf(w.db, r)) }

  function StatusOf(w: World, r: RunId): Status { if r in w.db.runs then w.db.runs[r].status else Queued }

  /** What a poll reads, and the world it leaves behind. */
  function Read(w: World, gap: Gap, r: RunId): (World, Poll) {
    var v := Steps(w, gap.before);
    var u := Steps(v, gap.between);
    (u, EventStream.Poll(RowData(v, r), Terminal(StatusOf(u, r)), Closed(StatusOf(u, r))))
  }

  function After(w: World, gaps: seq<Gap>, r: RunId): World {
    if gaps == [] then w else Read(After(w, gaps[..|gaps| - 1], r), gaps[|gaps| - 1], r).0
  }

  function Watched(w: World, gaps: seq<Gap>, r: RunId): (polls: seq<Poll>)
    ensures |polls| == |gaps|
  {
    if gaps == [] then []
    else
      var front := gaps[..|gaps| - 1];
      Watched(w, front, r) + [Read(After(w, front, r), gaps[|gaps| - 1], r).1]
  }

  /** The step starts another attempt of the run, which clears its rows. */
  predicate Restarts(w: World, a: Act, r: RunId) {
    a.Begin? && a.r == r && r !in w.flights && r in w.db.runs && !Terminal(w.db.runs[r].status)
  }

  ghost predicate Unbroken(w: World, acts: seq<Act>, r: RunId) {
    acts == [] ||
    (Unbroken(w, acts[..|acts| - 1], r) && !Restarts(Steps(w, acts[..|acts| - 1]), acts[|acts| - 1], r))
  }

  lemma OneRowMore(w: World, a: Act, r: RunId)
    requires !Restarts(w, a, r)
    ensures StepsOf(w.db, r) <= StepsOf(Step(w, a).db, r)
  {
    if a.Begin? || a.Progress? {
    } else if a.Save? {
      if Flying(w, a.r) {
        assert DoSave(w, a.r).db.steps == w.db.steps;
      }
    } else {
      RowsUntouched(w, a);
    }
  }

  lemma RowsUntouched(w: World, a: Act)
    requires !a.Begin? && !a.Progress? && !a.Save?
    ensures Step(w, a).db.steps == w.db.steps
  {}

  lemma {:induction false} RowsGrow(w: World, acts: seq<Act>, r: RunId)
    requires Unbroken(w, acts, r)
    ensures StepsOf(w.db, r) <= StepsOf(Steps(w, acts).db, r)
  {
    if acts != [] {
      RowsGrow(w, acts[..|acts| - 1], r);
      OneRowMore(Steps(w, acts[..|acts| - 1]), acts[|acts| - 1], r);
    }
  }

  /** No attempt starts between the first and the last reading of the rows. */
  ghost predicate OneAttemptWatched(w: World, gaps: seq<Gap>, r: RunId) {
    |gaps| <= 1 ||
    var front, last := gaps[..|gaps| - 1], gaps[|gaps| - 1];
    && OneAttemptWatched(w, front, r)
    && Unbroken(RowsReadIn(w, front, r), front[|front| - 1].between, r)
    && Unbroken(After(w, front, r), last.before, r)
  }

  /** The world in which the last of the polls read the rows. */
  function RowsReadIn(w: World, gaps: seq<Gap>, r: RunId): World
    requires gaps != []
  { Steps(After(w, gaps[..|gaps| - 1], r), gaps[|gaps| - 1].before) }

  lemma RowDataGrows(v: World, u: World, r: RunId)
    requires StepsOf(v.db, r) <= StepsOf(u.db, r)
    ensures RowData(v, r) <= RowData(u, r)
  {}

  lemma NextPollGrows(w: World, gaps: seq<Gap>, r: RunId)
    requires |gaps| > 1 && OneAttemptWatched(w, gaps, r)
    ensures Watched(w, gaps, r)[|gaps| - 2].steps <= Watched(w, gaps, r)[|gaps| - 1].steps
  {
    var front, last := gaps[..|gaps| - 1], gaps[|gaps| - 1];
    var v, u := RowsReadIn(w, front, r), After(w, front, r);
    RowsGrow(v, front[|front| - 1].between, r);
    RowsGrow(u, last.before, r);
    RowDataGrows(v, Steps(u, last.before), r);
  }

  /** While one attempt lasts, whatever the run and all others do between and during the polls, the polls
      only ever see rows added. */
  lemma {:induction false} AttemptIsOneAttempt(w: World, gaps: seq<Gap>, r: RunId)
    requires OneAttemptWatched(w, gaps, r)
    ensures EventStream.OneAttempt(Watched(w, gaps, r))
  {
    if |gaps| > 1 {
      var front, polls := gaps[..|gaps| - 1], Watched(w, gaps, r);
      AttemptIsOneAttempt(w, front, r);
      NextPollGrows(w, gaps, r);
      var earlier := Watched(w, front, r);
      forall i | 0 < i < |polls| ensures polls[i - 1].steps <= polls[i].steps {
        if i < |polls| - 1 {
          assert polls[i] == earlier[i] && polls[i - 1] == earlier[i - 1];
        }
      }
    }
  }

  /** Hence the page of a run watched during one attempt shows every row the last poll read, and the
      status exactly when a poll saw it terminal. */
  lemma WatchedEndToEnd(c: EventStream.Codec<Datum>, w: World, gaps: seq<Gap>, r: RunId, chunks: seq<string>)
    requires EventStream.Faithful(c) && gaps != [] && OneAttemptWatched(w, gaps, r)
    requires var polls := Watched(w, gaps, r);
             EventStream.Concat(chunks) ==
             EventStream.PrintAll(c, EventStream.WireAll(EventStream.Streamed(polls, 0, 0)))
    ensures var polls := Watched(w, gaps, r);
            var p := polls[EventStream.LastPoll(polls, 0)];
            EventStream.PageOf(c, EventStream.Concat(chunks)) ==
            EventStream.Page(p.steps, if p.terminal then Some(p.status) else None)
  {
    AttemptIsOneAttempt(w, gaps, r);
    EventStream.EndToEnd(c, Watched(w, gaps, r), chunks);
  }

  // ----- a run that is retried while it is watched -----

  const FIRST := StepRow("scrape", "running")
  const SECOND := StepRow("scrape", "failed")

  /** An attempt up to its first row. */
  function Attempt(now: int, row: StepRow): seq<Act> { [Begin(0, now), Load(0), Progress(0, row)] }

  /** A first attempt reports a row; then it dies, and a second one reports a row and fails. */
  const RETRIED := [
    Gap([Create(0, 0, 0, 3)] + Attempt(1, FIRST), []),
    Gap([Die(0)] + Attempt(2, SECOND) + [Raise(0, false, "", 3)], [])
  ]

  lemma OneRow(w: World, now: int, row: StepRow)
    requires 0 in w.db.runs && !Terminal(w.db.runs[0].status) && 0 !in w.flights && w.db.steps - {0} == map[]
    ensures var v := Steps(w, Attempt(now, row));
            Flying(v, 0) && v.db.steps == map[0 := [row]] && v.db.runs[0].status.Running?
  {
    var acts := Attempt(now, row);
    StepsPrefix(w, acts, 0);
    var begun := Step(w, Begin(0, now));
    assert Flying(begun, 0) && begun.flights[0].stage.Started? && begun.db.steps == map[];
    assert begun.db.runs[0].status.Running?;
    StepsPrefix(w, acts, 1);
    var loaded := Step(begun, Load(0));
    assert Flying(loaded, 0) && loaded.flights[0].stage.Loaded? && loaded.db == begun.db;
    StepsPrefix(w, acts, 2);
    assert StepsOf(loaded.db, 0) == [] && [] + [row] == [row];
    assert acts[..3] == acts;
  }

  lemma FirstAttempt() returns (w: World)
    ensures w == Steps(EMPTY, RETRIED[0].before)
    ensures Flying(w, 0) && w.db.steps == map[0 := [FIRST]] && w.db.runs[0].status.Running?
  {
    w := Steps(EMPTY, RETRIED[0].before);
    var create := [Create(0, 0, 0, 3)];
    var created := Step(EMPTY, create[0]);
    StepsOne(EMPTY, [], create[0]);
    assert [] + create == create;
    assert 0 in created.db.runs && created.db.runs[0].status.Queued? && created.flights == map[];
    assert created.db.steps == map[];
    OneRow(created, 1, FIRST);
    StepsConcat(EMPTY, create, Attempt(1, FIRST));
  }

  lemma DiedWaits(w: World)
    requires Flying(w, 0) && w.db.steps == map[0 := [FIRST]] && w.db.runs[0].status.Running?
    ensures var died := Step(w, Die(0));
            && 0 in died.db.runs && !Terminal(died.db.runs[0].status) && 0 !in died.flights
            && died.db.steps - {0} == map[]
  {
    assert Step(w, Die(0)) == Ended(w, 0);
  }

  lemma SecondRow(w: World)
    requires Flying(w, 0) && w.db.steps == map[0 := [FIRST]] && w.db.runs[0].status.Running?
    ensures var v := Steps(w, [Die(0)] + Attempt(2, SECOND)); Flying(v, 0) && v.db.steps == map[0 := [SECOND]]
  {
    var die: seq<Act> := [Die(0)];
    DiedWaits(w);
    OneRow(Step(w, Die(0)), 2, SECOND);
    StepsOne(w, [], Die(0));
    assert [] + die == die;
    StepsConcat(w, die, Attempt(2, SECOND));
  }

  lemma RaiseFails(w: World)
    requires Flying(w, 0)
    ensures var v := Step(w, Raise(0, false, "", 3));
            v.db.steps == w.db.steps && 0 in v.db.runs && v.db.runs[0].status.Failed?
  {}

  lemma SecondAttempt(w: World)
    requires Flying(w, 0) && w.db.steps == map[0 := [FIRST]] && w.db.runs[0].status.Running?
    ensures var v := Steps(w, RETRIED[1].before);
            v.db.steps == map[0 := [SECOND]] && 0 in v.db.runs && v.db.runs[0].status.Failed?
  {
    SecondRow(w);
    RaiseFails(Steps(w, [Die(0)] + Attempt(2, SECOND)));
    StepsOne(w, [Die(0)] + Attempt(2, SECOND), Raise(0, false, "", 3));
  }

  lemma RetriedPolls() returns (polls: seq<Poll>)
    ensures polls == Watched(EMPTY, RETRIED, 0)
    ensures polls == [EventStream.Poll([Row(FIRST)], false, Closed(Running)),
                      EventStream.Poll([Row(SECOND)], true, Closed(Status.Failed))]
  {
    polls := Watched(EMPTY, RETRIED, 0);
    var w := FirstAttempt();
    SecondAttempt(w);
    var v := Steps(w, RETRIED[1].before);
    assert RETRIED[..1][..0] == [] && RETRIED[..1] == [RETRIED[0]];
    assert Steps(w, []) == w && Steps(v, []) == v;
    assert After(EMPTY, [RETRIED[0]], 0) == w && Watched(EMPTY, [RETRIED[0]], 0) == [Read(EMPTY, RETRIED[0], 0).1];
    assert polls == Watched(EMPTY, [RETRIED[0]], 0) + [Read(w, RETRIED[1], 0).1];
    assert RowData(w, 0) == [Row(FIRST)] && RowData(v, 0) == [Row(SECOND)];
  }

  /** A run retried while it is watched: the stream shows the first attempt's row and never the row that
      the run ends with, which stands where one was already sent. */
  lemma RetryLosesRows()
    ensures var polls := Watched(EMPTY, RETRIED, 0);
            && EventStream.Streamed(polls, 0, 0) ==
                 EventStream.StepsOf([Row(FIRST)]) + [EventStream.Done(Closed(Status.Failed))]
            && RowData(After(EMPTY, RETRIED, 0), 0) == [Row(SECOND)]
            && !EventStream.LastCovers(polls, 1)
  {
    var polls := RetriedPolls();
    TwoPollsStreamed(polls, Row(FIRST), Row(SECOND));
    TwoPollsDiffer(polls, Row(FIRST), Row(SECOND));
    AfterLast(EMPTY, RETRIED, 0);
  }

  lemma AfterLast(w: World, gaps: seq<Gap>, r: RunId)
    requires gaps != [] && gaps[|gaps| - 1].between == []
    ensures RowData(After(w, gaps, r), r) == Watched(w, gaps, r)[|gaps| - 1].steps
  {}

  /** Two polls of lists of one row each: the second row is not sent. */
  lemma TwoPollsStreamed(polls: seq<Poll>, first: Datum, second: Datum)
    requires |polls| == 2 && polls[0].steps == [first] && polls[1].steps == [second]
    requires !polls[0].terminal && polls[1].terminal
    ensures EventStream.Streamed(polls, 0, 0) == EventStream.StepsOf([first]) + [EventStream.Done(polls[1].status)]
  {
    assert EventStream.Unsent(polls[0], 0) == [first];
    assert EventStream.Unsent(polls[1], 1) == [];
    assert EventStream.Streamed(polls, 1, 1) == EventStream.AfterRows(polls, 1, 1);
  }

  lemma TwoPollsDiffer(polls: seq<Poll>, first: Datum, second: Datum)
    requires |polls| == 2 && polls[0].steps == [first] && polls[1].steps == [second] && first != second
    ensures !EventStream.LastCovers(polls, 1)
  {
    assert EventStream.Sends(polls, 0, 0);
  }
}
