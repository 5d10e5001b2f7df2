/** The crash window of the notification: an execution that dies after its mail is followed by another mail. */
module RunMails {
  import opened Wrappers
  import opened EngineTypes
  import opened Engine
  import opened RunSteps
  import opened RunInvariants
  import opened RunWorker

  /** An execution up to and including its mail. */
  function UpToMail(r: RunId, result: EngineResult, now: int): seq<Act> {
    [Begin(r, now), Load(r), Compute(r, result), Save(r), Upload(r), Send(r, true)]
  }

  /** The run waits, its user was not told yet, and saving `result` leaves the run with rows. */
  ghost predicate WillTell(w: World, r: RunId, result: EngineResult) {
    Waiting(w, r) && r !in w.flights && w.db.runs[r].notifiedAt.None? &&
    OwnedRows(InsertAll(w.db.matches, w.db.runs[r], r, result.matched), r) != map[]
  }

  ghost function RowsAfter(w: World, r: RunId, result: EngineResult): Matches
    requires r in w.db.runs
  { InsertAll(w.db.matches, w.db.runs[r], r, result.matched) }

  // Each step of such an execution, after the `k` before it.

  lemma ThenBegin(w: World, acts: seq<Act>, r: RunId, now: int)
    requires |acts| > 0 && acts[0] == Begin(r, now) && Waiting(w, r) && r !in w.flights
    ensures Underway(w, Steps(w, acts[..1]), r, Started, w.db.matches)
  {
    StepsPrefix(w, acts, 0);
    UnderwayBegin(w, r, now);
  }

  lemma ThenLoad(w: World, acts: seq<Act>, k: nat, r: RunId)
    requires k < |acts| && acts[k] == Load(r) && Underway(w, Steps(w, acts[..k]), r, Started, w.db.matches)
    ensures Underway(w, Steps(w, acts[..k + 1]), r, Loaded(KnownHashes(w.db.matches, w.db.runs[r].userId)),
                     w.db.matches)
  {
    StepsPrefix(w, acts, k);
    UnderwayLoad(w, Steps(w, acts[..k]), r);
  }

  lemma ThenCompute(w: World, acts: seq<Act>, k: nat, r: RunId, known: set<string>, result: EngineResult)
    requires k < |acts| && acts[k] == Compute(r, result)
    requires Underway(w, Steps(w, acts[..k]), r, Loaded(known), w.db.matches)
    ensures Underway(w, Steps(w, acts[..k + 1]), r, Computed(known, result), w.db.matches)
  {
    StepsPrefix(w, acts, k);
    UnderwayCompute(w, Steps(w, acts[..k]), r, known, result);
  }

  lemma ThenSave(w: World, acts: seq<Act>, k: nat, r: RunId, known: set<string>, result: EngineResult)
    requires k < |acts| && acts[k] == Save(r)
    requires Underway(w, Steps(w, acts[..k]), r, Computed(known, result), w.db.matches)
    ensures Underway(w, Steps(w, acts[..k + 1]), r, Persisted(result), RowsAfter(w, r, result))
  {
    StepsPrefix(w, acts, k);
    UnderwaySave(w, Steps(w, acts[..k]), r, known, result);
  }

  lemma ThenUpload(w: World, acts: seq<Act>, k: nat, r: RunId, result: EngineResult)
    requires k < |acts| && acts[k] == Upload(r) && WillTell(w, r, result)
    requires Underway(w, Steps(w, acts[..k]), r, Persisted(result), RowsAfter(w, r, result))
    ensures var rows := RowsAfter(w, r, result);
            Underway(w, Steps(w, acts[..k + 1]), r, Uploaded(result, OwnedRows(rows, r)), rows)
  {
    StepsPrefix(w, acts, k);
    UploadsNews(w, Steps(w, acts[..k]), r, result);
  }

  lemma ThenSend(w: World, acts: seq<Act>, k: nat, r: RunId, result: EngineResult, owned: Matches, rows: Matches)
    requires k < |acts| && acts[k] == Send(r, true)
    requires Underway(w, Steps(w, acts[..k]), r, Uploaded(result, owned), rows)
    ensures var v := Steps(w, acts[..k + 1]);
            && v.outbox == w.outbox + [Mail(r, owned)]
            && Underway(w.(outbox := v.outbox), v, r, Settled(result, true, true), rows)
  {
    StepsPrefix(w, acts, k);
    SendsNews(w, Steps(w, acts[..k]), r, result, owned, true);
  }

  lemma LoadedThen(w: World, acts: seq<Act>, r: RunId, now: int)
    requires Waiting(w, r) && r !in w.flights && |acts| > 1 && acts[0] == Begin(r, now) && acts[1] == Load(r)
    ensures Underway(w, Steps(w, acts[..2]), r, Loaded(KnownHashes(w.db.matches, w.db.runs[r].userId)), w.db.matches)
  {
    ThenBegin(w, acts, r, now);
    ThenLoad(w, acts, 1, r);
  }

  lemma SavedThen(w: World, acts: seq<Act>, r: RunId, known: set<string>, result: EngineResult)
    requires |acts| > 3 && acts[2] == Compute(r, result) && acts[3] == Save(r)
    requires Underway(w, Steps(w, acts[..2]), r, Loaded(known), w.db.matches)
    ensures Underway(w, Steps(w, acts[..4]), r, Persisted(result), RowsAfter(w, r, result))
  {
    ThenCompute(w, acts, 2, r, known, result);
    ThenSave(w, acts, 3, r, known, result);
  }

  lemma SentThen(w: World, acts: seq<Act>, r: RunId, result: EngineResult)
    requires |acts| == 6 && acts[4] == Upload(r) && acts[5] == Send(r, true) && WillTell(w, r, result)
    requires Underway(w, Steps(w, acts[..4]), r, Persisted(result), RowsAfter(w, r, result))
    ensures var v, rows := Steps(w, acts), RowsAfter(w, r, result);
            && v.outbox == w.outbox + [Mail(r, OwnedRows(rows, r))]
            && Underway(w.(outbox := v.outbox), v, r, Settled(result, true, true), rows)
  {
    var rows := RowsAfter(w, r, result);
    ThenUpload(w, acts, 4, r, result);
    ThenSend(w, acts, 5, r, result, OwnedRows(rows, r), rows);
    assert acts[..6] == acts;
  }

  lemma UpToMailIs(r: RunId, result: EngineResult, now: int)
    ensures var acts := UpToMail(r, result, now);
            && |acts| == 6 && acts[0] == Begin(r, now) && acts[1] == Load(r) && acts[2] == Compute(r, result)
            && acts[3] == Save(r) && acts[4] == Upload(r) && acts[5] == Send(r, true)
  {}

  lemma MailOf(w: World, acts: seq<Act>, r: RunId, result: EngineResult, now: int)
    requires WillTell(w, r, result)
    requires |acts| == 6 && acts[0] == Begin(r, now) && acts[1] == Load(r) && acts[2] == Compute(r, result)
    requires acts[3] == Save(r) && acts[4] == Upload(r) && acts[5] == Send(r, true)
    ensures var v, rows := Steps(w, acts), RowsAfter(w, r, result);
            && v.outbox == w.outbox + [Mail(r, OwnedRows(rows, r))]
            && Underway(w.(outbox := v.outbox), v, r, Settled(result, true, true), rows)
  {
    LoadedThen(w, acts, r, now);
    SavedThen(w, acts, r, KnownHashes(w.db.matches, w.db.runs[r].userId), result);
    SentThen(w, acts, r, result);
  }

  lemma MailSent(w: World, r: RunId, result: EngineResult, now: int)
    requires WillTell(w, r, result)
    ensures var v, rows := Steps(w, UpToMail(r, result, now)), RowsAfter(w, r, result);
            && v.outbox == w.outbox + [Mail(r, OwnedRows(rows, r))]
            && Underway(w.(outbox := v.outbox), v, r, Settled(result, true, true), rows)
  {
    UpToMailIs(r, result, now);
    MailOf(w, UpToMail(r, result, now), r, result, now);
  }

  lemma DiesAfterMail(w: World, v: World, r: RunId, result: EngineResult, rows: Matches)
    requires Underway(w, v, r, Settled(result, true, true), rows)
    ensures var u := Step(v, Die(r));
            && Waiting(u, r) && r !in u.flights && u.db == v.db && u.outbox == v.outbox
            && u.db.runs[r].notifiedAt == w.db.runs[r].notifiedAt
  {}

  lemma MailThenDie(w: World, r: RunId, result: EngineResult, now: int)
    requires WillTell(w, r, result)
    ensures var u := Steps(w, UpToMail(r, result, now) + [Die(r)]);
            && Waiting(u, r) && r !in u.flights && u.db.runs[r].notifiedAt.None? && u.db.notes == w.db.notes
            && u.db.runs[r].userId == w.db.runs[r].userId
            && u.db.matches == RowsAfter(w, r, result)
            && u.outbox == w.outbox + [Mail(r, OwnedRows(u.db.matches, r))]
  {
    var v := Steps(w, UpToMail(r, result, now));
    MailSent(w, r, result, now);
    DiesAfterMail(w.(outbox := v.outbox), v, r, result, v.db.matches);
    StepsOne(w, UpToMail(r, result, now), Die(r));
  }

  lemma MailThenFinal(w: World, r: RunId, result: EngineResult, now: int)
    requires WillTell(w, r, result)
    ensures var u := Steps(w, UpToMail(r, result, now) + [Final(r, now)]);
            && r in u.db.runs && Successful(u.db.runs[r].status) && r !in u.flights
            && u.db.notes == w.db.notes + [Note(r, w.db.runs[r].userId)] && u.db.runs[r].notifiedAt == Some(now)
            && u.db.runs[r].attempt == w.db.runs[r].attempt + 1
            && u.db.runs[r].maxAttempts == w.db.runs[r].maxAttempts && u.db.runs[r].userId == w.db.runs[r].userId
            && u.db.matches == RowsAfter(w, r, result)
            && u.outbox == w.outbox + [Mail(r, OwnedRows(u.db.matches, r))]
  {
    var v := Steps(w, UpToMail(r, result, now));
    MailSent(w, r, result, now);
    EndSettled(w.(outbox := v.outbox), v, r, result, true, true, now);
    StepsOne(w, UpToMail(r, result, now), Final(r, now));
  }

  /** Whatever the two executions find, a death between mail and last commit costs a second mail about
      the rows of the run, of which only one is ever recorded. */
  lemma SecondMail(w: World, r: RunId, first: EngineResult, second: EngineResult, now: int) returns (acts: seq<Act>)
    requires WillTell(w, r, first)
    ensures acts == (UpToMail(r, first, now) + [Die(r)]) + (UpToMail(r, second, now) + [Final(r, now)])
    ensures var v := Steps(w, acts);
            && MailsOf(v.outbox, r) == MailsOf(w.outbox, r) + 2
            && v.db.notes == w.db.notes + [Note(r, w.db.runs[r].userId)]
            && r in v.db.runs && Successful(v.db.runs[r].status) && r !in v.flights
  {
    var died, done := UpToMail(r, first, now) + [Die(r)], UpToMail(r, second, now) + [Final(r, now)];
    acts := died + done;
    var u := Steps(w, died);
    MailThenDie(w, r, first, now);
    StillTells(w, u, r, first, second);
    MailThenFinal(u, r, second, now);
    StepsConcat(w, died, done);
    MailAppended(w.outbox, u.outbox[|w.outbox|], r);
    MailAppended(u.outbox, Steps(u, done).outbox[|u.outbox|], r);
  }

  /** The rows of the first execution are still there to be told of. */
  lemma StillTells(w: World, u: World, r: RunId, first: EngineResult, second: EngineResult)
    requires WillTell(w, r, first) && Waiting(u, r) && r !in u.flights && u.db.runs[r].notifiedAt.None?
    requires u.db.matches == InsertAll(w.db.matches, w.db.runs[r], r, first.matched)
    ensures WillTell(u, r, second)
  {
    var rows := u.db.matches;
    var owned := OwnedRows(rows, r);
    var key :| key in owned;
    InsertAllKeeps(rows, u.db.runs[r], r, second.matched);
    assert key in OwnedRows(InsertAll(rows, u.db.runs[r], r, second.matched), r);
  }

  const MATCH := MatchedJob(Job("yc", "c", "t", "l", "d", "u", "h"), 80, [], [], "fit", "LOW", "Skip", "p")
  const FOUND := EngineResult(1, 1, [MATCH], map[], map[], false)

  /** A reachable world with two mails for one run, one notification row and one lost record. */
  lemma TwoMailsReachable() returns (acts: seq<Act>)
    ensures var w := Steps(EMPTY, acts);
            && MailsOf(w.outbox, 0) == 2 && NotesOf(w.db.notes, 0) == 1 && Get(w.lost, 0) == 1
            && 0 in w.db.runs && Successful(w.db.runs[0].status)
  {
    var create := [Create(0, 0, 0, 3)];
    StepsOne(EMPTY, [], create[0]);
    assert [] + create == create;
    var w := Steps(EMPTY, create);
    var run := Run(0, 0, Queued, 0, 3, None, None, None, None, None, None);
    assert w == EMPTY.(db := EMPTY.db.(runs := map[0 := run]));
    OneMatchOwned(run);
    var more := SecondMail(w, 0, FOUND, QUIET, 1);
    acts := create + more;
    StepsConcat(EMPTY, create, more);
    MailsOfNothing();
    NotificationAccounting(acts, 0);
    NoteAppended(w.db.notes, Note(0, 0), 0);
  }

  lemma MailsOfNothing()
    ensures MailsOf(EMPTY.outbox, 0) == 0 && NotesOf(EMPTY.db.notes, 0) == 0
  {}

  lemma OneMatchOwned(run: Run)
    ensures OwnedRows(InsertAll(map[], run, 0, FOUND.matched), 0) != map[]
  {
    var key := (run.userId, MATCH.job.externalHash);
    InsertAllCovers(map[], run, 0, FOUND.matched);
    InsertAllGrows(map[], run, 0, FOUND.matched);
    assert MATCH in FOUND.matched;
    assert key in OwnedRows(InsertAll(map[], run, 0, FOUND.matched), 0);
  }
}
