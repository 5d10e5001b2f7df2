/** What a stored match row says, in every reachable world: which posting it shows, and why it was kept. */
module RunRows {
  import opened Wrappers
  import opened EngineTypes
  import opened Matching
  import opened Engine
  import opened RunSteps

  /** The engine inputs of a run, one for each of its attempts. */
  type Inputs = RunId -> seq<EngineInput>

  /** The engine matches this posting for run `r`: from one of its inputs, knowing some hashes already. */
  ghost predicate Hunted(inputs: Inputs, r: RunId, m: MatchedJob) {
    exists i, known :: 0 <= i < |inputs(r)| && inputs(r)[i].batchSize > 0 && m in Matched(inputs(r)[i], known)
  }

  ghost predicate AllHunted(inputs: Inputs, r: RunId, ms: seq<MatchedJob>) {
    forall m :: m in ms ==> Hunted(inputs, r, m)
  }

  /** Every result that a run computes is the engine's. Scrapes and replies may differ between attempts. */
  ghost predicate FromEngine(inputs: Inputs, acts: seq<Act>) {
    forall k :: 0 <= k < |acts| && acts[k].Compute? ==> AllHunted(inputs, acts[k].r, acts[k].result.matched)
  }

  ghost predicate RowHunted(inputs: Inputs, key: (UserId, string), row: MatchRow) {
    exists m :: Hunted(inputs, row.runId, m) && m.job.externalHash == key.1 && Shows(row, m)
  }

  /** The row belongs to the user and profile of its run. */
  predicate OwnedBy(runs: map<RunId, Run>, key: (UserId, string), row: MatchRow) {
    row.runId in runs && runs[row.runId].userId == key.0 && runs[row.runId].profileId == row.profileId
  }

  ghost predicate Backed(inputs: Inputs, w: World) {
    && (forall key :: key in w.db.matches ==>
          RowHunted(inputs, key, w.db.matches[key]) && OwnedBy(w.db.runs, key, w.db.matches[key]))
    && (forall r :: r in w.flights && w.flights[r].stage.Computed? ==>
          AllHunted(inputs, r, w.flights[r].stage.result.matched))
  }

  // ----- the steps -----

  /** A run keeps its user and its profile. */
  predicate Owners(w: World, v: World) {
    forall r :: r in w.db.runs ==>
      r in v.db.runs && v.db.runs[r].userId == w.db.runs[r].userId && v.db.runs[r].profileId == w.db.runs[r].profileId
  }

  lemma AdvanceOwners(w: World, a: Act)
    requires Flying(w, a.r)
    ensures Owners(w, Advance(w, a))
  {}

  lemma StepOwners(w: World, a: Act)
    ensures Owners(w, Step(w, a))
  {
    if Flying(w, a.r) {
      AdvanceOwners(w, a);
    }
  }

  /** Only a computation puts a result in flight, and saving takes it out. */
  lemma ComputedBy(w: World, a: Act, r: RunId)
    requires var v := Step(w, a); r in v.flights && v.flights[r].stage.Computed?
    ensures (a.Compute? && a.r == r && Step(w, a).flights[r].stage.result == a.result) ||
            (r in w.flights && Step(w, a).flights[r] == w.flights[r])
  {
    if a.r != r {
      StepOther(w, a, r);
    } else if Flying(w, r) {
      AdvanceComputed(w, a);
    }
  }

  lemma AdvanceComputed(w: World, a: Act)
    requires Flying(w, a.r)
    requires var v := Advance(w, a); a.r in v.flights && v.flights[a.r].stage.Computed?
    ensures (a.Compute? && Advance(w, a).flights[a.r].stage.result == a.result) ||
            Advance(w, a).flights[a.r] == w.flights[a.r]
  {}

  lemma SaveBacks(inputs: Inputs, w: World, r: RunId, key: (UserId, string))
    requires Backed(inputs, w) && Flying(w, r) && w.flights[r].stage.Computed? && key in DoSave(w, r).db.matches
    ensures RowHunted(inputs, key, DoSave(w, r).db.matches[key])
    ensures OwnedBy(w.db.runs, key, DoSave(w, r).db.matches[key])
  {
    var run, ms := w.db.runs[r], w.flights[r].stage.result.matched;
    if key in w.db.matches {
      InsertAllKeeps(w.db.matches, run, r, ms);
    } else {
      var m := InsertAllAdds(w.db.matches, run, r, ms, key);
      RowShows(run, r, m, ms);
    }
  }

  lemma StepBacks(inputs: Inputs, w: World, a: Act)
    requires Backed(inputs, w) && (a.Compute? ==> AllHunted(inputs, a.r, a.result.matched))
    ensures Backed(inputs, Step(w, a))
  {
    var v := Step(w, a);
    StepOwners(w, a);
    forall r | r in v.flights && v.flights[r].stage.Computed?
      ensures AllHunted(inputs, r, v.flights[r].stage.result.matched)
    {
      ComputedBy(w, a, r);
    }
    forall key | key in v.db.matches
      ensures RowHunted(inputs, key, v.db.matches[key]) && OwnedBy(v.db.runs, key, v.db.matches[key])
    {
      if a.Save? && Flying(w, a.r) && w.flights[a.r].stage.Computed? {
        SaveBacks(inputs, w, a.r, key);
      } else if !a.Save? {
        QuietStep(w, a);
      }
    }
  }

  lemma {:induction false} AlwaysBacked(inputs: Inputs, acts: seq<Act>)
    requires FromEngine(inputs, acts)
    ensures Backed(inputs, Steps(EMPTY, acts))
  {
    if acts != [] {
      AlwaysBacked(inputs, acts[..|acts| - 1]);
      StepBacks(inputs, Steps(EMPTY, acts[..|acts| - 1]), acts[|acts| - 1]);
    }
  }

  // ----- what a row says -----

  /** Where a match comes from: with these hashes known, `m` is what the input's résumé number `resume` makes of
      its new posting number `j`, the first one scraped with this hash, and is good enough or watched. */
  datatype Origin = Origin(inp: EngineInput, known: set<string>, j: nat, resume: nat)

  ghost predicate Explains(o: Origin, hash: string, m: MatchedJob) {
    o.inp.batchSize > 0 &&
    var jobs := Scraped(o.inp, |o.inp.sources|);
    var q := Query(NewJobs(jobs, o.known), o.inp.resumes, o.inp.replies, o.inp.batchSize);
    && o.j < |q.jobs| && o.resume < |q.resumes| && Evaluates(q, o.resume, o.j, m)
    && m.job.externalHash == hash && FirstWith(jobs, hash) == Some(m.job) && Worth(o.inp, m)
  }

  /** In every reachable world, under any interleaving, crashes, retries and replies, every row belongs to the
      user and profile of its run and shows the first posting that one of the run's attempts scraped with its
      hash, as the reply for one of the résumés or that résumé's keywords score it; and the posting was kept
      for its score or for its company. */
  lemma EveryRowExplained(inputs: Inputs, acts: seq<Act>, key: (UserId, string))
    returns (o: Origin, m: MatchedJob)
    requires FromEngine(inputs, acts) && key in Steps(EMPTY, acts).db.matches
    ensures var w := Steps(EMPTY, acts);
            var row := w.db.matches[key];
            OwnedBy(w.db.runs, key, row) && o.inp in inputs(row.runId) && Explains(o, key.1, m) && Shows(row, m)
  {
    AlwaysBacked(inputs, acts);
    var row := Steps(EMPTY, acts).db.matches[key];
    m :| Hunted(inputs, row.runId, m) && m.job.externalHash == key.1 && Shows(row, m);
    var i: int, known: set<string> :| 0 <= i < |inputs(row.runId)| && inputs(row.runId)[i].batchSize > 0 &&
      m in Matched(inputs(row.runId)[i], known);
    var inp := inputs(row.runId)[i];
    var j, resume := MatchExplained(inp, known, m);
    o := Origin(inp, known, j, resume);
  }

  /** The row shows posting `i` of the input's scrape, the first one with its hash, and was kept for its score or
      for its company. */
  ghost predicate Earned(inp: EngineInput, i: nat, hash: string, row: MatchRow) {
    var jobs := Scraped(inp, |inp.sources|);
    && i < |jobs| && jobs[i].externalHash == hash && (forall k :: 0 <= k < i ==> jobs[k].externalHash != hash)
    && row.company == Take(jobs[i].company, 300) && row.title == Take(jobs[i].title, 400)
    && row.location == Take(jobs[i].location, 200) && row.url == Take(jobs[i].url, 1024)
    && row.excerpt == Take(jobs[i].description, 2000)
    && (row.percentage >= inp.threshold || exists c :: c in inp.watchlist && Lower(c) == Lower(jobs[i].company))
  }

  /** In short: company, title, place, link and text of a row are those of one scraped posting, no earlier one of
      that scrape has its hash, and its percentage reaches the threshold or its company is on the watchlist. */
  lemma EveryRowEarned(inputs: Inputs, acts: seq<Act>, key: (UserId, string))
    returns (inp: EngineInput, i: nat)
    requires FromEngine(inputs, acts) && key in Steps(EMPTY, acts).db.matches
    ensures var row := Steps(EMPTY, acts).db.matches[key]; inp in inputs(row.runId) && Earned(inp, i, key.1, row)
  {
    var o, m := EveryRowExplained(inputs, acts, key);
    inp := o.inp;
    var jobs := Scraped(inp, |inp.sources|);
    FirstWithIndex(jobs, key.1);
    i :| 0 <= i < |jobs| && jobs[i] == m.job && forall k :: 0 <= k < i ==> jobs[k].externalHash != key.1;
  }
}
