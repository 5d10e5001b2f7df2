/** One tenant's hunt: scrape every source, drop what is already known, score, keep the good matches. */
module Engine {
  import opened Wrappers
  import opened EngineTypes
  import opened Matching

  const BIG3 := "jobspy"

  /** What asking one source came to. `stepOk` is false when the progress callback raised after
      the postings had already been added, which the handler then books as a failed source. */
  datatype Fetch = NoSuchSource | Raised | Fetched(jobs: seq<Job>, stepOk: bool)

  datatype Source = Source(name: string, fetch: Fetch)

  datatype SourceStatus = Unknown | Skipped | Ok | Failed

  datatype SourceInfo = SourceInfo(status: SourceStatus, found: nat)

  datatype EngineInput = EngineInput(sources: seq<Source>, big3OptIn: bool, fingerprint: Job -> string,
                                     resumes: seq<Resume>, replies: Replies, batchSize: nat,
                                     threshold: int, watchlist: seq<string>)

  datatype EngineResult = EngineResult(scraped: nat, newCount: nat, matched: seq<MatchedJob>,
                                       perSource: map<string, SourceInfo>, tally: map<string, nat>, degraded: bool)

  // ----- scraping -----

  function WithHash(fingerprint: Job -> string, j: Job): Job {
    if j.externalHash == "" then j.(externalHash := fingerprint(j)) else j
  }

  predicate Asked(s: Source, big3OptIn: bool) {
    !s.fetch.NoSuchSource? && (s.name == BIG3 ==> big3OptIn)
  }

  function Contribution(inp: EngineInput, s: Source): seq<Job> {
    if Asked(s, inp.big3OptIn) && s.fetch.Fetched? then MapSeq(j => WithHash(inp.fingerprint, j), s.fetch.jobs) else []
  }

  function Info(inp: EngineInput, s: Source): SourceInfo {
    if s.fetch.NoSuchSource? then SourceInfo(Unknown, 0)
    else if !Asked(s, inp.big3OptIn) then SourceInfo(Skipped, 0)
    else if s.fetch.Fetched? && s.fetch.stepOk then SourceInfo(Ok, |s.fetch.jobs|)
    else SourceInfo(Failed, 0)
  }

  function Scraped(inp: EngineInput, n: nat): seq<Job>
    requires n <= |inp.sources|
  { if n == 0 then [] else Scraped(inp, n - 1) + Contribution(inp, inp.sources[n - 1]) }

  function PerSource(inp: EngineInput, n: nat): map<string, SourceInfo>
    requires n <= |inp.sources|
  { if n == 0 then map[] else PerSource(inp, n - 1)[inp.sources[n - 1].name := Info(inp, inp.sources[n - 1])] }

  method HashAll(fingerprint: Job -> string, jobs: seq<Job>) returns (hashed: seq<Job>)
    ensures hashed == MapSeq(j => WithHash(fingerprint, j), jobs)
  {
    hashed := [];
    for k := 0 to |jobs|
      invariant |hashed| == k && forall i :: 0 <= i < k ==> hashed[i] == WithHash(fingerprint, jobs[i])
    {
      hashed := hashed + [WithHash(fingerprint, jobs[k])];
    }
  }

  /** One turn of the scraping loop: what the source adds, and what is booked for it. */
  method ScrapeOne(inp: EngineInput, s: Source) returns (jobs: seq<Job>, info: SourceInfo)
    ensures jobs == Contribution(inp, s) && info == Info(inp, s)
    ensures s.fetch.NoSuchSource? ==> jobs == [] && info == SourceInfo(Unknown, 0)
    ensures Closed(inp, s) ==> jobs == [] && info == SourceInfo(Skipped, 0)
    ensures Open(inp, s) && s.fetch.Raised? ==> jobs == [] && info == SourceInfo(Failed, 0)
    ensures Open(inp, s) && s.fetch.Fetched? ==>
              && |jobs| == |s.fetch.jobs|
              && info == if s.fetch.stepOk then SourceInfo(Ok, |jobs|) else SourceInfo(Failed, 0)
  {
    jobs := [];
    if s.fetch.NoSuchSource? {
      return jobs, SourceInfo(Unknown, 0);
    }
    if s.name == BIG3 && !inp.big3OptIn {
      return jobs, SourceInfo(Skipped, 0);
    }
    if s.fetch.Raised? {
      return jobs, SourceInfo(Failed, 0);
    }
    jobs := HashAll(inp.fingerprint, s.fetch.jobs);
    info := SourceInfo(Ok, |jobs|);
    if !s.fetch.stepOk {
      info := SourceInfo(Failed, 0);
    }
  }

  method Scrape(inp: EngineInput) returns (allJobs: seq<Job>, perSource: map<string, SourceInfo>)
    ensures allJobs == Scraped(inp, |inp.sources|)
    ensures perSource == PerSource(inp, |inp.sources|)
  {
    allJobs, perSource := [], map[];
    for i := 0 to |inp.sources|
      invariant allJobs == Scraped(inp, i) && perSource == PerSource(inp, i)
    {
      var jobs, info := ScrapeOne(inp, inp.sources[i]);
      allJobs := allJobs + jobs;
      perSource := perSource[inp.sources[i].name := info];
    }
  }

  /** A known source that the tenant has not opted in to, and any other known one. */
  predicate Closed(inp: EngineInput, s: Source) {
    !s.fetch.NoSuchSource? && s.name == "jobspy" && !inp.big3OptIn
  }

  predicate Open(inp: EngineInput, s: Source) { !s.fetch.NoSuchSource? && (s.name == "jobspy" ==> inp.big3OptIn) }

  /** A source is reported failed: asking it raised, or its progress callback did. */
  predicate Fails(inp: EngineInput, s: Source) {
    Open(inp, s) && (s.fetch.Raised? || (s.fetch.Fetched? && !s.fetch.stepOk))
  }

  /** A run has a failed source exactly if asking some source failed, whatever it was closed to. */
  lemma AnyFailedExactly(inp: EngineInput)
    requires DistinctSources(inp)
    ensures var per := PerSource(inp, |inp.sources|);
            (exists name :: name in per && per[name].status.Failed?) <==>
            (exists i :: 0 <= i < |inp.sources| && Fails(inp, inp.sources[i]))
  {
    var per := PerSource(inp, |inp.sources|);
    forall i | 0 <= i < |inp.sources|
      ensures inp.sources[i].name in per && (per[inp.sources[i].name].status.Failed? <==> Fails(inp, inp.sources[i]))
    {
      PerSourceLookup(inp, |inp.sources|, i);
    }
    if name :| name in per && per[name].status.Failed? {
      var i := PerSourceNames(inp, |inp.sources|, name);
      assert Fails(inp, inp.sources[i]);
    }
    if i :| 0 <= i < |inp.sources| && Fails(inp, inp.sources[i]) {
      assert inp.sources[i].name in per;
    }
  }

  lemma {:induction false} PerSourceNames(inp: EngineInput, n: nat, name: string) returns (i: nat)
    requires n <= |inp.sources| && name in PerSource(inp, n)
    ensures i < n && inp.sources[i].name == name
  {
    i := n - 1;
    if inp.sources[i].name != name {
      i := PerSourceNames(inp, n - 1, name);
    }
  }

  /** What one more source adds: if it is open and answered, all its postings in its order, after those of the
      sources before it, each with its hash or else its fingerprint; otherwise nothing. */
  lemma ScrapedAt(inp: EngineInput, i: nat)
    requires i < |inp.sources|
    ensures Scraped(inp, i) <= Scraped(inp, i + 1) && Scraped(inp, 0) == []
    ensures var s, before, after := inp.sources[i], |Scraped(inp, i)|, Scraped(inp, i + 1);
            if Open(inp, s) && s.fetch.Fetched? then
              && |after| == before + |s.fetch.jobs|
              && forall k :: 0 <= k < |s.fetch.jobs| ==> HashedFrom(inp, s.fetch.jobs[k], after[before + k])
            else |after| == before
  {
    var s, before, after := inp.sources[i], Scraped(inp, i), Scraped(inp, i + 1);
    assert after == before + Contribution(inp, s);
    if Open(inp, s) && s.fetch.Fetched? {
      forall k | 0 <= k < |s.fetch.jobs| ensures HashedFrom(inp, s.fetch.jobs[k], after[|before| + k]) {
        assert after[|before| + k] == Contribution(inp, s)[k];
      }
    }
  }

  /** The posting as it was fetched, with its own hash or, failing that, its fingerprint. */
  predicate HashedFrom(inp: EngineInput, fetched: Job, j: Job) {
    j == fetched.(externalHash := j.externalHash) &&
    j.externalHash == if fetched.externalHash != "" then fetched.externalHash else inp.fingerprint(fetched)
  }

  /** The counts a run reports for its sources, added up. */
  function FoundSum(inp: EngineInput, per: map<string, SourceInfo>, n: nat): nat
    requires n <= |inp.sources|
  {
    if n == 0 then 0
    else
      FoundSum(inp, per, n - 1) +
      (if inp.sources[n - 1].name in per then per[inp.sources[n - 1].name].found else 0)
  }

  /** Postings kept from sources that a raising progress callback turned into failures. */
  function Unaccounted(inp: EngineInput, n: nat): nat
    requires n <= |inp.sources|
  {
    if n == 0 then 0
    else
      var s := inp.sources[n - 1];
      Unaccounted(inp, n - 1) + (if s.fetch.Fetched? && !s.fetch.stepOk then |Contribution(inp, s)| else 0)
  }

  predicate DistinctSources(inp: EngineInput) {
    forall i, k :: 0 <= i < k < |inp.sources| ==> inp.sources[i].name != inp.sources[k].name
  }

  lemma {:induction false} PerSourceLookup(inp: EngineInput, n: nat, i: nat)
    requires DistinctSources(inp) && i < n <= |inp.sources|
    ensures var per := PerSource(inp, n);
            inp.sources[i].name in per && per[inp.sources[i].name] == Info(inp, inp.sources[i])
  {
    if i < n - 1 {
      PerSourceLookup(inp, n - 1, i);
    }
  }

  lemma SourceAccounting(inp: EngineInput, s: Source)
    ensures |Contribution(inp, s)| ==
            Info(inp, s).found + (if s.fetch.Fetched? && !s.fetch.stepOk then |Contribution(inp, s)| else 0)
  {}

  /** Scrape accounting: with distinct source names, the number of postings scraped is the sum of
      the per-source counts plus what callback failures left uncounted, so the two agree exactly
      when no fetched source was booked as failed. */
  lemma {:induction false} ScrapeAccounting(inp: EngineInput, n: nat)
    requires DistinctSources(inp) && n <= |inp.sources|
    ensures |Scraped(inp, n)| == FoundSum(inp, PerSource(inp, |inp.sources|), n) + Unaccounted(inp, n)
  {
    if n > 0 {
      ScrapeAccounting(inp, n - 1);
      PerSourceLookup(inp, |inp.sources|, n - 1);
      SourceAccounting(inp, inp.sources[n - 1]);
    }
  }

  // ----- dedupe -----

  function Hashes(jobs: seq<Job>): set<string> { set j | j in jobs :: j.externalHash }

  /** The first posting of each hash that is not yet known, in scraping order. */
  function NewJobs(jobs: seq<Job>, known: set<string>): seq<Job> {
    if jobs == [] then []
    else
      var before, j := NewJobs(jobs[..|jobs| - 1], known), jobs[|jobs| - 1];
      if j.externalHash !in known && j.externalHash !in Hashes(before) then before + [j] else before
  }

  /** The preloaded index of what the tenant has already been shown. */
  class PgSeenStore {
    var known: set<string>

    constructor (known: set<string>)
      ensures this.known == known
    { this.known := known; }

    function FilterNew(hashes: seq<string>): (unseen: set<string>)
      reads this
      ensures forall h :: h in unseen <==> h in hashes && h !in known
    { set h | h in hashes && h !in known }

    method MarkSeen(hashes: seq<string>)
      modifies this
      ensures known == old(known) + (set h | h in hashes)
      ensures forall asked :: FilterNew(asked) == old(FilterNew(asked)) - (set h | h in hashes)
    { known := known + (set h | h in hashes); }
  }

  method Dedupe(allJobs: seq<Job>, seen: PgSeenStore) returns (newJobs: seq<Job>)
    ensures newJobs == NewJobs(allJobs, seen.known)
  {
    var hashes := MapSeq((j: Job) => j.externalHash, allJobs);
    var unseen := seen.FilterNew(hashes);
    var seenNow: set<string> := {};
    newJobs := [];
    for i := 0 to |allJobs|
      invariant newJobs == NewJobs(allJobs[..i], seen.known)
      invariant seenNow == Hashes(newJobs)
    {
      var j := allJobs[i];
      assert hashes[i] == j.externalHash;
      assert allJobs[..i + 1][..i] == allJobs[..i];
      if j.externalHash in unseen && j.externalHash !in seenNow {
        seenNow := seenNow + {j.externalHash};
        newJobs := newJobs + [j];
      }
    }
    assert allJobs[..|allJobs|] == allJobs;
  }

  /** The posting that a hash stands for in a scrape: the first one that carries it. */
  function FirstWith(jobs: seq<Job>, hash: string): Option<Job> {
    if jobs == [] then None
    else
      var earlier := FirstWith(jobs[..|jobs| - 1], hash);
      if earlier.None? && jobs[|jobs| - 1].externalHash == hash then Some(jobs[|jobs| - 1]) else earlier
  }

  lemma {:induction false} FirstWithIndex(jobs: seq<Job>, hash: string)
    ensures FirstWith(jobs, hash).None? <==> hash !in Hashes(jobs)
    ensures FirstWith(jobs, hash).Some? ==>
              exists i :: 0 <= i < |jobs| && jobs[i] == FirstWith(jobs, hash).value && jobs[i].externalHash == hash &&
                          forall k :: 0 <= k < i ==> jobs[k].externalHash != hash
  {
    if jobs != [] {
      var front, last := jobs[..|jobs| - 1], jobs[|jobs| - 1];
      FirstWithIndex(front, hash);
      assert forall k :: 0 <= k < |front| ==> front[k] == jobs[k];
      if FirstWith(front, hash).None? {
        forall k | 0 <= k < |front| ensures jobs[k].externalHash != hash {
          assert front[k] in front;
        }
      }
      assert Hashes(jobs) == Hashes(front) + {last.externalHash} by {
        assert jobs == front + [last];
      }
    }
  }

  /** Exactly the first occurrences of the unknown hashes are new, each once. */
  lemma {:induction false} NewJobsMembers(jobs: seq<Job>, known: set<string>)
    ensures forall j :: j in NewJobs(jobs, known) <==>
                        j.externalHash !in known && FirstWith(jobs, j.externalHash) == Some(j)
    ensures Hashes(NewJobs(jobs, known)) == Hashes(jobs) - known
    ensures forall i, k :: 0 <= i < k < |NewJobs(jobs, known)| ==>
                             NewJobs(jobs, known)[i].externalHash != NewJobs(jobs, known)[k].externalHash
  {
    if jobs != [] {
      var front, last := jobs[..|jobs| - 1], jobs[|jobs| - 1];
      NewJobsMembers(front, known);
      FirstWithIndex(front, last.externalHash);
      assert jobs == front + [last];
      assert Hashes(jobs) == Hashes(front) + {last.externalHash};
      var before := NewJobs(front, known);
      assert Hashes(before + [last]) == Hashes(before) + {last.externalHash};
      forall j
        ensures j in NewJobs(jobs, known) <==> j.externalHash !in known && FirstWith(jobs, j.externalHash) == Some(j)
      {
        FirstWithIndex(front, j.externalHash);
      }
    }
  }

  // ----- matching -----

  predicate Keep(inp: EngineInput, m: MatchedJob) {
    m.percentage >= inp.threshold || Lower(m.job.company) in MapSeq(Lower, inp.watchlist)
  }

  function KeepOf(inp: EngineInput): MatchedJob -> bool { m => Keep(inp, m) }

  /** The matches of a run that starts out knowing `known`. */
  function Matched(inp: EngineInput, known: set<string>): seq<MatchedJob>
    requires inp.batchSize > 0
  {
    Filter(KeepOf(inp), Scored(inp, known))
  }

  function Scored(inp: EngineInput, known: set<string>): seq<MatchedJob>
    requires inp.batchSize > 0
  { BestMatches(Query(NewJobs(Scraped(inp, |inp.sources|), known), inp.resumes, inp.replies, inp.batchSize)) }

  lemma FilterOneMore(keep: MatchedJob -> bool, ms: seq<MatchedJob>, i: nat)
    requires i < |ms|
    ensures Filter(keep, ms[..i + 1]) == Filter(keep, ms[..i]) + (if keep(ms[i]) then [ms[i]] else [])
  {
    assert ms[..i + 1] == ms[..i] + [ms[i]];
    FilterConcat(keep, ms[..i], [ms[i]]);
    assert [ms[i]][1..] == [];
  }

  /** A score at the threshold or above, or a company that stands on the watchlist in whatever case. */
  predicate Worth(inp: EngineInput, m: MatchedJob) {
    m.percentage >= inp.threshold || exists c :: c in inp.watchlist && Lower(c) == Lower(m.job.company)
  }

  /** That is what is kept of the scored postings. */
  lemma KeptExactly(inp: EngineInput, scored: seq<MatchedJob>, m: MatchedJob)
    ensures m in Filter(KeepOf(inp), scored) <==> m in scored && Worth(inp, m)
  {
    var watch := MapSeq(Lower, inp.watchlist);
    if Lower(m.job.company) in watch {
      var i :| 0 <= i < |watch| && watch[i] == Lower(m.job.company);
      assert inp.watchlist[i] in inp.watchlist;
    }
    if c :| c in inp.watchlist && Lower(c) == Lower(m.job.company) {
      var i :| 0 <= i < |inp.watchlist| && inp.watchlist[i] == c;
      assert watch[i] == Lower(m.job.company);
    }
  }

  /** A match of a run: its posting is the first one scraped with its hash, the hash was unknown, it carries
      the reply for a résumé or that résumé's keyword score, and it is good enough or watched. */
  lemma MatchExplained(inp: EngineInput, known: set<string>, m: MatchedJob) returns (j: nat, r: nat)
    requires inp.batchSize > 0 && m in Matched(inp, known)
    ensures var jobs := Scraped(inp, |inp.sources|);
            var q := Query(NewJobs(jobs, known), inp.resumes, inp.replies, inp.batchSize);
            && j < |q.jobs| && r < |q.resumes| && Evaluates(q, r, j, m)
            && m.job.externalHash !in known && FirstWith(jobs, m.job.externalHash) == Some(m.job)
            && Worth(inp, m)
  {
    var jobs := Scraped(inp, |inp.sources|);
    var q := Query(NewJobs(jobs, known), inp.resumes, inp.replies, inp.batchSize);
    KeptExactly(inp, Scored(inp, known), m);
    j :| 0 <= j < |Scored(inp, known)| && Scored(inp, known)[j] == m;
    r := BestMatchesMeaning(q, j);
    NewJobsMembers(jobs, known);
    assert m.job == q.jobs[j];
  }

  method KeepGood(inp: EngineInput, scored: seq<MatchedJob>) returns (matched: seq<MatchedJob>)
    ensures matched == Filter(KeepOf(inp), scored)
  {
    matched := [];
    var watch := MapSeq(Lower, inp.watchlist);
    for i := 0 to |scored|
      invariant matched == Filter(KeepOf(inp), scored[..i])
    {
      FilterOneMore(KeepOf(inp), scored, i);
      if scored[i].percentage >= inp.threshold || Lower(scored[i].job.company) in watch {
        matched := matched + [scored[i]];
      }
    }
    assert scored[..|scored|] == scored;
  }

  method RunEngine(inp: EngineInput, seen: PgSeenStore) returns (result: EngineResult)
    requires inp.batchSize > 0
    ensures result.perSource == PerSource(inp, |inp.sources|)
    ensures result.scraped == |Scraped(inp, |inp.sources|)|
    ensures result.newCount == |NewJobs(Scraped(inp, |inp.sources|), seen.known)|
    ensures result.matched == Matched(inp, seen.known)
    ensures forall m :: m in result.matched <==> m in Scored(inp, seen.known) && Worth(inp, m)
    ensures TalliesMissing(result.tally, Scored(inp, seen.known))
    ensures var scored := Scored(inp, seen.known);
            result.degraded <==> scored != [] && forall m :: m in scored ==> m.whyFit == AI_UNAVAILABLE_MARKER
  {
    var allJobs, perSource := Scrape(inp);
    var newJobs := Dedupe(allJobs, seen);
    var scored: seq<MatchedJob>, tally: map<string, nat>, degraded := [], map[], false;
    if newJobs != [] && inp.resumes != [] {
      scored, tally, degraded := BatchMatch(Query(newJobs, inp.resumes, inp.replies, inp.batchSize));
    }
    var matched := KeepGood(inp, scored);
    forall m ensures m in matched <==> m in scored && Worth(inp, m) {
      KeptExactly(inp, scored, m);
    }
    result := EngineResult(|allJobs|, |newJobs|, matched, perSource, tally, degraded);
  }

  // ----- running the engine again -----

  /** Matching posting by posting, as position-independent scoring allows. */
  function MatchedBy(score: Job -> MatchedJob, keep: MatchedJob -> bool, jobs: seq<Job>,
                     known: set<string>): seq<MatchedJob> {
    Filter(keep, MapSeq(score, NewJobs(jobs, known)))
  }

  /** A scorer that keeps the posting it was given. */
  ghost predicate Labels(score: Job -> MatchedJob) { forall j :: score(j).job == j }

  function MatchHashes(ms: seq<MatchedJob>): set<string> { set m | m in ms :: m.job.externalHash }

  lemma MatchedByMembers(score: Job -> MatchedJob, keep: MatchedJob -> bool, jobs: seq<Job>, known: set<string>,
                         m: MatchedJob)
    requires Labels(score)
    ensures m in MatchedBy(score, keep, jobs, known) <==>
            m == score(m.job) && keep(m) && m.job.externalHash !in known &&
            FirstWith(jobs, m.job.externalHash) == Some(m.job)
  {
    NewJobsMembers(jobs, known);
    var news := NewJobs(jobs, known);
    var scored := MapSeq(score, news);
    if m in scored {
      var i :| 0 <= i < |scored| && scored[i] == m;
      assert m == score(news[i]) && m.job == news[i];
    }
    if m == score(m.job) && m.job in news {
      var i :| 0 <= i < |news| && news[i] == m.job;
      assert scored[i] == m;
    }
  }

  /** Running again once the first matches are known finds nothing: whatever was not kept the
      first time is scored the same and not kept again. */
  lemma SecondRunFindsNothing(score: Job -> MatchedJob, keep: MatchedJob -> bool, jobs: seq<Job>,
                              known: set<string>, later: set<string>)
    requires Labels(score) && known + MatchHashes(MatchedBy(score, keep, jobs, known)) <= later
    ensures MatchedBy(score, keep, jobs, later) == []
  {
    var scored, first := MapSeq(score, NewJobs(jobs, later)), MatchedBy(score, keep, jobs, known);
    assert forall m :: m in first ==> m.job.externalHash in MatchHashes(first);
    forall m | m in scored ensures !keep(m) {
      MatchedByMembers(score, keep, jobs, later, m);
      MatchedByMembers(score, keep, jobs, known, m);
    }
    FilterNone(keep, scored);
  }

  /** The engine matches posting by posting whenever its replies do. */
  lemma EngineMatchesByJob(inp: EngineInput, known: set<string>, score: (Resume, Job) -> RawEval)
    requires inp.batchSize > 0 && inp.resumes != [] && PerPosting(inp.replies, inp.resumes, score)
    ensures Matched(inp, known) ==
            MatchedBy(j => BestAlone(inp.resumes, score, j, |inp.resumes|), KeepOf(inp),
                      Scraped(inp, |inp.sources|), known)
  {
    var news := NewJobs(Scraped(inp, |inp.sources|), known);
    var q := Query(news, inp.resumes, inp.replies, inp.batchSize);
    PerPostingIsIndependent(q, score);
    SizeIndependent(q, score);
    assert Scored(inp, known) == MapSeq(j => BestAlone(inp.resumes, score, j, |inp.resumes|), news);
  }
}
