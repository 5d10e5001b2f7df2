/** Scoring postings against résumés in batches, keeping the best résumé for each posting. */
module Matching {
  import opened Arithmetic
  import opened EngineTypes

  const AI_UNAVAILABLE_MARKER := "Keyword-based match (AI scoring unavailable)"

  /** A field of a JSON object: missing, null or a value of the expected type. */
  datatype Field<+T> = Absent | Null | Value(value: T)

  datatype RawEval = RawEval(percentage: Field<int>, matchedSkills: Field<seq<string>>,
                             missingSkills: Field<seq<string>>,
                             why: Field<string>, urgency: Field<string>, action: Field<string>)

  /** The dictionary extracted from one reply; empty when the call failed or gave no object. */
  type Reply = map<string, RawEval>

  // ----- dictionary keys -----

  function Digit(d: nat): char
    requires d < 10
  { "0123456789"[d] }

  function DigitValue(c: char): nat {
    if '0' <= c <= '9' then (c - '0') as nat else 0
  }

  function Decimal(n: nat): string {
    if n < 10 then [Digit(n)] else Decimal(n / 10) + [Digit(n % 10)]
  }

  function Numeral(s: string): nat {
    if s == "" then 0 else 10 * Numeral(s[..|s| - 1]) + DigitValue(s[|s| - 1])
  }

  lemma {:induction false} DecimalInverse(n: nat)
    ensures Numeral(Decimal(n)) == n
  {
    if n >= 10 {
      DecimalInverse(n / 10);
      assert Decimal(n)[..|Decimal(n)| - 1] == Decimal(n / 10);
    } else {
      assert Decimal(n)[..0] == "";
    }
  }

  // ----- the keyword fallback -----

  function ResumeSkills(r: Resume): seq<string> {
    r.technicalSkills + r.languages + r.frameworks + r.tools
  }

  function Distinct<T(==, !new)>(xs: seq<T>): (ys: seq<T>)
    ensures forall x :: x in ys <==> x in xs
    ensures forall i, j :: 0 <= i < j < |ys| ==> ys[i] != ys[j]
  {
    if xs == [] then []
    else
      var rest := Distinct(xs[..|xs| - 1]);
      assert xs == xs[..|xs| - 1] + [xs[|xs| - 1]];
      if xs[|xs| - 1] in rest then rest else rest + [xs[|xs| - 1]]
  }

  predicate OccursAt(text: string, word: string, i: nat) {
    i + |word| <= |text| && text[i..i + |word|] == word
  }

  predicate Contains(text: string, word: string) {
    exists i | 0 <= i <= |text| - |word| :: OccursAt(text, word, i)
  }

  lemma ContainsMeaning(text: string, word: string)
    ensures Contains(text, word) <==> exists before: string, after: string :: text == before + word + after
  {
    if Contains(text, word) {
      var i :| 0 <= i <= |text| - |word| && OccursAt(text, word, i);
      assert text == text[..i] + word + text[i + |word|..];
    }
    if before: string, after: string :| text == before + word + after {
      assert OccursAt(text, word, |before|);
    }
  }

  function AllSkills(r: Resume): seq<string> { Distinct(MapSeq(Lower, ResumeSkills(r))) }

  function KeywordHits(job: Job, r: Resume): (hits: seq<string>)
    ensures |hits| <= |AllSkills(r)|
  {
    var text := Lower(job.description + " " + job.title);
    FilterLength(skill => Contains(text, skill), AllSkills(r));
    Filter(skill => Contains(text, skill), AllSkills(r))
  }

  /** The share of `n` skills that `hits` are, in whole percent; an empty résumé counts as one skill. */
  function Percent(hits: nat, n: nat): nat {
    var share := hits * 100 / (if n == 0 then 1 else n);
    if share <= 100 then share else 100
  }

  function FallbackScore(job: Job, r: Resume): RawEval {
    var hits := KeywordHits(job, r);
    var pct := Percent(|hits|, |AllSkills(r)|);
    RawEval(Value(pct), Value(Take(hits, 10)), Value([]), Value(AI_UNAVAILABLE_MARKER),
            Value(if pct >= 60 then "MEDIUM" else "LOW"), Value(if pct >= 60 then "Apply this week" else "Optional"))
  }

  lemma {:induction false} FilterLength<T(!new)>(keep: T -> bool, xs: seq<T>)
    ensures |Filter(keep, xs)| <= |xs|
  {
    if xs != [] {
      FilterLength(keep, xs[1..]);
    }
  }

  lemma PercentRange(hits: nat, n: nat)
    requires hits <= n
    ensures 0 <= Percent(hits, n) <= 100
    ensures Percent(hits, n) == 100 <==> n > 0 && hits == n
    ensures Percent(hits, n) == 0 <==> 100 * hits < n || hits == 0
    ensures Percent(hits, n) * n <= 100 * hits && (n > 0 ==> 100 * hits < (Percent(hits, n) + 1) * n)
  {
    if n > 0 {
      QuotientAtLeast(hits * 100, n, hits * 100 / n);
      QuotientAtLeast(hits * 100, n, hits * 100 / n + 1);
      QuotientAtLeast(hits * 100, n, 1);
      QuotientAtLeast(hits * 100, n, 100);
    }
  }

  /** The hits are the résumé's skills, each once and in lower case, that occur in the posting's text. */
  lemma KeywordHitsMeaning(job: Job, r: Resume, skill: string)
    ensures skill in KeywordHits(job, r) <==>
            && (exists s :: s in r.technicalSkills + r.languages + r.frameworks + r.tools && Lower(s) == skill)
            && (exists before: string, after: string ::
                  Lower(job.description + " " + job.title) == before + skill + after)
  {
    var skills := r.technicalSkills + r.languages + r.frameworks + r.tools;
    var lowered := MapSeq(Lower, skills);
    ContainsMeaning(Lower(job.description + " " + job.title), skill);
    if s :| s in skills && Lower(s) == skill {
      var i :| 0 <= i < |skills| && skills[i] == s;
      assert lowered[i] == skill;
    }
  }

  /** The fallback percentage is the share of the résumé's skills found in the posting, in whole percent:
      0 exactly when that is under one percent, 100 exactly when every skill was found. */
  lemma FallbackRange(job: Job, r: Resume)
    ensures var e := FallbackScore(job, r);
            && e.percentage.Value? && 0 <= e.percentage.value <= 100
            && e.percentage.value * |AllSkills(r)| <= 100 * |KeywordHits(job, r)|
            && (AllSkills(r) != [] ==> 100 * |KeywordHits(job, r)| < (e.percentage.value + 1) * |AllSkills(r)|)
            && (e.percentage.value == 100 <==> AllSkills(r) != [] && |KeywordHits(job, r)| == |AllSkills(r)|)
            && (e.percentage.value == 0 <==> 100 * |KeywordHits(job, r)| < |AllSkills(r)| || KeywordHits(job, r) == [])
  {
    PercentRange(|KeywordHits(job, r)|, |AllSkills(r)|);
  }

  // ----- one batch -----

  /** What the batch's dictionary holds for offset `i` once missing scores are filled in. */
  function PatchedEval(reply: Reply, i: nat, job: Job, r: Resume): RawEval {
    var key := Decimal(i);
    if key !in reply || reply[key].percentage.Absent? then FallbackScore(job, r) else reply[key]
  }

  method ScoreBatch(batch: seq<Job>, r: Resume, reply: Reply) returns (result: Reply)
    ensures forall i :: 0 <= i < |batch| ==>
              Decimal(i) in result && result[Decimal(i)] == PatchedEval(reply, i, batch[i], r)
  {
    result := reply;
    for i := 0 to |batch|
      invariant forall k :: 0 <= k < i ==>
        Decimal(k) in result && result[Decimal(k)] == PatchedEval(reply, k, batch[k], r)
      invariant forall k: nat :: i <= k < |batch| ==>
        (Decimal(k) in result <==> Decimal(k) in reply) &&
            (Decimal(k) in reply ==> result[Decimal(k)] == reply[Decimal(k)])
    {
      var key := Decimal(i);
      forall k: nat | k != i ensures Decimal(k) != key {
        DecimalInverse(k);
        DecimalInverse(i);
      }
      if key !in result || result[key].percentage.Absent? {
        result := result[key := FallbackScore(batch[i], r)];
      }
    }
  }

  function OrElse<T>(f: Field<T>, ifAbsent: T, ifNull: T): T {
    match f
    case Absent => ifAbsent
    case Null => ifNull
    case Value(v) => v
  }

  function ToMatched(job: Job, e: RawEval, profileId: string): MatchedJob {
    MatchedJob(job, OrElse(e.percentage, 0, 0), OrElse(e.matchedSkills, [], []), OrElse(e.missingSkills, [], []),
               OrElse(e.why, "", "None"), Upper(OrElse(e.urgency, "LOW", "None")), OrElse(e.action, "Skip", "None"),
                   profileId)
  }

  // ----- the simple form -----

  /** The LLM, as one call of `batch_match` sees it: `replies(r, start, batch)` answers the postings
      `batch`, which begin at posting `start`, scored against résumé `r`. */
  type Replies = (nat, nat, seq<Job>) -> Reply

  datatype Query = Query(jobs: seq<Job>, resumes: seq<Resume>, replies: Replies, size: nat)

  predicate Proper(q: Query) { q.size > 0 }

  /** The batch that posting `j` falls into starts here, and it stands at this offset in it. */
  function StartOf(size: nat, j: nat): (start: nat)
    requires size > 0
    ensures start <= j && start + OffsetOf(size, j) == j
  { j / size * size }

  function OffsetOf(size: nat, j: nat): nat
    requires size > 0
  { j % size }

  /** The postings of the batch that begins at `start`. */
  function Batch(q: Query, start: nat): (b: seq<Job>)
    requires Proper(q) && start < |q.jobs|
    ensures |b| == if |q.jobs| - start <= q.size then |q.jobs| - start else q.size
    ensures forall i :: 0 <= i < |b| ==> b[i] == q.jobs[start + i]
  { Take(q.jobs[start..], q.size) }

  function ReplyTo(q: Query, r: nat, start: nat): Reply
    requires Proper(q) && start < |q.jobs|
  { q.replies(r, start, Batch(q, start)) }

  /** How résumé `r` scores posting `j`: from its offset of the reply to its batch. */
  function Candidate(q: Query, r: nat, j: nat): MatchedJob
    requires Proper(q) && r < |q.resumes| && j < |q.jobs|
  {
    var eval := PatchedEval(ReplyTo(q, r, StartOf(q.size, j)), OffsetOf(q.size, j), q.jobs[j], q.resumes[r]);
    ToMatched(q.jobs[j], eval, q.resumes[r].id)
  }

  /** One row for each résumé, one column for each posting. */
  type Scores = seq<seq<MatchedJob>>

  predicate Columns(t: Scores, n: nat) { forall r :: 0 <= r < |t| ==> |t[r]| == n }

  function Table(q: Query): (t: Scores)
    requires Proper(q)
    ensures |t| == |q.resumes| && Columns(t, |q.jobs|)
    ensures forall r, j :: 0 <= r < |t| && 0 <= j < |q.jobs| ==> t[r][j] == Candidate(q, r, j)
  {
    seq(|q.resumes|, r requires 0 <= r < |q.resumes| =>
      seq(|q.jobs|, j requires 0 <= j < |q.jobs| => Candidate(q, r, j)))
  }

  /** The best of the first `n` résumés for posting `j`, an earlier one winning a tie. */
  function BestOf(t: Scores, j: nat, n: nat): MatchedJob
    requires 0 < n <= |t| && forall r :: 0 <= r < |t| ==> j < |t[r]|
  {
    if n == 1 then t[0][j]
    else
      var b := BestOf(t, j, n - 1);
      if t[n - 1][j].percentage > b.percentage then t[n - 1][j] else b
  }

  /** `BestOf` is the first résumé attaining the maximum. */
  lemma {:induction false} BestIsFirstMaximum(t: Scores, j: nat, n: nat) returns (r: nat)
    requires 0 < n <= |t| && forall r :: 0 <= r < |t| ==> j < |t[r]|
    ensures r < n && BestOf(t, j, n) == t[r][j]
    ensures forall k :: 0 <= k < n ==> t[k][j].percentage <= t[r][j].percentage
    ensures forall k :: 0 <= k < r ==> t[k][j].percentage < t[r][j].percentage
  {
    if n == 1 {
      r := 0;
    } else {
      r := BestIsFirstMaximum(t, j, n - 1);
      if t[n - 1][j].percentage > t[r][j].percentage {
        r := n - 1;
      }
    }
  }

  // ----- what an entry says of its reply -----

  /** A match carries the values of a reply's entry, and a default for each that is missing or null. */
  ghost predicate Carries(m: MatchedJob, e: RawEval) {
    && m.percentage == (if e.percentage.Value? then e.percentage.value else 0)
    && m.matchedSkills == (if e.matchedSkills.Value? then e.matchedSkills.value else [])
    && m.missingSkills == (if e.missingSkills.Value? then e.missingSkills.value else [])
    && (if e.why.Value? then m.whyFit == e.why.value else m.whyFit == if e.why.Null? then "None" else "")
    && (if e.urgency.Value? then m.urgency == Upper(e.urgency.value)
        else m.urgency == if e.urgency.Null? then "NONE" else "LOW")
    && (if e.action.Value? then m.action == e.action.value else m.action == if e.action.Null? then "None" else "Skip")
  }

  /** A match from keywords alone. */
  ghost predicate FallsBack(m: MatchedJob, job: Job, r: Resume) {
    && m.percentage == Percent(|KeywordHits(job, r)|, |AllSkills(r)|)
    && m.matchedSkills == Take(KeywordHits(job, r), 10) && m.missingSkills == []
    && m.whyFit == AI_UNAVAILABLE_MARKER
    && (if m.percentage >= 60 then m.urgency == "MEDIUM" && m.action == "Apply this week"
        else m.urgency == "LOW" && m.action == "Optional")
  }

  /** The reply for résumé `r` to the batch in which posting `j` is. */
  ghost function ReplyFor(q: Query, r: nat, j: nat): Reply
    requires Proper(q) && j < |q.jobs|
  {
    var start := j / q.size * q.size;
    q.replies(r, start, q.jobs[start..if start + q.size <= |q.jobs| then start + q.size else |q.jobs|])
  }

  /** That reply has an entry with a percentage under the posting's offset in its batch. */
  ghost predicate Answered(q: Query, r: nat, j: nat)
    requires Proper(q) && j < |q.jobs|
  {
    var reply, key := ReplyFor(q, r, j), Decimal(j % q.size);
    key in reply && !reply[key].percentage.Absent?
  }

  /** `m` is what résumé `r` makes of posting `j`: the entry of its reply, or failing that the keywords. */
  ghost predicate Evaluates(q: Query, r: nat, j: nat, m: MatchedJob)
    requires Proper(q) && r < |q.resumes| && j < |q.jobs|
  {
    && m.job == q.jobs[j] && m.profileId == q.resumes[r].id
    && if Answered(q, r, j) then Carries(m, ReplyFor(q, r, j)[Decimal(j % q.size)])
       else FallsBack(m, q.jobs[j], q.resumes[r])
  }

  lemma ReplyIsFor(q: Query, r: nat, j: nat)
    requires Proper(q) && j < |q.jobs|
    ensures ReplyFor(q, r, j) == ReplyTo(q, r, StartOf(q.size, j))
  {
    var start := StartOf(q.size, j);
    assert Batch(q, start) == q.jobs[start..if start + q.size <= |q.jobs| then start + q.size else |q.jobs|];
  }

  lemma EntryCarried(job: Job, e: RawEval, profileId: string)
    ensures Carries(ToMatched(job, e, profileId), e)
  {
    assert Upper("None") == "NONE" && Upper("LOW") == "LOW";
  }

  lemma FallbackCarried(job: Job, r: Resume)
    ensures FallsBack(ToMatched(job, FallbackScore(job, r), r.id), job, r)
  {
    assert Upper("MEDIUM") == "MEDIUM" && Upper("LOW") == "LOW";
  }

  /** Exactly the candidate's percentage is what a résumé makes of a posting. */
  lemma CandidateEvaluates(q: Query, r: nat, j: nat)
    requires Proper(q) && r < |q.resumes| && j < |q.jobs|
    ensures Evaluates(q, r, j, Candidate(q, r, j))
    ensures forall m :: Evaluates(q, r, j, m) ==> m.percentage == Candidate(q, r, j).percentage
  {
    ReplyIsFor(q, r, j);
    FallbackCarried(q.jobs[j], q.resumes[r]);
    if Answered(q, r, j) {
      EntryCarried(q.jobs[j], ReplyFor(q, r, j)[Decimal(j % q.size)], q.resumes[r].id);
    }
  }

  function BestMatches(q: Query): (ms: seq<MatchedJob>)
    requires Proper(q)
    ensures |ms| == if q.jobs == [] || q.resumes == [] then 0 else |q.jobs|
  {
    if q.jobs == [] || q.resumes == [] then []
    else
      var t := Table(q);
      seq(|q.jobs|, j requires 0 <= j < |q.jobs| => BestOf(t, j, |t|))
  }

  /** The result in the source's terms: one entry for each posting, in order; an entry carries what the
      reply for some résumé says of the posting at its offset in its batch, or its keyword score, and no
      other résumé scores the posting higher, nor an earlier one as high. */
  lemma BestMatchesMeaning(q: Query, j: nat) returns (r: nat)
    requires Proper(q) && j < |q.jobs| && q.resumes != []
    ensures r < |q.resumes| && j < |BestMatches(q)| && Evaluates(q, r, j, BestMatches(q)[j])
    ensures forall k: nat, m: MatchedJob :: k < |q.resumes| && Evaluates(q, k, j, m) ==>
              m.percentage <= BestMatches(q)[j].percentage && (k < r ==> m.percentage < BestMatches(q)[j].percentage)
  {
    r := BestCandidate(q, j);
    forall k: nat, m: MatchedJob | k < |q.resumes| && Evaluates(q, k, j, m)
      ensures m.percentage <= BestMatches(q)[j].percentage
      ensures k < r ==> m.percentage < BestMatches(q)[j].percentage
    {
      CandidateEvaluates(q, k, j);
    }
    CandidateEvaluates(q, r, j);
  }

  lemma BestCandidate(q: Query, j: nat) returns (r: nat)
    requires Proper(q) && j < |q.jobs| && q.resumes != []
    ensures r < |q.resumes| && BestMatches(q)[j] == Candidate(q, r, j) && BestMatches(q)[j].job == q.jobs[j]
    ensures forall k :: 0 <= k < |q.resumes| ==> Candidate(q, k, j).percentage <= Candidate(q, r, j).percentage
    ensures forall k :: 0 <= k < r ==> Candidate(q, k, j).percentage < Candidate(q, r, j).percentage
  {
    var t := Table(q);
    r := BestIsFirstMaximum(t, j, |t|);
    assert t[r][j] == Candidate(q, r, j);
    forall k | 0 <= k < |t| ensures Candidate(q, k, j) == t[k][j] {}
  }

  // ----- the batched form -----

  /** The batches still to be merged from batch (r, start) on, in the order they were gathered. */
  function TasksFrom(q: Query, r: nat, start: nat): seq<(nat, nat)>
    requires Proper(q) && q.jobs != []
    decreases |q.resumes| - r, |q.jobs| - start
  {
    if r >= |q.resumes| then []
    else if start < |q.jobs| then [(r, start)] + TasksFrom(q, r, start + q.size)
    else TasksFrom(q, r + 1, 0)
  }

  lemma NextTask(q: Query, r: nat, start: nat, done: seq<(nat, nat)>)
    requires Proper(q) && q.jobs != [] && r < |q.resumes|
    ensures start < |q.jobs| ==>
              done + TasksFrom(q, r, start) == done + [(r, start)] + TasksFrom(q, r, start + q.size)
    ensures start >= |q.jobs| ==> TasksFrom(q, r, start) == TasksFrom(q, r + 1, 0)
  {
    if start < |q.jobs| {
      assert TasksFrom(q, r, start) == [(r, start)] + TasksFrom(q, r, start + q.size);
    }
  }

  method BuildTasks(q: Query) returns (tasks: seq<(nat, nat)>)
    requires Proper(q) && q.jobs != []
    ensures tasks == TasksFrom(q, 0, 0)
  {
    tasks := [];
    ghost var all := TasksFrom(q, 0, 0);
    for r := 0 to |q.resumes|
      invariant tasks + TasksFrom(q, r, 0) == all
    {
      var start: nat := 0;
      while start < |q.jobs|
        invariant tasks + TasksFrom(q, r, start) == all
      {
        NextTask(q, r, start, tasks);
        tasks := tasks + [(r, start)];
        start := start + q.size;
      }
      NextTask(q, r, start, tasks);
    }
    assert TasksFrom(q, |q.resumes|, 0) == [];
  }

  /** How many résumés have been merged into posting `j` when batches before (r, done) are merged. */
  function MergedInto(r: nat, done: nat, j: nat): nat { if j < done then r + 1 else r }

  ghost predicate Entry(t: Scores, jobs: nat, best: map<nat, MatchedJob>, j: nat, n: nat)
    requires Columns(t, jobs)
  {
    && (j in best <==> j < jobs && n > 0)
    && (j in best && n <= |t| ==> best[j] == BestOf(t, j, n))
  }

  ghost predicate EntrySoFar(t: Scores, jobs: nat, best: map<nat, MatchedJob>, r: nat, done: nat, j: nat)
    requires Columns(t, jobs)
  { Entry(t, jobs, best, j, MergedInto(r, done, j)) }

  ghost predicate BestSoFar(t: Scores, jobs: nat, best: map<nat, MatchedJob>, r: nat, done: nat)
    requires Columns(t, jobs)
  {
    forall j: nat :: EntrySoFar(t, jobs, best, r, done, j)
  }

  lemma DivisionUnique(j: nat, size: nat, batch: nat, offset: nat)
    requires size > 0 && j == batch * size + offset && offset < size
    ensures j / size == batch && j % size == offset
  {
    QuotientAtLeast(j, size, batch);
    QuotientAtLeast(j, size, batch + 1);
    assert j == j / size * size + j % size;
  }

  /** Merge one scored batch into the dictionary of best matches, posting by posting. */
  method MergeBatch(q: Query, ghost t: Scores, best0: map<nat, MatchedJob>, r: nat, start: nat, scored: Reply)
    returns (best: map<nat, MatchedJob>)
    requires Proper(q) && r < |q.resumes| && start < |q.jobs|
    requires |t| == |q.resumes| && Columns(t, |q.jobs|) && BestSoFar(t, |q.jobs|, best0, r, start)
    requires forall i :: 0 <= i < |Batch(q, start)| ==>
      Decimal(i) in scored && ToMatched(q.jobs[start + i], scored[Decimal(i)], q.resumes[r].id) == t[r][start + i]
    ensures BestSoFar(t, |q.jobs|, best, r, start + |Batch(q, start)|)
  {
    best := best0;
    for offset := 0 to |Batch(q, start)|
      invariant BestSoFar(t, |q.jobs|, best, r, start + offset)
    {
      var j := start + offset;
      var candidate := ToMatched(q.jobs[j], scored[Decimal(offset)], q.resumes[r].id);
      ghost var before := best;
      assert EntrySoFar(t, |q.jobs|, before, r, j, j);
      if j !in best || candidate.percentage > best[j].percentage {
        best := best[j := candidate];
      }
      ghost var next := j + 1;
      forall k: nat ensures EntrySoFar(t, |q.jobs|, best, r, next, k) {
        assert EntrySoFar(t, |q.jobs|, before, r, j, k);
      }
    }
  }

  lemma TasksRemain(q: Query, r: nat, start: nat)
    requires Proper(q) && start < |q.jobs| && r <= |q.resumes|
    ensures TasksFrom(q, r, start) == [] <==> r == |q.resumes|
    ensures r < |q.resumes| ==> TasksFrom(q, r, start)[0] == (r, start)
  {}

  lemma NextBatch(q: Query, t: Scores, best: map<nat, MatchedJob>, r: nat, start: nat)
    requires Proper(q) && start < |q.jobs| && Columns(t, |q.jobs|)
    requires BestSoFar(t, |q.jobs|, best, r, start + |Batch(q, start)|)
    ensures start + q.size < |q.jobs| ==> BestSoFar(t, |q.jobs|, best, r, start + q.size)
    ensures start + q.size >= |q.jobs| ==> BestSoFar(t, |q.jobs|, best, r + 1, 0)
  {
    if start + q.size >= |q.jobs| {
      var next := r + 1;
      forall j: nat ensures EntrySoFar(t, |q.jobs|, best, next, 0, j) {
        assert EntrySoFar(t, |q.jobs|, best, r, |q.jobs|, j);
      }
    }
  }

  lemma ScoredBatchIsRow(q: Query, r: nat, start: nat, batch: nat, scored: Reply)
    requires Proper(q) && r < |q.resumes| && start < |q.jobs| && start == batch * q.size
    requires forall i :: 0 <= i < |Batch(q, start)| ==>
      Decimal(i) in scored && scored[Decimal(i)] ==
          PatchedEval(ReplyTo(q, r, start), i, q.jobs[start + i], q.resumes[r])
    ensures forall i :: 0 <= i < |Batch(q, start)| ==>
      ToMatched(q.jobs[start + i], scored[Decimal(i)], q.resumes[r].id) == Table(q)[r][start + i]
  {
    forall i | 0 <= i < |Batch(q, start)|
      ensures ToMatched(q.jobs[start + i], scored[Decimal(i)], q.resumes[r].id) == Table(q)[r][start + i]
    {
      CandidateAt(q, r, start, batch, i);
      assert Table(q)[r][start + i] == Candidate(q, r, start + i);
    }
  }

  lemma CandidateAt(q: Query, r: nat, start: nat, batch: nat, i: nat)
    requires Proper(q) && r < |q.resumes| && start + i < |q.jobs| && start == batch * q.size && i < q.size
    ensures Candidate(q, r, start + i) ==
            ToMatched(q.jobs[start + i], PatchedEval(ReplyTo(q, r, start), i, q.jobs[start + i], q.resumes[r]),
                      q.resumes[r].id)
  {
    DivisionUnique(start + i, q.size, batch, i);
  }

  /** Score one batch and merge it, which leaves the dictionary ready for the next. */
  method ScoreAndMerge(q: Query, best0: map<nat, MatchedJob>, r: nat, start: nat, ghost batch: nat)
    returns (best: map<nat, MatchedJob>)
    requires Proper(q) && r < |q.resumes| && start < |q.jobs| && start == batch * q.size
    requires BestSoFar(Table(q), |q.jobs|, best0, r, start)
    ensures start + q.size < |q.jobs| ==> BestSoFar(Table(q), |q.jobs|, best, r, start + q.size)
    ensures start + q.size >= |q.jobs| ==> BestSoFar(Table(q), |q.jobs|, best, r + 1, 0)
  {
    var scored := ScoreBatch(Batch(q, start), q.resumes[r], ReplyTo(q, r, start));
    ScoredBatchIsRow(q, r, start, batch, scored);
    best := MergeBatch(q, Table(q), best0, r, start, scored);
    NextBatch(q, Table(q), best, r, start);
  }

  /** The first `k` tasks are merged: the merge has come to batch number `batch` of résumé `r`. */
  ghost predicate ReadyAt(q: Query, tasks: seq<(nat, nat)>, k: nat, best: map<nat, MatchedJob>, r: nat, batch: nat,
                          position: nat)
    requires Proper(q)
  {
    && k <= |tasks| && r <= |q.resumes| && position < |q.jobs| && position == batch * q.size
    && (r == |q.resumes| ==> position == 0)
    && tasks[k..] == TasksFrom(q, r, position)
    && BestSoFar(Table(q), |q.jobs|, best, r, position)
  }

  method MergeTask(q: Query, tasks: seq<(nat, nat)>, k: nat, best0: map<nat, MatchedJob>, ghost r0: nat,
                   ghost batch0: nat, ghost position0: nat)
    returns (best: map<nat, MatchedJob>, ghost r: nat, ghost batch: nat, ghost position: nat)
    requires Proper(q) && k < |tasks| && ReadyAt(q, tasks, k, best0, r0, batch0, position0)
    ensures ReadyAt(q, tasks, k + 1, best, r, batch, position)
  {
    TaskAt(q, tasks, k, r0, position0);
    var (resume, start) := tasks[k];
    best := ScoreAndMerge(q, best0, resume, start, batch0);
    r, batch, position := r0, batch0 + 1, position0 + q.size;
    if position >= |q.jobs| {
      r, batch, position := r0 + 1, 0, 0;
    }
  }

  /** Merging all batches in gathered order gives the best match of every posting. */
  method MergeAll(q: Query) returns (best: map<nat, MatchedJob>)
    requires Proper(q) && q.jobs != [] && q.resumes != []
    ensures forall j: nat :: Entry(Table(q), |q.jobs|, best, j, |q.resumes|)
  {
    var tasks := BuildTasks(q);
    best := map[];
    ghost var r, batch, position := 0, 0, 0;
    for k := 0 to |tasks|
      invariant ReadyAt(q, tasks, k, best, r, batch, position)
    {
      best, r, batch, position := MergeTask(q, tasks, k, best, r, batch, position);
    }
    TasksRemain(q, r, position);
    AllMerged(q, best, r, position);
  }

  /** The next batch to merge is the one the merge has come to, and the rest follow from the one after. */
  lemma TaskAt(q: Query, tasks: seq<(nat, nat)>, k: nat, r: nat, position: nat)
    requires Proper(q) && r <= |q.resumes| && position < |q.jobs| && k < |tasks|
    requires tasks[k..] == TasksFrom(q, r, position)
    ensures r < |q.resumes| && tasks[k] == (r, position)
    ensures tasks[k + 1..] == if position + q.size < |q.jobs| then TasksFrom(q, r, position + q.size)
              else TasksFrom(q, r + 1, 0)
  {
    TasksRemain(q, r, position);
    NextTask(q, r, position, []);
    var rest := TasksFrom(q, r, position + q.size);
    assert tasks[k..] == [(r, position)] + rest;
    assert tasks[k] == tasks[k..][0] && tasks[k + 1..] == tasks[k..][1..] == rest;
    if position + q.size >= |q.jobs| {
      NextTask(q, r, position + q.size, []);
    }
  }

  lemma AllMerged(q: Query, best: map<nat, MatchedJob>, r: nat, position: nat)
    requires Proper(q) && BestSoFar(Table(q), |q.jobs|, best, r, position) && r == |q.resumes| && position == 0
    ensures forall j: nat :: Entry(Table(q), |q.jobs|, best, j, |q.resumes|)
  {
    var t := Table(q);
    forall j: nat ensures Entry(t, |q.jobs|, best, j, |q.resumes|) {
      assert EntrySoFar(t, |q.jobs|, best, r, position, j);
    }
  }

  /** `batch_match`: whatever the batch size and the replies, the result is the simple form, and the tally
      counts how often each skill stands in the missing lists of the winning replies. */
  method BatchMatch(q: Query) returns (matched: seq<MatchedJob>, tally: map<string, nat>, degraded: bool)
    requires Proper(q)
    ensures matched == BestMatches(q)
    ensures TalliesMissing(tally, matched)
    ensures q.resumes != [] ==> exists winners :: Wins(q, winners) && TalliesReplies(q, winners, tally)
    ensures degraded <==> matched != [] && forall m :: m in matched ==> m.whyFit == AI_UNAVAILABLE_MARKER
  {
    if q.jobs == [] || q.resumes == [] {
      assert q.jobs == [] ==> Wins(q, []) && TalliesReplies(q, [], map[]);
      return [], map[], false;
    }
    ghost var winners := TallyFromReplies(q);
    var best := MergeAll(q);
    forall i: nat | i < |q.jobs| ensures i in best && best[i] == BestMatches(q)[i] {
      assert Entry(Table(q), |q.jobs|, best, i, |q.resumes|);
    }
    matched := seq(|q.jobs|, i requires 0 <= i < |q.jobs| && i in best => best[i]);
    tally := Tally(matched);
    degraded := matched != [] && forall m :: m in matched ==> m.whyFit == AI_UNAVAILABLE_MARKER;
  }

  /** There is a match and every match carries the fallback marker. */
  predicate Degraded(ms: seq<MatchedJob>) {
    ms != [] && forall m :: m in ms ==> m.whyFit == AI_UNAVAILABLE_MARKER
  }

  // ----- independence of the batch size -----

  /** Replies that score a posting on its own merits, in whatever batch and wherever in it. */
  ghost predicate PerPosting(replies: Replies, resumes: seq<Resume>, score: (Resume, Job) -> RawEval) {
    forall r: nat, start: nat, batch: seq<Job>, i: nat :: r < |resumes| && i < |batch| ==>
      PatchedEval(replies(r, start, batch), i, batch[i], resumes[r]) == score(resumes[r], batch[i])
  }

  /** The same of the batches of one query. */
  ghost predicate PositionIndependent(q: Query, score: (Resume, Job) -> RawEval)
    requires Proper(q)
  {
    forall r, j :: 0 <= r < |q.resumes| && 0 <= j < |q.jobs| ==>
      Candidate(q, r, j) == ToMatched(q.jobs[j], score(q.resumes[r], q.jobs[j]), q.resumes[r].id)
  }

  lemma PerPostingIsIndependent(q: Query, score: (Resume, Job) -> RawEval)
    requires Proper(q) && PerPosting(q.replies, q.resumes, score)
    ensures PositionIndependent(q, score)
  {
    forall r, j | 0 <= r < |q.resumes| && 0 <= j < |q.jobs|
      ensures Candidate(q, r, j) == ToMatched(q.jobs[j], score(q.resumes[r], q.jobs[j]), q.resumes[r].id)
    {
      var start, offset := StartOf(q.size, j), OffsetOf(q.size, j);
      assert offset < |Batch(q, start)| && Batch(q, start)[offset] == q.jobs[j];
    }
  }

  /** The reply that scores each of the first `n` postings of a batch by itself. */
  function Answer(score: (Resume, Job) -> RawEval, resume: Resume, batch: seq<Job>, n: nat): Reply
    requires n <= |batch|
  {
    if n == 0 then map[] else Answer(score, resume, batch, n - 1)[Decimal(n - 1) := score(resume, batch[n - 1])]
  }

  lemma {:induction false} AnswerEntry(score: (Resume, Job) -> RawEval, resume: Resume, batch: seq<Job>, n: nat, i: nat)
    requires i < n <= |batch|
    ensures var reply := Answer(score, resume, batch, n);
            Decimal(i) in reply && reply[Decimal(i)] == score(resume, batch[i])
  {
    if i < n - 1 {
      DecimalInverse(i);
      DecimalInverse(n - 1);
      AnswerEntry(score, resume, batch, n - 1, i);
    }
  }

  function Answering(resumes: seq<Resume>, score: (Resume, Job) -> RawEval): Replies {
    (r: nat, start: nat, batch: seq<Job>) =>
      if r < |resumes| then Answer(score, resumes[r], batch, |batch|) else map[]
  }

  /** Any scorer that always gives a percentage, however it tells postings apart, is answered so. */
  lemma AnsweringIsPerPosting(resumes: seq<Resume>, score: (Resume, Job) -> RawEval)
    requires forall r: Resume, j: Job :: !score(r, j).percentage.Absent?
    ensures PerPosting(Answering(resumes, score), resumes, score)
  {
    var replies := Answering(resumes, score);
    forall r: nat, start: nat, batch: seq<Job>, i: nat | r < |resumes| && i < |batch|
      ensures PatchedEval(replies(r, start, batch), i, batch[i], resumes[r]) == score(resumes[r], batch[i])
    {
      AnswerEntry(score, resumes[r], batch, |batch|, i);
    }
  }

  /** The best of the first `n` résumés for one posting on its own. */
  function BestAlone(resumes: seq<Resume>, score: (Resume, Job) -> RawEval, job: Job, n: nat): MatchedJob
    requires 0 < n <= |resumes|
  {
    var last := ToMatched(job, score(resumes[n - 1], job), resumes[n - 1].id);
    if n == 1 then last
    else
      var b := BestAlone(resumes, score, job, n - 1);
      if last.percentage > b.percentage then last else b
  }

  lemma {:induction false} BestOfIsAlone(q: Query, score: (Resume, Job) -> RawEval, j: nat, n: nat)
    requires Proper(q) && PositionIndependent(q, score) && 0 < n <= |q.resumes| && j < |q.jobs|
    ensures BestOf(Table(q), j, n) == BestAlone(q.resumes, score, q.jobs[j], n)
  {
    assert Table(q)[n - 1][j] == Candidate(q, n - 1, j);
    if n > 1 {
      BestOfIsAlone(q, score, j, n - 1);
    }
  }

  /** With position-independent scoring the result is a map over the postings one by one, so
      neither the batch size nor the company a posting keeps in its batch matters. */
  lemma SizeIndependent(q: Query, score: (Resume, Job) -> RawEval)
    requires Proper(q) && PositionIndependent(q, score) && q.resumes != []
    ensures |BestMatches(q)| == |q.jobs|
    ensures forall j :: 0 <= j < |q.jobs| ==>
              BestMatches(q)[j] == BestAlone(q.resumes, score, q.jobs[j], |q.resumes|)
  {
    forall j | 0 <= j < |q.jobs| ensures BestMatches(q)[j] == BestAlone(q.resumes, score, q.jobs[j], |q.resumes|) {
      BestOfIsAlone(q, score, j, |q.resumes|);
    }
  }

  /** Hence two batch sizes give the same result. */
  lemma BatchSizeIrrelevant(q: Query, size: nat, score: (Resume, Job) -> RawEval)
    requires Proper(q) && size > 0 && PerPosting(q.replies, q.resumes, score)
    ensures BestMatches(q) == BestMatches(q.(size := size))
  {
    var other := q.(size := size);
    if q.resumes != [] {
      PerPostingIsIndependent(q, score);
      SizeIndependent(q, score);
      PerPostingIsIndependent(other, score);
      SizeIndependent(other, score);
    }
  }

  /** The call for this batch failed, or its reply held no object. */
  predicate Failed(q: Query, r: nat, start: nat)
    requires Proper(q)
  { start < |q.jobs| ==> ReplyTo(q, r, start) == map[] }

  predicate FromFallback(m: MatchedJob) {
    m.whyFit == AI_UNAVAILABLE_MARKER && m.missingSkills == [] && 0 <= m.percentage <= 100
  }

  lemma FailedCandidate(q: Query, r: nat, j: nat)
    requires Proper(q) && r < |q.resumes| && j < |q.jobs| && Failed(q, r, StartOf(q.size, j))
    ensures FromFallback(Candidate(q, r, j))
  {
    FallbackRange(q.jobs[j], q.resumes[r]);
  }

  lemma OneFromFallback(q: Query, j: nat) returns (m: MatchedJob)
    requires Proper(q) && q.resumes != [] && j < |q.jobs|
    requires forall r: nat, start: nat :: Failed(q, r, start)
    ensures m == BestMatches(q)[j] && FromFallback(m)
  {
    var r := BestCandidate(q, j);
    m := Candidate(q, r, j);
    assert Failed(q, r, StartOf(q.size, j));
    FailedCandidate(q, r, j);
  }

  lemma AllFromFallback(q: Query, ms: seq<MatchedJob>)
    requires Proper(q) && q.jobs != [] && q.resumes != [] && ms == BestMatches(q)
    requires forall r: nat, start: nat :: Failed(q, r, start)
    ensures forall j :: 0 <= j < |ms| ==> FromFallback(ms[j])
  {
    forall j | 0 <= j < |ms| ensures FromFallback(ms[j]) {
      var m := OneFromFallback(q, j);
    }
  }

  lemma FallbackDegrades(ms: seq<MatchedJob>)
    requires ms != [] && forall j :: 0 <= j < |ms| ==> FromFallback(ms[j])
    ensures Degraded(ms) && Mentions(ms) == 0 && forall m :: m in ms ==> FromFallback(m)
  {
    NothingMissing(ms);
  }

  /** When every call fails, each posting gets its best keyword score: the run is degraded, no
      skill is missing and every percentage is in range. */
  lemma AllCallsFailed(q: Query)
    requires Proper(q) && q.jobs != [] && q.resumes != []
    requires forall r: nat, start: nat :: Failed(q, r, start)
    ensures Degraded(BestMatches(q)) && Mentions(BestMatches(q)) == 0
    ensures forall m :: m in BestMatches(q) ==> FromFallback(m)
  {
    AllFromFallback(q, BestMatches(q));
    FallbackDegrades(BestMatches(q));
  }

  lemma {:induction false} NothingMissing(ms: seq<MatchedJob>)
    requires forall m :: m in ms ==> m.missingSkills == []
    ensures Mentions(ms) == 0
  {
    if ms != [] {
      NothingMissing(ms[..|ms| - 1]);
    }
  }

  // ----- the tally -----

  function Count(xs: seq<string>, x: string): nat {
    if xs == [] then 0 else (if xs[|xs| - 1] == x then 1 else 0) + Count(xs[..|xs| - 1], x)
  }

  /** How often a skill is missing over a list of matches. */
  function Occurrences(ms: seq<MatchedJob>, skill: string): nat {
    if ms == [] then 0 else Count(ms[|ms| - 1].missingSkills, skill) + Occurrences(ms[..|ms| - 1], skill)
  }

  function Mentions(ms: seq<MatchedJob>): nat {
    if ms == [] then 0 else |ms[|ms| - 1].missingSkills| + Mentions(ms[..|ms| - 1])
  }

  ghost function Total(tally: map<string, nat>): nat {
    if tally == map[] then 0
    else
      var k :| k in tally;
      tally[k] + Total(tally - {k})
  }

  lemma {:induction false} TotalWithout(tally: map<string, nat>, k: string)
    requires k in tally
    ensures Total(tally) == tally[k] + Total(tally - {k})
    decreases |tally|
  {
    var p :| p in tally && Total(tally) == tally[p] + Total(tally - {p});
    if p != k {
      TotalWithout(tally - {p}, k);
      assert tally - {p} - {k} == tally - {k} - {p};
      TotalWithout(tally - {k}, p);
    }
  }

  lemma TotalBump(tally: map<string, nat>, k: string)
    ensures Total(tally[k := (if k in tally then tally[k] else 0) + 1]) == Total(tally) + 1
  {
    var bumped := tally[k := (if k in tally then tally[k] else 0) + 1];
    TotalWithout(bumped, k);
    assert bumped - {k} == tally - {k};
    if k in tally {
      TotalWithout(tally, k);
    } else {
      assert tally - {k} == tally;
    }
  }

  /** The tally counts every skill exactly, and nothing is lost or counted twice overall. */
  ghost predicate TalliesMissing(tally: map<string, nat>, ms: seq<MatchedJob>) {
    && (forall skill :: skill in tally <==> Occurrences(ms, skill) > 0)
    && (forall skill :: skill in tally ==> tally[skill] == Occurrences(ms, skill))
    && Total(tally) == Mentions(ms)
  }

  /** The tally while the first `k` of `skills` are added on top of the matches `done`. */
  ghost predicate TalliesSome(tally: map<string, nat>, done: seq<MatchedJob>, skills: seq<string>, k: nat)
    requires k <= |skills|
  {
    && (forall skill :: skill in tally <==> Count(skills[..k], skill) + Occurrences(done, skill) > 0)
    && (forall skill :: skill in tally ==> tally[skill] == Count(skills[..k], skill) + Occurrences(done, skill))
    && Total(tally) == k + Mentions(done)
  }

  function Bump(tally: map<string, nat>, skill: string): map<string, nat> {
    tally[skill := (if skill in tally then tally[skill] else 0) + 1]
  }

  lemma CountOneMore(skills: seq<string>, k: nat, skill: string)
    requires k < |skills|
    ensures Count(skills[..k + 1], skill) == Count(skills[..k], skill) + (if skill == skills[k] then 1 else 0)
  {
    assert skills[..k + 1][..k] == skills[..k];
  }

  lemma BumpTallies(tally: map<string, nat>, done: seq<MatchedJob>, skills: seq<string>, k: nat)
    requires k < |skills| && TalliesSome(tally, done, skills, k)
    ensures TalliesSome(Bump(tally, skills[k]), done, skills, k + 1)
  {
    TotalBump(tally, skills[k]);
    forall skill
      ensures Count(skills[..k + 1], skill) == Count(skills[..k], skill) + (if skill == skills[k] then 1 else 0)
    {
      CountOneMore(skills, k, skill);
    }
  }

  lemma TalliesExtend(tally: map<string, nat>, ms: seq<MatchedJob>, i: nat)
    requires i < |ms| && TalliesSome(tally, ms[..i], ms[i].missingSkills, |ms[i].missingSkills|)
    ensures TalliesMissing(tally, ms[..i + 1])
  {
    var skills := ms[i].missingSkills;
    assert ms[..i + 1][..i] == ms[..i] && skills[..|skills|] == skills;
  }

  // ----- the tally, from the replies -----

  lemma {:induction false} CountIsMultiplicity(xs: seq<string>, x: string)
    ensures Count(xs, x) == multiset(xs)[x]
  {
    if xs != [] {
      CountIsMultiplicity(xs[..|xs| - 1], x);
      assert xs == xs[..|xs| - 1] + [xs[|xs| - 1]];
    }
  }

  /** The skills that the reply for résumé `r` says posting `j` misses. */
  ghost function MissingIn(q: Query, r: nat, j: nat): seq<string>
    requires Proper(q) && j < |q.jobs|
  {
    if Answered(q, r, j) && ReplyFor(q, r, j)[Decimal(j % q.size)].missingSkills.Value? then
      ReplyFor(q, r, j)[Decimal(j % q.size)].missingSkills.value
    else []
  }

  /** How often a skill stands in those lists, over the first `n` postings. */
  ghost function MissingOver(q: Query, winners: seq<nat>, skill: string, n: nat): nat
    requires Proper(q) && n <= |q.jobs| && n <= |winners|
  {
    if n == 0 then 0
    else MissingOver(q, winners, skill, n - 1) + multiset(MissingIn(q, winners[n - 1], n - 1))[skill]
  }

  /** For each posting the résumé whose reply its entry carries. */
  ghost predicate Wins(q: Query, winners: seq<nat>)
    requires Proper(q)
  {
    && |winners| == |q.jobs| == |BestMatches(q)|
    && forall j :: 0 <= j < |winners| ==> WonBy(q, winners[j], j)
  }

  ghost predicate WonBy(q: Query, r: nat, j: nat)
    requires Proper(q) && j < |q.jobs| == |BestMatches(q)|
  { r < |q.resumes| && Evaluates(q, r, j, BestMatches(q)[j]) }

  ghost predicate TalliesReplies(q: Query, winners: seq<nat>, tally: map<string, nat>)
    requires Proper(q) && Wins(q, winners)
  {
    forall skill :: (if skill in tally then tally[skill] else 0) == MissingOver(q, winners, skill, |q.jobs|)
  }

  lemma {:induction false} OccurrencesAdd(q: Query, winners: seq<nat>, ms: seq<MatchedJob>, skill: string)
    requires Proper(q) && |ms| <= |q.jobs| && |ms| <= |winners|
    requires forall j :: 0 <= j < |ms| ==> ms[j].missingSkills == MissingIn(q, winners[j], j)
    ensures Occurrences(ms, skill) == MissingOver(q, winners, skill, |ms|)
  {
    if ms != [] {
      var n := |ms| - 1;
      OccurrencesAdd(q, winners, ms[..n], skill);
      CountIsMultiplicity(ms[n].missingSkills, skill);
    }
  }

  ghost function WinnerOf(q: Query, j: nat): nat
    requires Proper(q) && j < |q.jobs| == |BestMatches(q)|
  { if r: nat :| WonBy(q, r, j) then r else 0 }

  /** The tally over the replies: a skill counts as often as the winning replies name it missing. With one
      résumé those are its replies to all postings. */
  lemma TallyFromReplies(q: Query) returns (winners: seq<nat>)
    requires Proper(q) && q.resumes != []
    ensures Wins(q, winners)
    ensures forall tally :: TalliesMissing(tally, BestMatches(q)) ==> TalliesReplies(q, winners, tally)
    ensures |q.resumes| == 1 ==> forall j :: 0 <= j < |winners| ==> winners[j] == 0
  {
    var ms := BestMatches(q);
    winners := seq(|q.jobs|, j requires 0 <= j < |q.jobs| => WinnerOf(q, j));
    forall j | 0 <= j < |winners|
      ensures WonBy(q, winners[j], j) && ms[j].missingSkills == MissingIn(q, winners[j], j)
    {
      WinnerWins(q, j);
    }
    forall skill ensures Occurrences(ms, skill) == MissingOver(q, winners, skill, |q.jobs|) {
      OccurrencesAdd(q, winners, ms, skill);
    }
  }

  lemma WinnerWins(q: Query, j: nat)
    requires Proper(q) && q.resumes != [] && j < |q.jobs|
    ensures |BestMatches(q)| == |q.jobs| && WonBy(q, WinnerOf(q, j), j)
    ensures BestMatches(q)[j].missingSkills == MissingIn(q, WinnerOf(q, j), j)
  {
    var r := BestMatchesMeaning(q, j);
    assert WonBy(q, r, j);
  }

  method Tally(ms: seq<MatchedJob>) returns (tally: map<string, nat>)
    ensures TalliesMissing(tally, ms)
  {
    tally := map[];
    for i := 0 to |ms|
      invariant TalliesMissing(tally, ms[..i])
    {
      var skills := ms[i].missingSkills;
      for k := 0 to |skills|
        invariant TalliesSome(tally, ms[..i], skills, k)
      {
        BumpTallies(tally, ms[..i], skills, k);
        tally := Bump(tally, skills[k]);
      }
      TalliesExtend(tally, ms, i);
    }
    assert ms[..|ms|] == ms;
  }
}
