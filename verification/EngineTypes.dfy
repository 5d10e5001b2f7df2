/** The engine's plain data: postings, résumés and scored postings. */
module EngineTypes {
  datatype Job = Job(source: string, company: string, title: string, location: string,
                     description: string, url: string, externalHash: string)

  /** The parts of a parsed résumé the scorer reads. */
  datatype Resume = Resume(id: string, technicalSkills: seq<string>, languages: seq<string>,
                           frameworks: seq<string>, tools: seq<string>)

  datatype MatchedJob = MatchedJob(job: Job, percentage: int, matchedSkills: seq<string>, missingSkills: seq<string>,
                                   whyFit: string, urgency: string, action: string, profileId: string)

  function LowerChar(c: char): (l: char)
    ensures l as int == c as int + (if 'A' <= c <= 'Z' then 32 else 0) && !('A' <= l <= 'Z')
  { if 'A' <= c <= 'Z' then c - 'A' + 'a' else c }

  function UpperChar(c: char): (u: char)
    ensures u as int == c as int - (if 'a' <= c <= 'z' then 32 else 0) && !('a' <= u <= 'z')
  { if 'a' <= c <= 'z' then c - 'a' + 'A' else c }

  function Lower(s: string): string { seq(|s|, i requires 0 <= i < |s| => LowerChar(s[i])) }

  function Upper(s: string): string { seq(|s|, i requires 0 <= i < |s| => UpperChar(s[i])) }

  function Take<T>(s: seq<T>, n: nat): (front: seq<T>)
    ensures front <= s && |front| == if |s| <= n then |s| else n
  { if |s| <= n then s else s[..n] }

  function MapSeq<A, B>(f: A -> B, xs: seq<A>): (ys: seq<B>)
    ensures |ys| == |xs| && forall i :: 0 <= i < |xs| ==> ys[i] == f(xs[i])
  {
    seq(|xs|, i requires 0 <= i < |xs| => f(xs[i]))
  }

  function Filter<T(!new)>(keep: T -> bool, xs: seq<T>): (ys: seq<T>)
    ensures forall x :: x in ys <==> x in xs && keep(x)
  {
    if xs == [] then [] else (if keep(xs[0]) then [xs[0]] else []) + Filter(keep, xs[1..])
  }

  lemma {:induction false} FilterConcat<T(!new)>(keep: T -> bool, xs: seq<T>, ys: seq<T>)
    ensures Filter(keep, xs + ys) == Filter(keep, xs) + Filter(keep, ys)
  {
    if xs == [] {
      assert xs + ys == ys;
    } else {
      assert (xs + ys)[1..] == xs[1..] + ys;
      FilterConcat(keep, xs[1..], ys);
    }
  }

  lemma {:induction false} FilterNone<T(!new)>(keep: T -> bool, xs: seq<T>)
    requires forall x :: x in xs ==> !keep(x)
    ensures Filter(keep, xs) == []
  {
    if xs != [] {
      FilterNone(keep, xs[1..]);
    }
  }
}
