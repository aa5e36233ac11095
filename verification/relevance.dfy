/** The research agent's `web_search`: each DuckDuckGo hit is put to the
    completion service as a YES/NO relevance question; an accepted hit's body
    is merged into the running result by `combine_results`, itself one more
    completion call. Hits are examined in order and the loop stops once
    more than `max_results` hits have been counted.

    `complete` stands for `call_api(msgs, stream=False)` followed by
    `["choices"][0]["message"]["content"]`: it yields the answer text, or the
    error `call_api` raised (which ends the search). */
module Relevance {
  import opened Basics
  import opened Chat
  import opened Search

  datatype Reply = Answer(content: string) | CallFailed(error: string)

  /** The judge's verdict: the reply, lower-cased, is exactly "yes". */
  function IsYes(reply: string): (accepted: bool)
    ensures accepted <==> |reply| == 3 && reply[0] in "yY" && reply[1] in "eE" && reply[2] in "sS"
  {
    var lowered := Lower(reply);
    assert |lowered| == 3 ==> lowered == [lowered[0], lowered[1], lowered[2]];
    lowered == "yes"
  }

  /** Replies that merely start with a yes, or decorate it, are rejections. */
  lemma OnlyBareYesAccepted()
    ensures IsYes("yes") && IsYes("YES") && IsYes("Yes")
    ensures !IsYes("Yes.") && !IsYes("yes!") && !IsYes(" yes") && !IsYes("Yes, it is relevant")
  {
  }

  /** The fixed text of the relevance question around the query, title, URL and body. */
  const JudgeTemplate: seq<string> := [
    "Please evaluate the following search result based on its relevance to the query: '",
    "'.\n                    \nTitle: ",
    "\nURL: ",
    "\nContent: ",
    "\n\nIf the result is relevant, answer with the answer YES, or NO only.\n            "
  ]

  /** The fixed text of `combine_results`' request around the query, the
      current result and the new result. */
  const CombineTemplate: seq<string> := [
    "Your task is to consolidate and summarize search results for the query: '",
    "'.\n            \nInstructions:\n"
      + "1. Combine the information from the 'Current Result' and the 'New Result'.\n"
      + "2. Do not omit any details from either result.\n"
      + "3. If the 'New Result' does not offer any new information, return the 'Current Result' as is.\n"
      + "\nCurrent Result:\n",
    "\n\nNew Result:\n",
    "\n\nPlease proceed with the task."
  ]

  /** The relevance question for one hit: a single system message. */
  function JudgeMessages(query: string, hit: Hit): (msgs: seq<Message>)
    ensures |msgs| == 1 && msgs[0].role == System
    ensures EmbedsInOrder(msgs[0].content, [query, hit.title, hit.href, hit.body])
  {
    FillEmbedsHoles(JudgeTemplate, [query, hit.title, hit.href, hit.body]);
    [Message(System, Fill(JudgeTemplate, [query, hit.title, hit.href, hit.body]))]
  }

  /** `combine_results`' request: a single system message carrying the query,
      then the current result, then the new one. */
  function CombineMessages(query: string, results: string, newResults: string): (msgs: seq<Message>)
    ensures |msgs| == 1 && msgs[0].role == System
    ensures EmbedsInOrder(msgs[0].content, [query, results, newResults])
  {
    FillEmbedsHoles(CombineTemplate, [query, results, newResults]);
    [Message(System, Fill(CombineTemplate, [query, results, newResults]))]
  }

  /** The judge accepted the hit. */
  predicate Accepted(query: string, hit: Hit, complete: seq<Message> -> Reply)
  {
    complete(JudgeMessages(query, hit)).Answer? && IsYes(complete(JudgeMessages(query, hit)).content)
  }

  /** The loop's variables: `results`, `count` (hits judged) and the number
      of `combine_results` calls made. */
  datatype Progress = Progress(results: string, judged: nat, combines: nat)

  /** One iteration: judge the hit, merge it if accepted, count it. */
  function Examine(query: string, hit: Hit, complete: seq<Message> -> Reply, acc: Progress): (r: Result<Progress, string>)
    ensures r.Ok? ==> r.value.judged == acc.judged + 1
    ensures r.Ok? && !Accepted(query, hit, complete) ==> r.value.results == acc.results && r.value.combines == acc.combines
    ensures r.Ok? && Accepted(query, hit, complete) ==>
              && complete(CombineMessages(query, acc.results, hit.body)) == Answer(r.value.results)
              && r.value.combines == acc.combines + 1
    ensures r.Err? <==> complete(JudgeMessages(query, hit)).CallFailed?
                        || (Accepted(query, hit, complete) && complete(CombineMessages(query, acc.results, hit.body)).CallFailed?)
  {
    match complete(JudgeMessages(query, hit))
    case CallFailed(e) => Err(e)
    case Answer(verdict) =>
      if !IsYes(verdict) then Ok(Progress(acc.results, acc.judged + 1, acc.combines))
      else
        match complete(CombineMessages(query, acc.results, hit.body))
        case CallFailed(e) => Err(e)
        case Answer(merged) => Ok(Progress(merged, acc.judged + 1, acc.combines + 1))
  }

  /** How many of the hits the judge accepts. */
  function AcceptedCount(query: string, hits: seq<Hit>, complete: seq<Message> -> Reply): nat
  {
    if |hits| == 0 then 0
    else AcceptedCount(query, hits[..|hits| - 1], complete) + (if Accepted(query, hits[|hits| - 1], complete) then 1 else 0)
  }

  /** The reference result: the accepted hits' bodies merged one after the
      other into an initially empty result, rejected hits skipped. */
  function Merged(query: string, hits: seq<Hit>, complete: seq<Message> -> Reply): string
  {
    if |hits| == 0 then ""
    else
      var before := Merged(query, hits[..|hits| - 1], complete);
      var hit := hits[|hits| - 1];
      if !Accepted(query, hit, complete) then before
      else
        match complete(CombineMessages(query, before, hit.body))
        case Answer(merged) => merged
        case CallFailed(_) => before  // a failed merge ends the search with an error instead
  }

  /** Examining `hit` on top of the result `before` raises: the judge call
      fails, or the judge says yes and the merge call fails. */
  predicate StepFails(query: string, hit: Hit, before: string, complete: seq<Message> -> Reply)
  {
    complete(JudgeMessages(query, hit)).CallFailed?
    || (Accepted(query, hit, complete) && complete(CombineMessages(query, before, hit.body)).CallFailed?)
  }

  /** Examining the hits in order raises at some hit. */
  predicate Raises(query: string, hits: seq<Hit>, complete: seq<Message> -> Reply)
  {
    |hits| > 0
    && (Raises(query, hits[..|hits| - 1], complete)
        || StepFails(query, hits[|hits| - 1], Merged(query, hits[..|hits| - 1], complete), complete))
  }

  /** The loop's state after examining all of `hits` with no limit: `Examine`
      applied hit after hit, the first error ending the fold. */
  function Fold(query: string, hits: seq<Hit>, complete: seq<Message> -> Reply): (r: Result<Progress, string>)
    ensures r.Ok? ==> r.value.judged == |hits|
  {
    if |hits| == 0 then Ok(Progress("", 0, 0))
    else
      match Fold(query, hits[..|hits| - 1], complete)
      case Err(e) => Err(e)
      case Ok(acc) => Examine(query, hits[|hits| - 1], complete, acc)
  }

  /** The fold raises exactly when some hit's judge call fails or its merge
      call fails after a yes; otherwise it has merged exactly the accepted
      hits, one `combine_results` call each. */
  lemma {:induction false} FoldMeaning(query: string, hits: seq<Hit>, complete: seq<Message> -> Reply)
    ensures Fold(query, hits, complete).Err? <==> Raises(query, hits, complete)
    ensures Fold(query, hits, complete).Ok? ==>
              Fold(query, hits, complete).value
              == Progress(Merged(query, hits, complete), |hits|, AcceptedCount(query, hits, complete))
    decreases |hits|
  {
    if |hits| > 0 {
      FoldMeaning(query, hits[..|hits| - 1], complete);
    }
  }

  /** A fold that has raised stays raised, with the same error. */
  lemma {:induction false} FoldErrPersists(query: string, hits: seq<Hit>, complete: seq<Message> -> Reply, m: nat, n: nat)
    requires m <= n <= |hits|
    requires Fold(query, hits[..m], complete).Err?
    ensures Fold(query, hits[..n], complete) == Fold(query, hits[..m], complete)
    decreases n
  {
    if m < n {
      FoldErrPersists(query, hits, complete, m, n - 1);
      assert hits[..n][..n - 1] == hits[..n - 1];
    }
  }

  /** One more hit: the fold over `i + 1` hits is one `Examine` after the fold over `i`. */
  lemma FoldStep(query: string, hits: seq<Hit>, complete: seq<Message> -> Reply, i: nat)
    requires i < |hits|
    requires Fold(query, hits[..i], complete).Ok?
    ensures Fold(query, hits[..i + 1], complete) == Examine(query, hits[i], complete, Fold(query, hits[..i], complete).value)
  {
    assert hits[..i + 1][..i] == hits[..i];
  }

  /** A completion service that always answers never makes the fold raise. */
  lemma {:induction false} AnsweringNeverRaises(query: string, hits: seq<Hit>, complete: seq<Message> -> Reply)
    requires forall msgs :: complete(msgs).Answer?
    ensures !Raises(query, hits, complete)
    decreases |hits|
  {
    if |hits| > 0 {
      AnsweringNeverRaises(query, hits[..|hits| - 1], complete);
      var hit := hits[|hits| - 1];
      assert complete(JudgeMessages(query, hit)).Answer?;
      assert complete(CombineMessages(query, Merged(query, hits[..|hits| - 1], complete), hit.body)).Answer?;
    }
  }

  function Min(a: int, b: int): int { if a <= b then a else b }
  function Max(a: int, b: int): int { if a >= b then a else b }

  /** The loop as written: `count` is incremented after each hit and the loop
      breaks once `count > max_results`, so the hit that makes the count
      exceed the limit has already been judged (and possibly merged). */
  function SearchLoopAsWritten(query: string, hits: seq<Hit>, maxResults: int,
                               complete: seq<Message> -> Reply, acc: Progress): (r: Result<Progress, string>)
    requires acc.judged <= |hits| && Fold(query, hits[..acc.judged], complete) == Ok(acc)
    requires acc.judged == 0 || acc.judged <= maxResults
    ensures r == Fold(query, hits[..Min(|hits|, Max(maxResults, 0) + 1)], complete)
    decreases |hits| - acc.judged
  {
    if acc.judged == |hits| then Ok(acc)
    else
      FoldStep(query, hits, complete, acc.judged);
      match Examine(query, hits[acc.judged], complete, acc)
      case Err(e) =>
        FoldErrPersists(query, hits, complete, acc.judged + 1, Min(|hits|, Max(maxResults, 0) + 1));
        Err(e)
      case Ok(next) =>
        if next.judged > maxResults then Ok(next)
        else SearchLoopAsWritten(query, hits, maxResults, complete, next)
  }

  /** `web_search(query, max_results)` as written: the fold over the first
      `max_results + 1` hits. */
  function ResearchSearchAsWritten(query: string, hits: seq<Hit>, maxResults: int,
                                   complete: seq<Message> -> Reply): (r: Result<Progress, string>)
    ensures r == Fold(query, hits[..Min(|hits|, Max(maxResults, 0) + 1)], complete)
    ensures r.Ok? ==> r.value.judged == Min(|hits|, Max(maxResults, 0) + 1)
  {
    SearchLoopAsWritten(query, hits, maxResults, complete, Progress("", 0, 0))
  }

  /** The loop with the limit checked before judging: at most `max_results`
      hits are examined. */
  function SearchLoop(query: string, hits: seq<Hit>, maxResults: int,
                      complete: seq<Message> -> Reply, acc: Progress): (r: Result<Progress, string>)
    requires acc.judged <= |hits| && Fold(query, hits[..acc.judged], complete) == Ok(acc)
    requires acc.judged <= Max(maxResults, 0)
    ensures r == Fold(query, hits[..Min(|hits|, Max(maxResults, 0))], complete)
    decreases |hits| - acc.judged
  {
    if acc.judged == |hits| || acc.judged >= maxResults then Ok(acc)
    else
      FoldStep(query, hits, complete, acc.judged);
      match Examine(query, hits[acc.judged], complete, acc)
      case Err(e) =>
        FoldErrPersists(query, hits, complete, acc.judged + 1, Min(|hits|, Max(maxResults, 0)));
        Err(e)
      case Ok(next) => SearchLoop(query, hits, maxResults, complete, next)
  }

  /** `web_search(query, max_results)` judging at most `max_results` hits. */
  function ResearchSearch(query: string, hits: seq<Hit>, maxResults: int,
                          complete: seq<Message> -> Reply): (r: Result<Progress, string>)
    ensures r == Fold(query, hits[..Min(|hits|, Max(maxResults, 0))], complete)
    ensures r.Ok? ==> r.value.judged == Min(|hits|, Max(maxResults, 0)) <= Max(maxResults, 0)
  {
    SearchLoop(query, hits, maxResults, complete, Progress("", 0, 0))
  }

  /** What the searches return, in terms of the reference fold: each raises
      exactly when a needed call fails among the hits it examines, and
      otherwise returns the merge of exactly the accepted ones among them. */
  lemma SearchesMeaning(query: string, hits: seq<Hit>, maxResults: int, complete: seq<Message> -> Reply)
    ensures var judged := hits[..Min(|hits|, Max(maxResults, 0) + 1)];
            var r := ResearchSearchAsWritten(query, hits, maxResults, complete);
            && (r.Err? <==> Raises(query, judged, complete))
            && (r.Ok? ==> r.value.results == Merged(query, judged, complete)
                          && r.value.combines == AcceptedCount(query, judged, complete))
    ensures var judged := hits[..Min(|hits|, Max(maxResults, 0))];
            var r := ResearchSearch(query, hits, maxResults, complete);
            && (r.Err? <==> Raises(query, judged, complete))
            && (r.Ok? ==> r.value.results == Merged(query, judged, complete)
                          && r.value.combines == AcceptedCount(query, judged, complete))
  {
    FoldMeaning(query, hits[..Min(|hits|, Max(maxResults, 0) + 1)], complete);
    FoldMeaning(query, hits[..Min(|hits|, Max(maxResults, 0))], complete);
  }

  /** When the completion service always answers, both searches return. */
  lemma AnsweringServiceReturns(query: string, hits: seq<Hit>, maxResults: int, complete: seq<Message> -> Reply)
    requires forall msgs :: complete(msgs).Answer?
    ensures ResearchSearchAsWritten(query, hits, maxResults, complete).Ok?
    ensures ResearchSearch(query, hits, maxResults, complete).Ok?
  {
    SearchesMeaning(query, hits, maxResults, complete);
    AnsweringNeverRaises(query, hits[..Min(|hits|, Max(maxResults, 0) + 1)], complete);
    AnsweringNeverRaises(query, hits[..Min(|hits|, Max(maxResults, 0))], complete);
  }

  /** A judge that rejects every hit. */
  function AlwaysNo(msgs: seq<Message>): Reply
  {
    Answer("no")
  }

  /** Three hits, a limit of one and a judge that always says "no": the loop
      as written judges two hits, one more than the limit; the corrected loop
      judges one. */
  lemma OneHitTooMany(query: string, a: Hit, b: Hit, c: Hit)
    ensures ResearchSearchAsWritten(query, [a, b, c], 1, AlwaysNo) == Ok(Progress("", 2, 0))
    ensures ResearchSearch(query, [a, b, c], 1, AlwaysNo) == Ok(Progress("", 1, 0))
  {
    var hits := [a, b, c];
    assert !IsYes("no");
    assert !Accepted(query, a, AlwaysNo) && !Accepted(query, b, AlwaysNo);
    assert Examine(query, a, AlwaysNo, Progress("", 0, 0)) == Ok(Progress("", 1, 0));
    assert Examine(query, b, AlwaysNo, Progress("", 1, 0)) == Ok(Progress("", 2, 0));
    calc {
      ResearchSearchAsWritten(query, hits, 1, AlwaysNo);
      SearchLoopAsWritten(query, hits, 1, AlwaysNo, Progress("", 0, 0));
      SearchLoopAsWritten(query, hits, 1, AlwaysNo, Progress("", 1, 0));
      Ok(Progress("", 2, 0));
    }
    calc {
      ResearchSearch(query, hits, 1, AlwaysNo);
      SearchLoop(query, hits, 1, AlwaysNo, Progress("", 0, 0));
      SearchLoop(query, hits, 1, AlwaysNo, Progress("", 1, 0));
      Ok(Progress("", 1, 0));
    }
  }
}
