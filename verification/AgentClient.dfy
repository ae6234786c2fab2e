/** The example client: it asks for a decision, tries its candidates in order, and reports what happened. */
module AgentClient {
  import opened Wrappers
  import opened Rounding
  import opened Schemas
  import opened Protocol

  // ----- what the client meets

  /** How a provider call or a report ends: it returns, raises an error the loop catches, or raises any other. */
  datatype Reply = Fine | Caught(errorClass: string) | Uncaught

  /** What one pass of the loop meets: the provider's reply and, if that was fine, the reply to the report. */
  datatype Turn = Turn(call: Reply, report: Reply)

  /** The part of a model id before its first slash; unpacking the split raises when there is none. */
  function ProviderOf(modelId: string): Option<string> {
    if modelId == "" then None
    else if modelId[0] == '/' then Some("")
    else
      match ProviderOf(modelId[1..])
      case None => None
      case Some(rest) => Some([modelId[0]] + rest)
  }

  lemma {:induction false} ProviderIsBeforeFirstSlash(modelId: string, k: nat)
    requires k < |modelId| && modelId[k] == '/' && '/' !in modelId[..k]
    ensures ProviderOf(modelId) == Some(modelId[..k])
  {
    if k > 0 {
      assert modelId[..k][0] == modelId[0];
      assert modelId[1..][..k - 1] == modelId[..k][1..];
      ProviderIsBeforeFirstSlash(modelId[1..], k - 1);
      assert modelId[..k] == [modelId[0]] + modelId[..k][1..];
    }
  }

  // ----- attempts and reports

  function GoodAttempt(c: Candidate, provider: string, request: DecisionRequest): Attempt {
    Attempt(c.modelId, provider, c.rank, Succeeded, None, c.expectedTtfbMs,
            MaxInt(1, request.inputChars / 2), request.expectedOutputTokens, c.estimatedCostUsd)
  }

  function BadAttempt(c: Candidate, provider: string, errorClass: string): Attempt {
    Attempt(c.modelId, provider, c.rank, UpstreamError, Some(errorClass), c.expectedTtfbMs, 0, 0, 0.0)
  }

  function TotalLatency(attempts: seq<Attempt>): int {
    if attempts == [] then 0
    else TotalLatency(attempts[..|attempts| - 1]) + attempts[|attempts| - 1].latencyMs
  }

  function ReportOf(response: Response, request: DecisionRequest, attempts: seq<Attempt>, status: FinalStatus,
                    model: Option<string>, cost: real): Outcome {
    Outcome(response.decisionId, request.agentId, request.requestId, status, attempts, model,
            MaxInt(0, |attempts| - 1), TotalLatency(attempts), cost)
  }

  // ----- a session

  /** An answer, the error that says all candidates failed, or any other error: one the loop does not catch, or any at
      all from the final report, which is made outside the loop. */
  datatype Ending = Answered(modelId: string) | AllFailed | Raised

  /** The reports posted, in order, and how the invocation ends. */
  datatype Session = Session(sent: seq<Outcome>, ending: Ending)

  /** From the point where `attempts` have been made and the candidates `cs` are left. */
  function Continue(response: Response, request: DecisionRequest, cs: seq<Candidate>, turns: seq<Turn>, last: Reply,
                    attempts: seq<Attempt>): Session
    requires |turns| == |cs|
    decreases |cs|
  {
    if cs == [] then
      Session([ReportOf(response, request, attempts, Failed, None, 0.0)], if last == Fine then AllFailed else Raised)
    else
      var c, t := cs[0], turns[0];
      match ProviderOf(c.modelId)
      case None => Session([], Raised)
      case Some(provider) =>
        match t.call
        case Uncaught => Session([], Raised)
        case Caught(e) => Continue(response, request, cs[1..], turns[1..], last,
                                   attempts + [BadAttempt(c, provider, e)])
        case Fine =>
          var good := attempts + [GoodAttempt(c, provider, request)];
          var o := ReportOf(response, request, good, Success, Some(c.modelId), c.estimatedCostUsd);
          match t.report
          case Fine => Session([o], Answered(c.modelId))
          case Uncaught => Session([o], Raised)
          case Caught(e) =>
            var rest := Continue(response, request, cs[1..], turns[1..], last, good + [BadAttempt(c, provider, e)]);
            Session([o] + rest.sent, rest.ending)
  }

  function Invocation(response: Response, request: DecisionRequest, turns: seq<Turn>, last: Reply): Session
    requires |turns| == |response.decision.candidates|
  {
    Continue(response, request, response.decision.candidates, turns, last, [])
  }

  /** One pass of the loop over candidate `i`. */
  lemma ContinueFrom(response: Response, request: DecisionRequest, cs: seq<Candidate>, turns: seq<Turn>, last: Reply,
                     attempts: seq<Attempt>, i: nat)
    requires |turns| == |cs| && i <= |cs|
    ensures var session := Continue(response, request, cs[i..], turns[i..], last, attempts);
            if i == |cs| then
              session == Session([ReportOf(response, request, attempts, Failed, None, 0.0)],
                                 if last == Fine then AllFailed else Raised)
            else if ProviderOf(cs[i].modelId).None? || turns[i].call == Uncaught then session == Session([], Raised)
            else
              var provider := ProviderOf(cs[i].modelId).value;
              var good := attempts + [GoodAttempt(cs[i], provider, request)];
              var o := ReportOf(response, request, good, Success, Some(cs[i].modelId), cs[i].estimatedCostUsd);
              match turns[i].call
              case Caught(e) => session == Continue(response, request, cs[i + 1..], turns[i + 1..], last,
                                                    attempts + [BadAttempt(cs[i], provider, e)])
              case Fine =>
                match turns[i].report
                case Fine => session == Session([o], Answered(cs[i].modelId))
                case Uncaught => session == Session([o], Raised)
                case Caught(e) =>
                  var rest := Continue(response, request, cs[i + 1..], turns[i + 1..], last,
                                       good + [BadAttempt(cs[i], provider, e)]);
                  session == Session([o] + rest.sent, rest.ending)
  {
    hide ProviderOf, ReportOf, GoodAttempt, BadAttempt;
    if i < |cs| {
      assert cs[i..][0] == cs[i] && cs[i..][1..] == cs[i + 1..];
      assert turns[i..][0] == turns[i] && turns[i..][1..] == turns[i + 1..];
    }
  }

  /** The loop of the client once it holds a decision; a caught report failure falls back as a failed call does. */
  method InvokeWithFallback(response: Response, request: DecisionRequest, turns: seq<Turn>, last: Reply)
    returns (sent: seq<Outcome>, ending: Ending)
    requires |turns| == |response.decision.candidates|
    ensures Session(sent, ending) == Invocation(response, request, turns, last)
  {
    hide Continue, ProviderOf, ReportOf, GoodAttempt, BadAttempt;
    var candidates := response.decision.candidates;
    assert candidates[0..] == candidates && turns[0..] == turns;
    var attempts: seq<Attempt> := [];
    sent := [];
    var i := 0;
    while i < |candidates|
      invariant 0 <= i <= |candidates|
      invariant var rest := Continue(response, request, candidates[i..], turns[i..], last, attempts);
                Invocation(response, request, turns, last) == Session(sent + rest.sent, rest.ending)
    {
      var c := candidates[i];
      ContinueFrom(response, request, candidates, turns, last, attempts, i);
      var provider := ProviderOf(c.modelId);
      if provider.None? || turns[i].call == Uncaught {
        return sent, Raised;
      }
      var failure := turns[i].call;
      if failure == Fine {
        attempts := attempts + [GoodAttempt(c, provider.value, request)];
        sent := sent + [ReportOf(response, request, attempts, Success, Some(c.modelId), c.estimatedCostUsd)];
        failure := turns[i].report;
        if failure == Fine {
          return sent, Answered(c.modelId);
        }
        if failure == Uncaught {
          return sent, Raised;
        }
      }
      attempts := attempts + [BadAttempt(c, provider.value, failure.errorClass)];
      i := i + 1;
    }
    ContinueFrom(response, request, candidates, turns, last, attempts, i);
    sent := sent + [ReportOf(response, request, attempts, Failed, None, 0.0)];
    ending := if last == Fine then AllFailed else Raised;
  }

  // ----- what can be reported

  /** A report names its decision and either failed at no cost or succeeded at the price of the candidate it names. */
  ghost predicate Priced(response: Response, request: DecisionRequest, o: Outcome) {
    && o.decisionId == response.decisionId && o.agentId == request.agentId && o.requestId == request.requestId
    && ((o.finalStatus == Failed && o.finalModelId == None && o.finalCostUsd == 0.0)
        || (o.finalStatus == Success
            && exists c ::
                 c in response.decision.candidates
                 && o.finalModelId == Some(c.modelId) && o.finalCostUsd == c.estimatedCostUsd))
  }

  lemma {:induction false} ContinuePriced(response: Response, request: DecisionRequest, cs: seq<Candidate>,
                                          turns: seq<Turn>, last: Reply, attempts: seq<Attempt>)
    requires |turns| == |cs| && forall c :: c in cs ==> c in response.decision.candidates
    ensures forall o :: o in Continue(response, request, cs, turns, last, attempts).sent ==>
            Priced(response, request, o)
    decreases |cs|
  {
    hide ProviderOf, TotalLatency;
    if cs != [] && ProviderOf(cs[0].modelId).Some? {
      var c, t, provider := cs[0], turns[0], ProviderOf(cs[0].modelId).value;
      assert c in cs;
      var good := attempts + [GoodAttempt(c, provider, request)];
      if t.call.Caught? {
        ContinuePriced(response, request, cs[1..], turns[1..], last,
                       attempts + [BadAttempt(c, provider, t.call.errorClass)]);
      } else if t.call.Fine? && t.report.Caught? {
        ContinuePriced(response, request, cs[1..], turns[1..], last,
                       good + [BadAttempt(c, provider, t.report.errorClass)]);
      }
    }
  }

  /** Whatever providers and the network do, every report of an invocation is priced like this. */
  lemma ReportsPriced(response: Response, request: DecisionRequest, turns: seq<Turn>, last: Reply, o: Outcome)
    requires |turns| == |response.decision.candidates| && o in Invocation(response, request, turns, last).sent
    ensures Priced(response, request, o)
  {
    ContinuePriced(response, request, response.decision.candidates, turns, last, []);
  }

  // ----- bookkeeping across lost reports

  function AttemptCosts(attempts: seq<Attempt>): real {
    if attempts == [] then 0.0 else AttemptCosts(attempts[..|attempts| - 1]) + attempts[|attempts| - 1].costUsd
  }

  function FinalCosts(sent: seq<Outcome>): real {
    if sent == [] then 0.0 else sent[0].finalCostUsd + FinalCosts(sent[1..])
  }

  lemma OneMoreAttempt(attempts: seq<Attempt>, a: Attempt)
    ensures AttemptCosts(attempts + [a]) == AttemptCosts(attempts) + a.costUsd
    ensures TotalLatency(attempts + [a]) == TotalLatency(attempts) + a.latencyMs
  {
    assert (attempts + [a])[..|attempts|] == attempts;
  }

  /** How a session goes on after a failed call, and after a lost report. */
  lemma ContinueUnfolds(response: Response, request: DecisionRequest, cs: seq<Candidate>, turns: seq<Turn>, last: Reply,
                        attempts: seq<Attempt>)
    requires |turns| == |cs| && cs != [] && Continue(response, request, cs, turns, last, attempts).sent != []
    ensures ProviderOf(cs[0].modelId).Some? && !turns[0].call.Uncaught?
    ensures var c, t, provider := cs[0], turns[0], ProviderOf(cs[0].modelId).value;
            var session := Continue(response, request, cs, turns, last, attempts);
            var good := attempts + [GoodAttempt(c, provider, request)];
            var o := ReportOf(response, request, good, Success, Some(c.modelId), c.estimatedCostUsd);
            if t.call.Caught? then
              session == Continue(response, request, cs[1..], turns[1..], last,
                                  attempts + [BadAttempt(c, provider, t.call.errorClass)])
            else if t.report.Caught? then
              session.sent == [o] + Continue(response, request, cs[1..], turns[1..], last,
                                             good + [BadAttempt(c, provider, t.report.errorClass)]).sent
            else session.sent == [o]
  {
    hide ProviderOf, ReportOf, GoodAttempt, BadAttempt;
  }

  lemma FirstCost(o: Outcome, rest: seq<Outcome>, i: nat)
    requires i <= |rest|
    ensures FinalCosts(([o] + rest)[..i + 1]) == o.finalCostUsd + FinalCosts(rest[..i])
  {
    assert ([o] + rest)[..i + 1][1..] == rest[..i];
  }

  lemma {:induction false} ContinueBalances(response: Response, request: DecisionRequest, cs: seq<Candidate>,
                                            turns: seq<Turn>, last: Reply, attempts: seq<Attempt>, i: nat)
    requires |turns| == |cs|
    requires i < |Continue(response, request, cs, turns, last, attempts).sent|
    ensures var sent := Continue(response, request, cs, turns, last, attempts).sent;
            AttemptCosts(sent[i].attempts) == AttemptCosts(attempts) + FinalCosts(sent[..i + 1])
    decreases |cs|
  {
    hide ProviderOf, TotalLatency, AttemptCosts, FinalCosts;
    var sent := Continue(response, request, cs, turns, last, attempts).sent;
    if cs == [] {
      assert sent == [sent[0]] + [];
      FirstCost(sent[0], [], 0);
      NoCost();
    } else {
      ContinueUnfolds(response, request, cs, turns, last, attempts);
      hide Continue;
      var c, t, provider := cs[0], turns[0], ProviderOf(cs[0].modelId).value;
      var good := attempts + [GoodAttempt(c, provider, request)];
      OneMoreAttempt(attempts, GoodAttempt(c, provider, request));
      if t.call.Caught? {
        var bad := BadAttempt(c, provider, t.call.errorClass);
        OneMoreAttempt(attempts, bad);
        ContinueBalances(response, request, cs[1..], turns[1..], last, attempts + [bad], i);
      } else {
        NoCost();
        if t.report.Caught? {
          var bad := BadAttempt(c, provider, t.report.errorClass);
          OneMoreAttempt(good, bad);
          var rest := Continue(response, request, cs[1..], turns[1..], last, good + [bad]).sent;
          FirstCost(sent[0], rest, i);
          if i == 0 {
            assert rest[..0] == [];
          } else {
            ContinueBalances(response, request, cs[1..], turns[1..], last, good + [bad], i - 1);
          }
        } else {
          assert sent == [sent[0]] + [];
          FirstCost(sent[0], [], 0);
        }
      }
    }
  }

  lemma NoCost()
    ensures FinalCosts([]) == 0.0
  {
  }

  /** The attempts a report lists cost what this report and all the reports lost before it say in total: the
      report that is finally charged leaves out exactly the answers whose own reports were lost. */
  lemma AttemptsCostWhatReportsSay(response: Response, request: DecisionRequest, turns: seq<Turn>, last: Reply, i: nat)
    requires |turns| == |response.decision.candidates| && i < |Invocation(response, request, turns, last).sent|
    ensures var sent := Invocation(response, request, turns, last).sent;
            AttemptCosts(sent[i].attempts) == FinalCosts(sent[..i + 1])
  {
    ContinueBalances(response, request, response.decision.candidates, turns, last, [], i);
  }

  /** If the first candidate answers but its report fails, and the second answers and reports, the client makes two
      reports. The last one lists the first answer among its attempts but leaves out its cost; if the first report had
      reached the control plane all the same, the last one is a duplicate. */
  lemma LostReportHidesCost(response: Response, request: DecisionRequest, e: string, rest: seq<Turn>, last: Reply)
    requires |response.decision.candidates| == |rest| + 2
    requires forall c :: c in response.decision.candidates ==> ProviderOf(c.modelId).Some?
    ensures var cs := response.decision.candidates;
            var sent := Invocation(response, request, [Turn(Fine, Caught(e)), Turn(Fine, Fine)] + rest, last).sent;
            && |sent| == 2
            && sent[0].finalStatus == sent[1].finalStatus == Success
            && sent[0].finalCostUsd == cs[0].estimatedCostUsd && sent[1].finalCostUsd == cs[1].estimatedCostUsd
            && AttemptCosts(sent[1].attempts) == cs[0].estimatedCostUsd + cs[1].estimatedCostUsd
  {
    hide ProviderOf, TotalLatency, AttemptCosts;
    var cs, turns := response.decision.candidates, [Turn(Fine, Caught(e)), Turn(Fine, Fine)] + rest;
    assert cs[0] in cs && cs[1] in cs;
    var p0 := ProviderOf(cs[0].modelId).value;
    var attempts := [] + [GoodAttempt(cs[0], p0, request)] + [BadAttempt(cs[0], p0, e)];
    assert turns[0] == Turn(Fine, Caught(e)) && turns[1..][0] == Turn(Fine, Fine);
    AnsweredAtOnce(response, request, cs[1..], turns[1..], last, attempts);
    var sent := Invocation(response, request, turns, last).sent;
    AttemptsCostWhatReportsSay(response, request, turns, last, 1);
    hide Continue, Invocation, FinalCosts;
    FirstCost(sent[0], [sent[1]], 1);
    FirstCost(sent[1], [], 0);
    NoCost();
    assert [sent[0]] + [sent[1]] == sent && sent[..2] == sent && [sent[1]] + [] == [sent[1]] == [sent[1]][..1];
  }

  lemma AnsweredAtOnce(response: Response, request: DecisionRequest, cs: seq<Candidate>, turns: seq<Turn>, last: Reply,
                       attempts: seq<Attempt>)
    requires |turns| == |cs| && cs != [] && turns[0] == Turn(Fine, Fine) && ProviderOf(cs[0].modelId).Some?
    ensures var sent := Continue(response, request, cs, turns, last, attempts).sent;
            |sent| == 1 && sent[0].finalStatus == Success && sent[0].finalCostUsd == cs[0].estimatedCostUsd
  {
    hide ProviderOf, TotalLatency;
  }

  // ----- shape of a session

  lemma {:induction false} ContinueShape(response: Response, request: DecisionRequest, cs: seq<Candidate>,
                                         turns: seq<Turn>, last: Reply, attempts: seq<Attempt>, i: nat)
    requires |turns| == |cs| && (forall c :: c in cs ==> c.Valid()) && (cs != [] || attempts != [])
    requires TotalLatency(attempts) >= 0
    requires i < |Continue(response, request, cs, turns, last, attempts).sent|
    ensures var sent := Continue(response, request, cs, turns, last, attempts).sent;
            && sent[i].Valid()
            && attempts <= sent[i].attempts
            && (i + 1 < |sent| ==> sent[i].finalStatus == Success && sent[i].attempts < sent[i + 1].attempts)
    decreases |cs|
  {
    hide ProviderOf, AttemptCosts, TotalLatency;
    if cs != [] {
      ContinueUnfolds(response, request, cs, turns, last, attempts);
      hide Continue;
      var c, t, provider := cs[0], turns[0], ProviderOf(cs[0].modelId).value;
      assert c in cs;
      var good := attempts + [GoodAttempt(c, provider, request)];
      OneMoreAttempt(attempts, GoodAttempt(c, provider, request));
      if t.call.Caught? {
        var bad := BadAttempt(c, provider, t.call.errorClass);
        OneMoreAttempt(attempts, bad);
        ContinueShape(response, request, cs[1..], turns[1..], last, attempts + [bad], i);
      } else if t.report.Caught? {
        var bad := BadAttempt(c, provider, t.report.errorClass);
        OneMoreAttempt(good, bad);
        var rest := Continue(response, request, cs[1..], turns[1..], last, good + [bad]).sent;
        var j := if i == 0 then 0 else i - 1;
        if j < |rest| {
          ContinueShape(response, request, cs[1..], turns[1..], last, good + [bad], j);
        }
      }
    }
  }

  /** Every report satisfies the bounds the control plane checks; a report is followed by another only if it was a
      success report that got lost, and the next one lists every attempt of this one and more. */
  lemma ReportsGrow(response: Response, request: DecisionRequest, turns: seq<Turn>, last: Reply, i: nat)
    requires |turns| == |response.decision.candidates| && response.decision.candidates != []
    requires forall c :: c in response.decision.candidates ==> c.Valid()
    requires i < |Invocation(response, request, turns, last).sent|
    ensures var sent := Invocation(response, request, turns, last).sent;
            && sent[i].Valid()
            && (i + 1 < |sent| ==> sent[i].finalStatus == Success && sent[i].attempts < sent[i + 1].attempts)
  {
    ContinueShape(response, request, response.decision.candidates, turns, last, [], i);
  }

  /** An invocation that returns a model has posted that model's success report last; one that gives up has
      posted a failure report last. */
  lemma {:induction false} EndingMatchesLastReport(response: Response, request: DecisionRequest, cs: seq<Candidate>,
                                                   turns: seq<Turn>, last: Reply, attempts: seq<Attempt>)
    requires |turns| == |cs|
    ensures var session := Continue(response, request, cs, turns, last, attempts);
            session.ending != Raised ==>
              && session.sent != []
              && var o := session.sent[|session.sent| - 1];
                 match session.ending
                 case Answered(id) => o.finalStatus == Success && o.finalModelId == Some(id)
                 case _ => o.finalStatus == Failed && o.finalModelId == None
    decreases |cs|
  {
    hide ProviderOf, TotalLatency;
    if cs != [] && ProviderOf(cs[0].modelId).Some? {
      var c, t, provider := cs[0], turns[0], ProviderOf(cs[0].modelId).value;
      var good := attempts + [GoodAttempt(c, provider, request)];
      if t.call.Caught? {
        EndingMatchesLastReport(response, request, cs[1..], turns[1..], last,
                                attempts + [BadAttempt(c, provider, t.call.errorClass)]);
      } else if t.call.Fine? && t.report.Caught? {
        EndingMatchesLastReport(response, request, cs[1..], turns[1..], last,
                                good + [BadAttempt(c, provider, t.report.errorClass)]);
      }
    }
  }

  // ----- what a report tells

  /** The attempt on this candidate that answered. */
  ghost predicate TellsAnswer(request: DecisionRequest, c: Candidate, a: Attempt) {
    && a.modelId == c.modelId && ProviderOf(c.modelId) == Some(a.provider) && a.rank == c.rank
    && a.status == Succeeded && a.errorClass == None && a.latencyMs == c.expectedTtfbMs
    && a.inputTokens == (if request.inputChars >= 2 then request.inputChars / 2 else 1)
    && a.outputTokens == request.expectedOutputTokens && a.costUsd == c.estimatedCostUsd
  }

  /** The attempt on this candidate that ended in this error. */
  ghost predicate TellsError(c: Candidate, e: string, a: Attempt) {
    && a.modelId == c.modelId && ProviderOf(c.modelId) == Some(a.provider) && a.rank == c.rank
    && a.status == UpstreamError && a.errorClass == Some(e) && a.latencyMs == c.expectedTtfbMs
    && a.inputTokens == 0 && a.outputTokens == 0 && a.costUsd == 0.0
  }

  /** The attempts tell what happened to the candidates, one after the other: an error for a failed call, an answer and
      an error for a lost report, and last, in a success report, the answer that it reports. */
  ghost predicate Tells(request: DecisionRequest, cs: seq<Candidate>, turns: seq<Turn>, attempts: seq<Attempt>,
                        success: bool)
    requires |turns| == |cs|
    decreases |cs|
  {
    if cs == [] then attempts == [] && !success
    else
      && attempts != []
      && match turns[0].call
         case Uncaught => false
         case Caught(e) =>
           TellsError(cs[0], e, attempts[0]) && Tells(request, cs[1..], turns[1..], attempts[1..], success)
         case Fine =>
           && TellsAnswer(request, cs[0], attempts[0])
           && ((success && |attempts| == 1)
               || (&& turns[0].report.Caught? && |attempts| >= 2
                   && TellsError(cs[0], turns[0].report.errorClass, attempts[1])
                   && Tells(request, cs[1..], turns[1..], attempts[2..], success)))
  }

  lemma GoodAttemptTells(request: DecisionRequest, c: Candidate, provider: string)
    requires ProviderOf(c.modelId) == Some(provider)
    ensures var a := GoodAttempt(c, provider, request);
            TellsAnswer(request, c, a) && a.modelId == c.modelId && a.costUsd == c.estimatedCostUsd
  {
    hide ProviderOf;
  }

  lemma BadAttemptTells(c: Candidate, provider: string, e: string)
    requires ProviderOf(c.modelId) == Some(provider)
    ensures TellsError(c, e, BadAttempt(c, provider, e))
  {
    hide ProviderOf;
  }

  /** The report's own fields, given its attempts. */
  ghost predicate SumsUp(o: Outcome) {
    && o.endToEndLatencyMs == TotalLatency(o.attempts)
    && o.fallbackDepth == (if o.attempts == [] then 0 else |o.attempts| - 1)
    && (o.finalStatus == Success ==>
          && o.attempts != []
          && var last := o.attempts[|o.attempts| - 1];
             o.finalModelId == Some(last.modelId) && o.finalCostUsd == last.costUsd)
  }

  lemma TellsMissed(request: DecisionRequest, cs: seq<Candidate>, turns: seq<Turn>, bad: Attempt, rest: seq<Attempt>,
                    success: bool)
    requires |turns| == |cs| && cs != [] && turns[0].call.Caught? && TellsError(cs[0], turns[0].call.errorClass, bad)
    requires Tells(request, cs[1..], turns[1..], rest, success)
    ensures Tells(request, cs, turns, [bad] + rest, success)
  {
    hide TellsError, TellsAnswer;
    assert ([bad] + rest)[1..] == rest;
  }

  lemma TellsLost(request: DecisionRequest, cs: seq<Candidate>, turns: seq<Turn>, good: Attempt, bad: Attempt,
                  rest: seq<Attempt>, success: bool)
    requires |turns| == |cs| && cs != [] && turns[0].call.Fine? && turns[0].report.Caught?
    requires TellsAnswer(request, cs[0], good) && TellsError(cs[0], turns[0].report.errorClass, bad)
    requires Tells(request, cs[1..], turns[1..], rest, success)
    ensures Tells(request, cs, turns, [good, bad] + rest, success)
  {
    hide TellsError, TellsAnswer;
    assert ([good, bad] + rest)[2..] == rest;
  }

  lemma TellsDone(request: DecisionRequest, cs: seq<Candidate>, turns: seq<Turn>, good: Attempt)
    requires |turns| == |cs| && cs != [] && turns[0].call.Fine? && TellsAnswer(request, cs[0], good)
    ensures Tells(request, cs, turns, [good], true)
  {
    hide TellsError, TellsAnswer;
  }

  lemma FailureSumsUp(response: Response, request: DecisionRequest, attempts: seq<Attempt>)
    ensures var o := ReportOf(response, request, attempts, Failed, None, 0.0);
            SumsUp(o) && o.attempts == attempts && o.finalStatus == Failed
  {
    hide TotalLatency;
  }

  lemma SuccessSumsUp(response: Response, request: DecisionRequest, attempts: seq<Attempt>, good: Attempt)
    ensures var o := ReportOf(response, request, attempts + [good], Success, Some(good.modelId), good.costUsd);
            SumsUp(o) && o.attempts == attempts + [good] && o.finalStatus == Success
  {
    hide TotalLatency;
  }

  lemma TailAfter(attempts: seq<Attempt>, more: seq<Attempt>, all: seq<Attempt>)
    requires attempts + more <= all
    ensures attempts <= all && all[|attempts|..] == more + all[|attempts + more|..]
  {
    assert all == (attempts + more) + all[|attempts + more|..];
  }

  lemma {:induction false} ContinueTells(response: Response, request: DecisionRequest, cs: seq<Candidate>,
                                         turns: seq<Turn>, last: Reply, attempts: seq<Attempt>, i: nat)
    requires |turns| == |cs|
    requires i < |Continue(response, request, cs, turns, last, attempts).sent|
    ensures var o := Continue(response, request, cs, turns, last, attempts).sent[i];
            && attempts <= o.attempts && SumsUp(o)
            && Tells(request, cs, turns, o.attempts[|attempts|..], o.finalStatus == Success)
    decreases |cs|
  {
    hide ProviderOf, SumsUp, TellsAnswer, TellsError, ReportOf, GoodAttempt, BadAttempt;
    if cs == [] {
      FailureSumsUp(response, request, attempts);
    } else {
      ContinueUnfolds(response, request, cs, turns, last, attempts);
      var o := Continue(response, request, cs, turns, last, attempts).sent[i];
      hide Continue, Tells;
      var c, t, provider := cs[0], turns[0], ProviderOf(cs[0].modelId).value;
      var good := GoodAttempt(c, provider, request);
      GoodAttemptTells(request, c, provider);
      if t.call.Caught? {
        var bad := BadAttempt(c, provider, t.call.errorClass);
        BadAttemptTells(c, provider, t.call.errorClass);
        ContinueTells(response, request, cs[1..], turns[1..], last, attempts + [bad], i);
        TailAfter(attempts, [bad], o.attempts);
        TellsMissed(request, cs, turns, bad, o.attempts[|attempts + [bad]|..], o.finalStatus == Success);
      } else if t.report.Caught? && i > 0 {
        var bad := BadAttempt(c, provider, t.report.errorClass);
        BadAttemptTells(c, provider, t.report.errorClass);
        assert attempts + [good] + [bad] == attempts + [good, bad];
        ContinueTells(response, request, cs[1..], turns[1..], last, attempts + [good, bad], i - 1);
        TailAfter(attempts, [good, bad], o.attempts);
        TellsLost(request, cs, turns, good, bad, o.attempts[|attempts + [good, bad]|..], o.finalStatus == Success);
      } else {
        SuccessSumsUp(response, request, attempts, good);
        TellsDone(request, cs, turns, good);
        assert o.attempts[|attempts|..] == [good];
      }
    }
  }

  /** Every report tells what happened, candidate by candidate and field by field, and sums it up: the time the attempts
      took, how many came before the last, and in a success report the model and cost of the last. */
  lemma ReportsTell(response: Response, request: DecisionRequest, turns: seq<Turn>, last: Reply, i: nat)
    requires |turns| == |response.decision.candidates| && i < |Invocation(response, request, turns, last).sent|
    ensures var o := Invocation(response, request, turns, last).sent[i];
            && SumsUp(o)
            && Tells(request, response.decision.candidates, turns, o.attempts, o.finalStatus == Success)
  {
    ContinueTells(response, request, response.decision.candidates, turns, last, [], i);
    var o := Invocation(response, request, turns, last).sent[i];
    assert o.attempts[0..] == o.attempts;
  }

  // ----- how an invocation ends

  /** The turn leaves the loop going: its call failed, or its report was lost. */
  predicate FallsBack(c: Candidate, t: Turn) {
    ProviderOf(c.modelId).Some? && (t.call.Caught? || (t.call.Fine? && t.report.Caught?))
  }

  function LostReports(turns: seq<Turn>): nat {
    if turns == [] then 0 else LostReports(turns[1..]) + (if turns[0].call.Fine? then 1 else 0)
  }

  /** The first turn that does not fall back decides: an answer whose report arrives is returned, anything else raises;
      if all fall back, so does the failure that is then reported. One report is made of every answer, arrived or not,
      and one of the failure. */
  lemma {:induction false} EndingLaw(response: Response, request: DecisionRequest, cs: seq<Candidate>, turns: seq<Turn>,
                                     last: Reply, attempts: seq<Attempt>, k: nat)
    requires |turns| == |cs| && k <= |cs| && forall j :: 0 <= j < k ==> FallsBack(cs[j], turns[j])
    requires k < |cs| ==> !FallsBack(cs[k], turns[k])
    ensures var session := Continue(response, request, cs, turns, last, attempts);
            var reported := k == |cs| || (ProviderOf(cs[k].modelId).Some? && turns[k].call.Fine?);
            && |session.sent| == LostReports(turns[..k]) + (if reported then 1 else 0)
            && session.ending ==
               if k == |cs| then if last == Fine then AllFailed else Raised
               else if reported && turns[k].report.Fine? then Answered(cs[k].modelId)
               else Raised
    decreases |cs|
  {
    hide ProviderOf, ReportOf, GoodAttempt, BadAttempt;
    if k > 0 {
      var c, t, provider := cs[0], turns[0], ProviderOf(cs[0].modelId).value;
      assert FallsBack(cs[0], turns[0]);
      forall j | 0 <= j < k - 1
        ensures FallsBack(cs[1..][j], turns[1..][j])
      {
        assert FallsBack(cs[j + 1], turns[j + 1]);
      }
      assert turns[..k][1..] == turns[1..][..k - 1];
      var good := attempts + [GoodAttempt(c, provider, request)];
      if t.call.Caught? {
        EndingLaw(response, request, cs[1..], turns[1..], last, attempts + [BadAttempt(c, provider, t.call.errorClass)],
                  k - 1);
      } else {
        EndingLaw(response, request, cs[1..], turns[1..], last, good + [BadAttempt(c, provider, t.report.errorClass)],
                  k - 1);
      }
    }
  }
}
