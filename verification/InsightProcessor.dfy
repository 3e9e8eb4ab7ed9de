/** What the insight worker does with one claimed window (v11/insight/internal/app/processor.go): analyse,
    check the evidence, fall back to rules, save, complete or release. */
module InsightProcessor {
  import opened Wrappers

  type EventId = string
  datatype Ref = Ref(roomId: string, start: int, end: int)
  datatype Window = Window(events: seq<EventId>)

  // A topic, question or alert with the events it cites.
  datatype Finding = Finding(text: string, evidence: seq<EventId>)
  datatype Semantic = Semantic(
    summary: string, tone: string, sentimentEvidence: seq<EventId>,
    topics: seq<Finding>, questions: seq<Finding>, alerts: seq<Finding>)
  datatype Analysis = Analysis(rules: nat, semantic: Semantic, model: string)

  datatype Flaw = InSentiment | InTopic | InQuestion | InAlert

  // Why the insight is degraded.
  datatype Reason = Sound | AnalyzerFailed | Ungrounded(flaw: Flaw)

  datatype Status = Normal | Degraded
  datatype Insight = Insight(ref: Ref, status: Status, rules: nat, semantic: Semantic, model: string, reason: Reason)

  const NEUTRAL := Semantic("", "neutral", [], [], [], [])
  const RULE_MODEL := "rule"


  // Evidence is some events, all of them from the window.
  predicate Cites(evidence: seq<EventId>, events: seq<EventId>) {
    evidence != [] && forall i :: 0 <= i < |evidence| ==> evidence[i] in events
  }

  predicate AllCite(findings: seq<Finding>, events: seq<EventId>) {
    forall i :: 0 <= i < |findings| ==> Cites(findings[i].evidence, events)
  }

  predicate Grounded(semantic: Semantic, events: seq<EventId>) {
    && Cites(semantic.sentimentEvidence, events)
    && AllCite(semantic.topics, events) && AllCite(semantic.questions, events) && AllCite(semantic.alerts, events)
  }

  // The kinds are checked in this order, and the first that is wrong is reported.
  function FirstFlaw(semantic: Semantic, events: seq<EventId>): (flaw: Option<Flaw>)
    ensures flaw.None? <==> Grounded(semantic, events)
    ensures flaw == Some(InSentiment) <==> !Cites(semantic.sentimentEvidence, events)
    ensures flaw == Some(InTopic) ==> !AllCite(semantic.topics, events)
    ensures flaw == Some(InQuestion) ==> !AllCite(semantic.questions, events) && AllCite(semantic.topics, events)
    ensures flaw == Some(InAlert) ==> AllCite(semantic.topics, events) && AllCite(semantic.questions, events)
  {
    if !Cites(semantic.sentimentEvidence, events) then Some(InSentiment)
    else if !AllCite(semantic.topics, events) then Some(InTopic)
    else if !AllCite(semantic.questions, events) then Some(InQuestion)
    else if !AllCite(semantic.alerts, events) then Some(InAlert)
    else None
  }

  method ValidEvidenceIds(ids: seq<EventId>, allowed: set<EventId>, ghost events: seq<EventId>) returns (ok: bool)
    requires forall e :: e in allowed <==> e in events
    ensures ok == Cites(ids, events)
  {
    if |ids| == 0 {
      return false;
    }
    for i := 0 to |ids|
      invariant forall k :: 0 <= k < i ==> ids[k] in events
    {
      if ids[i] !in allowed {
        return false;
      }
    }
    return true;
  }

  method ValidFindings(findings: seq<Finding>, allowed: set<EventId>, ghost events: seq<EventId>) returns (ok: bool)
    requires forall e :: e in allowed <==> e in events
    ensures ok == AllCite(findings, events)
  {
    for i := 0 to |findings|
      invariant AllCite(findings[..i], events)
    {
      assert findings[..i + 1][i] == findings[i];
      var valid := ValidEvidenceIds(findings[i].evidence, allowed, events);
      if !valid {
        return false;
      }
      assert findings[..i + 1] == findings[..i] + [findings[i]];
    }
    assert findings[..|findings|] == findings;
    return true;
  }

  method ValidatePrimaryEvidence(window: Window, semantic: Semantic) returns (flaw: Option<Flaw>)
    ensures flaw == FirstFlaw(semantic, window.events)
  {
    var allowed: set<EventId> := {};
    for i := 0 to |window.events|
      invariant forall e :: e in allowed <==> e in window.events[..i]
    {
      assert window.events[..i + 1] == window.events[..i] + [window.events[i]];
      allowed := allowed + {window.events[i]};
    }
    assert window.events[..|window.events|] == window.events;
    var ok := ValidEvidenceIds(semantic.sentimentEvidence, allowed, window.events);
    if !ok {
      return Some(InSentiment);
    }
    ok := ValidFindings(semantic.topics, allowed, window.events);
    if !ok {
      return Some(InTopic);
    }
    ok := ValidFindings(semantic.questions, allowed, window.events);
    if !ok {
      return Some(InQuestion);
    }
    ok := ValidFindings(semantic.alerts, allowed, window.events);
    return if ok then None else Some(InAlert);
  }

  // -------- one window --------

  // What the store, the analyzers and the repository answer if they are asked.
  datatype Answers = Answers(
    load: Option<Window>, primary: Option<Analysis>, fallback: Option<Analysis>,
    saves: bool, completes: bool, releases: bool)

  datatype Call = Save(insight: Insight, ok: bool) | Complete(ref: Ref, ok: bool) | Release(ref: Ref, ok: bool)

  datatype Outcome = Completed | Degrades | Failed
  datatype Result = Result(outcome: Outcome, error: bool)

  function WhyDegraded(primary: Option<Analysis>, events: seq<EventId>): Reason {
    if primary.None? then AnalyzerFailed
    else
      var flaw := FirstFlaw(primary.value.semantic, events);
      if flaw.Some? then Ungrounded(flaw.value) else Sound
  }

  // The insight there is to save, if any.
  function Conclude(ref: Ref, a: Answers): Option<Insight> {
    if a.load.None? then None
    else
      var sound := a.primary.Some? && FirstFlaw(a.primary.value.semantic, a.load.value.events).None?;
      if sound then
        Some(Insight(ref, Normal, a.primary.value.rules, a.primary.value.semantic, a.primary.value.model, Sound))
      else if a.fallback.None? then None
      else
        Some(Insight(ref, Degraded, a.fallback.value.rules, NEUTRAL, RULE_MODEL,
                     WhyDegraded(a.primary, a.load.value.events)))
  }

  function Calls(ref: Ref, a: Answers): seq<Call> {
    var insight := Conclude(ref, a);
    if insight.None? then [Release(ref, a.releases)]
    else if !a.saves then [Save(insight.value, false), Release(ref, a.releases)]
    else if !a.completes then [Save(insight.value, true), Complete(ref, false), Release(ref, a.releases)]
    else [Save(insight.value, true), Complete(ref, true)]
  }

  function Processed(ref: Ref, a: Answers): Result {
    var insight := Conclude(ref, a);
    if insight.None? || !a.saves || !a.completes then Result(Failed, !a.releases)
    else Result(if insight.value.status == Normal then Completed else Degrades, false)
  }

  predicate Ends(call: Call, ref: Ref) {
    call == Complete(ref, true) || (call.Release? && call.ref == ref)
  }

  /** The window ends in exactly one way: the last call, and no other, is a successful Complete or is a
      Release; it is a Complete exactly if the result is not a failure, and comes right after a successful Save. */
  lemma EndsOnce(ref: Ref, a: Answers)
    ensures var calls := Calls(ref, a);
            && calls != []
            && (forall i :: 0 <= i < |calls| ==> (Ends(calls[i], ref) <==> i == |calls| - 1))
            && (calls[|calls| - 1].Complete? <==> Processed(ref, a).outcome != Failed)
            && (calls[|calls| - 1] == Release(ref, false) <==> Processed(ref, a).error)
    ensures forall i :: 0 <= i < |Calls(ref, a)| ==> Told(Calls(ref, a)[i], ref, a)
    ensures forall i :: 0 <= i < |Calls(ref, a)| && Calls(ref, a)[i].Complete? ==>
              i == 1 && Calls(ref, a)[0].Save? && Calls(ref, a)[0].ok
    ensures (exists i :: 0 <= i < |Calls(ref, a)| && Calls(ref, a)[i].Save? && Calls(ref, a)[i].ok) <==>
              && a.load.Some? && a.saves
              && (a.fallback.Some? || (a.primary.Some? && Grounded(a.primary.value.semantic, a.load.value.events)))
  {
    WhatIsSaved(ref, a);
  }

  // A call is about this window and is answered as it is.
  predicate Told(call: Call, ref: Ref, a: Answers) {
    match call
    case Save(insight, ok) => insight.ref == ref && ok == a.saves
    case Complete(r, ok) => r == ref && ok == a.completes
    case Release(r, ok) => r == ref && ok == a.releases
  }

  /** What is saved: as normal the whole of the primary analysis, all of whose evidence is of the window; as
      degraded the rules of the fallback with nothing else, and why. Nothing is saved only if there is neither. */
  lemma WhatIsSaved(ref: Ref, a: Answers)
    ensures (exists i :: 0 <= i < |Calls(ref, a)| && Calls(ref, a)[i].Save?) <==>
              && a.load.Some?
              && (a.fallback.Some? || (a.primary.Some? && Grounded(a.primary.value.semantic, a.load.value.events)))
    ensures forall i :: 0 <= i < |Calls(ref, a)| && Calls(ref, a)[i].Save? ==>
              var insight := Calls(ref, a)[i].insight;
              && a.load.Some?
              && (insight.status == Normal ==>
                    && a.primary.Some? && Grounded(insight.semantic, a.load.value.events)
                    && a.primary.value == Analysis(insight.rules, insight.semantic, insight.model)
                    && insight.reason == Sound)
              && (insight.status == Degraded ==>
                    && a.fallback.Some? && insight.rules == a.fallback.value.rules && insight.model == "rule"
                    && insight.semantic == Semantic("", "neutral", [], [], [], [])
                    && (a.primary.None? ==> insight.reason == AnalyzerFailed)
                    && (a.primary.Some? ==>
                          && insight.reason.Ungrounded?
                          && Some(insight.reason.flaw) == FirstFlaw(a.primary.value.semantic, a.load.value.events)))
  {
    if Conclude(ref, a).Some? {
      assert Calls(ref, a)[0].Save?;
    }
  }

  // Whether the insight is normal or degraded is decided by the primary analyzer alone.
  lemma NormalIff(ref: Ref, a: Answers)
    ensures Processed(ref, a).outcome == Completed <==>
              && a.load.Some? && a.primary.Some? && Grounded(a.primary.value.semantic, a.load.value.events)
              && a.saves && a.completes
    ensures Processed(ref, a).outcome == Degrades <==>
              && a.load.Some? && a.fallback.Some? && a.saves && a.completes
              && (a.primary.Some? ==> !Grounded(a.primary.value.semantic, a.load.value.events))
  {
  }

  // The store, the analyzers and the repository as one worker meets them.
  class Processor {
    var calls: seq<Call>

    constructor ()
      ensures calls == []
    {
      calls := [];
    }

    method FailedWindow(ref: Ref, a: Answers) returns (result: Result)
      modifies this
      ensures calls == old(calls) + [Release(ref, a.releases)] && result == Result(Failed, !a.releases)
    {
      calls := calls + [Release(ref, a.releases)];
      result := Result(Failed, !a.releases);
    }

    method ProcessWindow(ref: Ref, a: Answers) returns (result: Result)
      modifies this
      ensures calls == old(calls) + Calls(ref, a) && result == Processed(ref, a)
    {
      if a.load.None? {
        result := FailedWindow(ref, a);
        return;
      }
      var flaw: Option<Flaw> := None;
      if a.primary.Some? {
        flaw := ValidatePrimaryEvidence(a.load.value, a.primary.value.semantic);
      }
      var insight;
      if a.primary.Some? && flaw.None? {
        insight := Insight(ref, Normal, a.primary.value.rules, a.primary.value.semantic, a.primary.value.model,
                           Sound);
      } else {
        if a.fallback.None? {
          result := FailedWindow(ref, a);
          return;
        }
        insight := Insight(ref, Degraded, a.fallback.value.rules, NEUTRAL, RULE_MODEL,
                           if flaw.Some? then Ungrounded(flaw.value) else AnalyzerFailed);
      }
      calls := calls + [Save(insight, a.saves)];
      if !a.saves {
        result := FailedWindow(ref, a);
        return;
      }
      calls := calls + [Complete(ref, a.completes)];
      if !a.completes {
        result := FailedWindow(ref, a);
        return;
      }
      result := Result(if insight.status == Degraded then Degrades else Completed, false);
    }
  }
}
