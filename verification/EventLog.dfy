/** The webhook event log: deduplication, attempts and the dead-letter queue, over every run. */
module EventLog {
  import opened Domain
  import opened Ledger
  import opened Machine

  /** The step delivers event e and its handler takes effect. */
  ghost predicate Applies(s: State, step: Step, e: Id) {
    step.Webhook? && step.event == e && !AlreadyProcessed(s, e) && Process(s, step.body).Done?
  }

  /** The step delivers event e and its handler raises. */
  ghost predicate Fails(s: State, step: Step, e: Id) {
    step.Webhook? && step.event == e && !AlreadyProcessed(s, e) && Process(s, step.body).Raised?
  }

  ghost function Applications(s: State, steps: seq<Step>, e: Id): nat
    decreases |steps|
  {
    if steps == [] then 0
    else (if Applies(s, steps[0], e) then 1 else 0) + Applications(Next(s, steps[0]), steps[1..], e)
  }

  ghost function Failures(s: State, steps: seq<Step>, e: Id): nat
    decreases |steps|
  {
    if steps == [] then 0
    else (if Fails(s, steps[0], e) then 1 else 0) + Failures(Next(s, steps[0]), steps[1..], e)
  }

  lemma {:induction false} SweepKeepsRecords(s: State, rows: seq<Id>, now: int, answers: map<Id, OrderAnswer>)
    ensures SweepRows(s, rows, now, answers).events == s.events
    decreases |rows|
  {
    if rows != [] {
      SweepKeepsRecords(s, rows[..|rows| - 1], now, answers);
    }
  }

  lemma RequestKeepsRecords(s: State, o: Id, req: OpRequest, now: int, rateOk: bool, answer: GatewayAnswer)
    ensures Request(s, o, req, now, rateOk, answer).events == s.events
  {
    ExecuteKeepsRecords(Reserve(Insert(s, o, req, now), o), o, answer);
  }

  lemma ApproveKeepsRecords(s: State, o: Id, approver: Id, approved: bool, answer: GatewayAnswer)
    ensures Approve(s, o, approver, approved, answer).events == s.events
  {
    if o in s.ops {
      ExecuteKeepsRecords(Reserve(Signed(s, o, approver), o), o, answer);
    }
  }

  /** Only webhook deliveries touch the event records. */
  lemma OtherStepsKeepRecords(s: State, step: Step)
    requires !step.Webhook?
    ensures Next(s, step).events == s.events
  {
    match step
    case RequestOperation(o, req, now, rateOk, answer) => RequestKeepsRecords(s, o, req, now, rateOk, answer);
    case ApproveOperation(o, approver, approved, answer) => ApproveKeepsRecords(s, o, approver, approved, answer);
    case RunSweep(rows, now, timeout, answers) => SweepKeepsRecords(s, rows, now, answers);
    case _ =>
  }

  /** Only deliveries of e touch the record of e. */
  lemma RecordFrame(s: State, step: Step, e: Id)
    requires !Applies(s, step, e) && !Fails(s, step, e)
    ensures e in Next(s, step).events <==> e in s.events
    ensures e in s.events ==> Next(s, step).events[e] == s.events[e]
  {
    if step.Webhook? {
      ProcessKeepsRecords(s, step.body);
    } else {
      OtherStepsKeepRecords(s, step);
    }
  }

  /** PROCESSED absorbs: over any run the record of a processed event never changes and the event never applies again. */
  lemma {:induction false} ProcessedAbsorbs(s: State, steps: seq<Step>, e: Id)
    requires AlreadyProcessed(s, e)
    ensures AlreadyProcessed(Run(s, steps), e) && Run(s, steps).events[e] == s.events[e]
    ensures Applications(s, steps, e) == 0
    decreases |steps|
  {
    if steps != [] {
      RecordFrame(s, steps[0], e);
      ProcessedAbsorbs(Next(s, steps[0]), steps[1..], e);
    }
  }

  /** Over any run, an event takes effect at most once. */
  lemma {:induction false} AppliedAtMostOnce(s: State, steps: seq<Step>, e: Id)
    ensures Applications(s, steps, e) <= 1
    decreases |steps|
  {
    if steps != [] {
      if Applies(s, steps[0], e) {
        ProcessedAbsorbs(Next(s, steps[0]), steps[1..], e);
      } else {
        AppliedAtMostOnce(Next(s, steps[0]), steps[1..], e);
      }
    }
  }

  /** A raising handler leaves the ledger as it was, although the code commits afterwards. */
  lemma FailureTouchesOnlyTheRecord(s: State, step: Step, e: Id)
    requires Fails(s, step, e)
    ensures var t := Next(s, step);
            && t.(events := s.events) == s
            && t.events == s.events[e := t.events[e]]
            && !t.events[e].status.Processed?
            && t.events[e].attempts == (if e in s.events then s.events[e].attempts else 0) + 1
  {
  }

  /**
   * An event that has only failed so far has been attempted exactly as often as it failed, and
   * it is in the dead-letter queue exactly when the attempts reached the retry limit. Each
   * further delivery is attempted again.
   */
  lemma {:induction false} FailuresAreCounted(s: State, steps: seq<Step>, e: Id)
    requires e in s.events ==> !s.events[e].status.Processed? && s.events[e].maxRetries == DEFAULT_MAX_RETRIES
    requires e in s.events ==> (s.events[e].status.DeadLetter? <==> s.events[e].attempts >= DEFAULT_MAX_RETRIES)
    requires Applications(s, steps, e) == 0
    ensures var before := if e in s.events then s.events[e].attempts else 0;
            var k := Failures(s, steps, e);
            var t := Run(s, steps);
            && (e in t.events <==> e in s.events || k > 0)
            && (e in t.events ==>
                  && t.events[e].attempts == before + k
                  && !t.events[e].status.Processed?
                  && (t.events[e].status.DeadLetter? <==> before + k >= DEFAULT_MAX_RETRIES))
    decreases |steps|
  {
    if steps != [] {
      if !Fails(s, steps[0], e) {
        RecordFrame(s, steps[0], e);
      }
      FailuresAreCounted(Next(s, steps[0]), steps[1..], e);
    }
  }
}
