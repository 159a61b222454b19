/**
 * What the governor keeps when its callers always present the same declarations: every queue stays
 * within its own service's limit, and no poll of an enabled service refuses. Callers need no discipline.
 */
module FixedDeclarations {
  import opened CapabilityServiceGovernor
  import opened GovernorRuns

  /** The declarations the operation presents, if it presents any, are these. */
  predicate Presents(op: Op, services: Services) {
    match op
    case Submit(look, _) => look.services == services
    case Poll(look) => look.services == services
    case Sweep(swept, _) => swept == services
    case _ => true
  }

  ghost predicate RoomyAt(state: Runtime, services: Services, s: string) {
    && (state.phase == Unavailable ==> state.queue == [])
    && (Enabled(services, s) ==> |state.queue| <= Limit(services.info[s]))
  }

  /** Every queue is within the limit declared for its own service, and nothing waits for an unavailable one. */
  ghost predicate Roomy(rts: Runtimes, services: Services) {
    forall s :: RoomyAt(At(rts, s), services, s)
  }

  lemma AnswerKeepsRoomy(rts: Runtimes, after: Runtimes, look: Look, r: string, d: Decision)
    requires Roomy(rts, look.services) && Answered(rts, after, look, r, d)
    ensures Roomy(after, look.services)
  {
    forall s ensures RoomyAt(At(after, s), look.services, s) {
      assert RoomyAt(At(rts, s), look.services, s);
    }
  }

  lemma PollKeepsRoomy(rts: Runtimes, after: Runtimes, look: Look, d: Decision)
    requires Roomy(rts, look.services) && PollAnswered(rts, after, look, d)
    ensures Roomy(after, look.services)
  {
    var was := At(rts, look.serviceID);
    if was.queue == [] {
      forall s ensures RoomyAt(At(after, s), look.services, s) {
        assert RoomyAt(At(rts, s), look.services, s);
      }
    } else {
      PopKeepsRoomy(rts, look.services, look.serviceID);
      AnswerKeepsRoomy(Popped(rts, look.serviceID), after, look, was.queue[0], d);
    }
  }

  lemma PopKeepsRoomy(rts: Runtimes, services: Services, s: string)
    requires Roomy(rts, services) && At(rts, s).queue != []
    ensures Roomy(Popped(rts, s), services)
  {
    forall t ensures RoomyAt(At(Popped(rts, s), t), services, t) {
      assert RoomyAt(At(rts, t), services, t);
    }
  }

  lemma OthersKeepRoomy(rts: Runtimes, locale: Locale, op: Op, services: Services)
    requires Roomy(rts, services) && !op.Submit? && !op.Poll? && !op.Sweep?
    ensures Roomy(Step(rts, locale, op).0, services)
  {
    var after := Step(rts, locale, op).0;
    forall s ensures RoomyAt(At(after, s), services, s) {
      assert RoomyAt(At(rts, s), services, s);
    }
  }

  /** No operation that presents these declarations takes a queue beyond its service's limit. */
  lemma StepKeepsRoomy(rts: Runtimes, locale: Locale, op: Op, services: Services)
    requires Roomy(rts, services) && Presents(op, services)
    ensures Roomy(Step(rts, locale, op).0, services)
  {
    var after := Step(rts, locale, op).0;
    match op
    case Submit(look, r) =>
      RequestAnswered(rts, locale.collate, look, r);
      AnswerKeepsRoomy(rts, after, look, r, RequestStep(rts, locale.collate, look, r).1);
    case Poll(look) =>
      PollIsAnswered(rts, locale.collate, look);
      PollKeepsRoomy(rts, after, look, PollStep(rts, locale.collate, look).1);
    case Sweep(swept, now) =>
      SweepEffect(rts, locale, swept, now);
      forall s ensures RoomyAt(At(after, s), services, s) {
        assert RoomyAt(At(rts, s), services, s);
      }
    case _ => OthersKeepRoomy(rts, locale, op, services);
  }

  lemma {:induction false} RunKeepsRoomy(rts: Runtimes, locale: Locale, ops: seq<Op>, services: Services)
    requires Roomy(rts, services) && forall op | op in ops :: Presents(op, services)
    ensures Roomy(After(rts, locale, ops), services)
    decreases |ops|
  {
    if ops != [] {
      assert ops[0] in ops;
      StepKeepsRoomy(rts, locale, ops[0], services);
      RunKeepsRoomy(Step(rts, locale, ops[0]).0, locale, ops[1..], services);
    }
  }

  lemma RoomyPollsNeverRefuse(rts: Runtimes, collate: string -> real, look: Look)
    requires Roomy(rts, look.services) && Enabled(look.services, look.serviceID)
    ensures !PollStep(rts, collate, look).1.Refused?
  {
    PollIsAnswered(rts, collate, look);
    assert RoomyAt(At(rts, look.serviceID), look.services, look.serviceID);
  }

  /**
   * From the empty governor, after any operations whatever that present the same declarations, a poll
   * of an enabled service never refuses, at any capacity.
   */
  lemma PollsNeverRefuse(locale: Locale, ops: seq<Op>, look: Look)
    requires Enabled(look.services, look.serviceID) && forall op | op in ops :: Presents(op, look.services)
    ensures !PollStep(After(map[], locale, ops), locale.collate, look).1.Refused?
  {
    assert Roomy(map[], look.services) by {
      forall s ensures RoomyAt(At(map[], s), look.services, s) {
      }
    }
    RunKeepsRoomy(map[], locale, ops, look.services);
    RoomyPollsNeverRefuse(After(map[], locale, ops), locale.collate, look);
  }
}
