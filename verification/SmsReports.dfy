/** src/communications/sms-delivery.service.ts: provider callbacks whose read and write
    are apart, among everything else that happens to the row. When a report that has
    arrived can be lost is given exactly. */
module SmsReports {
  import opened Common
  import opened SmsDelivery

  predicate InFlight(d: Delivery) {
    !d.Ended?
  }

  /** A callback's write takes effect and ranks below the row it finds: the guard that
      let it through at its read would not let it through now. */
  predicate LowerReport(s: State, a: Action) {
    a.WriteCallback? && a.k < |s.callbacks| && StatusRank(s.callbacks[a.k].status) < StatusRank(s.row.status)
  }

  predicate Reported(status: Status) {
    status.Sent? || status.Delivered? || status.DeadLetter?
  }

  /** Until a replay is written there is one delivery at a time, in flight only while the
      row is SENDING and unknown to the provider's callbacks. */
  predicate OneDelivery(s: State) {
    && Count(s.deliveries, InFlight) <= (if s.row.status.Sending? then 1 else 0)
    && (s.row.externalId.Some? || s.callbacks != [] ==> Reported(s.row.status))
    && (forall c <- s.callbacks :: Reported(c.status))
  }

  lemma InFlightMoves(ds: seq<Delivery>, i: nat, d: Delivery)
    ensures i < |ds| ==>
      Count(ds[i := d], InFlight) + (if InFlight(ds[i]) then 1 else 0)
          == Count(ds, InFlight) + (if InFlight(d) then 1 else 0)
  {
    if i < |ds| {
      CountUpdate(ds, i, d, InFlight);
    }
  }

  lemma InFlightCounts(ds: seq<Delivery>, i: nat)
    requires i < |ds| && InFlight(ds[i])
    ensures Count(ds, InFlight) >= 1
  {
    CountUpdate(ds, i, Ended, InFlight);
  }

  predicate WritesReplay(s: State, a: Action) {
    a.WriteReplay? && s.replays > 0
  }

  /** The delivery that an action moves on, and where to. */
  function Onward(s: State, a: Action): (d: Delivery) {
    match a
    case Load(_) => Loaded(s.row.attemptCount)
    case Suppress(_, code) => Condemned(code)
    case Send(i, outcome) => if i < |s.deliveries| && s.deliveries[i].Loaded?
        then AfterSend(s.deliveries[i].attempt, outcome) else Ended
    case RecordSent(_, stored) => if stored then Ended else Condemned("unknown")
    case _ => Ended
  }

  lemma StepKeepsOneDelivery(s: State, a: Action)
    requires OneDelivery(s) && !WritesReplay(s, a)
    ensures OneDelivery(Step(s, a))
    ensures StatusRank(Step(s, a).row.status) < StatusRank(s.row.status) <==> LowerReport(s, a)
  {
    match a {
      case Claim => CountAppend(s.deliveries, Claimed, InFlight);
      case WriteCallback(_, _) =>
      case ReadCallback(_, _, _) =>
      case ReadReplay(_, _) =>
      case WriteReplay =>
      case _ =>
        var i := a.i;
        InFlightMoves(s.deliveries, i, Onward(s, a));
        if i < |s.deliveries| && InFlight(s.deliveries[i]) {
          InFlightCounts(s.deliveries, i);
        }
    }
  }

  predicate NeverFalls(s: State, actions: seq<Action>)
    decreases |actions|
  {
    actions != [] ==>
      StatusRank(s.row.status) <= StatusRank(Step(s, actions[0]).row.status)
          && NeverFalls(Step(s, actions[0]), actions[1..])
  }

  predicate NoLowerReport(s: State, actions: seq<Action>)
    decreases |actions|
  {
    actions != [] ==> !LowerReport(s, actions[0]) && NoLowerReport(Step(s, actions[0]), actions[1..])
  }

  lemma {:induction false} NeverFallsIff(s: State, actions: seq<Action>)
    requires OneDelivery(s) && Run(s, actions).replayWrites == s.replayWrites
    ensures NeverFalls(s, actions) <==> NoLowerReport(s, actions)
    ensures OneDelivery(Run(s, actions))
    decreases |actions|
  {
    if actions != [] {
      var t := Step(s, actions[0]);
      ReplayWritesGrow(t, actions[1..]);
      StepKeepsOneDelivery(s, actions[0]);
      NeverFallsIff(t, actions[1..]);
    }
  }

  /** In every interleaving without a replay write the row's rank never falls iff no
      callback is written that ranks below the row it finds at its write. */
  lemma RankNeverFallsIff(actions: seq<Action>)
    requires Run(Init(FRESH), actions).replayWrites == 0
    ensures NeverFalls(Init(FRESH), actions) <==> NoLowerReport(Init(FRESH), actions)
  {
    NeverFallsIff(Init(FRESH), actions);
  }

  predicate StaysDelivered(s: State, actions: seq<Action>)
    decreases |actions|
  {
    s.row.status.Delivered? && (actions != [] ==> StaysDelivered(Step(s, actions[0]), actions[1..]))
  }

  lemma {:induction false} TopRankStays(s: State, actions: seq<Action>)
    requires s.row.status.Delivered?
    ensures StaysDelivered(s, actions) <==> NeverFalls(s, actions)
    decreases |actions|
  {
    if actions != [] {
      if Step(s, actions[0]).row.status.Delivered? {
        TopRankStays(Step(s, actions[0]), actions[1..]);
      }
    }
  }

  /** A row that has become DELIVERED, in any interleaving, stays so through any further
      one without a replay write iff no callback of a lower status is written into it. */
  lemma DeliveredStaysIff(actions: seq<Action>, more: seq<Action>)
    requires Run(Init(FRESH), actions).row.status.Delivered?
    requires Run(Run(Init(FRESH), actions), more).replayWrites == 0
    ensures var s := Run(Init(FRESH), actions);
      StaysDelivered(s, more) <==> NoLowerReport(s, more)
  {
    var s := Run(Init(FRESH), actions);
    ReplayWritesGrow(s, more);
    NeverFallsIff(Init(FRESH), actions);
    NeverFallsIff(s, more);
    TopRankStays(s, more);
  }

  /** With replays in play, every way a DELIVERED row can change: a lower report, a
      replay that read the row when it was dead-lettered, or a delivery still in flight
      that records its end. */
  lemma DeliveredChangesIff(s: State, a: Action)
    requires s.row.status.Delivered?
    ensures !Step(s, a).row.status.Delivered? <==>
      || LowerReport(s, a)
      || WritesReplay(s, a)
      || (a.RecordSent? && a.stored && a.i < |s.deliveries| && s.deliveries[a.i].Landed?)
      || (a.RecordFailed? && a.i < |s.deliveries| && s.deliveries[a.i].Retryable?)
      || (a.RecordDead? && a.i < |s.deliveries| && s.deliveries[a.i].Condemned?)
  {
  }
}
