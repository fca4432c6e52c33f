/** src/jobs/dispatch-board.service.ts: scoring, ranking and recommending
    technicians, and which assignments are admitted. */
module DispatchBoard {
  import opened Common
  import opened Sorting
  import opened PaymentGate
  import Routing

  const OVERRIDE_REASON_MIN_LENGTH: nat := 10

  datatype Proficiency = Junior | Standard | Expert
  datatype BlockType = Unavailable | AvailableOverride

  /** A user row with the capability and the availability blocks the query joins. */
  datatype User = User(
    id: string,
    fullName: string,
    isAvailable: bool,
    isOnCall: bool,
    capability: Option<Proficiency>,
    blocks: seq<BlockType>,
    activeJobs: nat)

  datatype Reason =
    | ServiceMatch | MissingServiceCapability | ExpertMatch
    | Available | MarkedUnavailable
    | OnCall | NotOnCall
    | ServiceAreaAllowed | ServiceAreaBlocked
    | NoScheduleConflict | ScheduleConflict
    | LowActiveWorkload | PaymentGateLocked

  datatype Candidate = Candidate(
    userId: string, fullName: string, available: bool, onCall: bool,
    eligible: bool, reasonCodes: seq<Reason>, score: int)

  /** What the ranking reads of the job. */
  datatype Context = Context(urgent: bool, routing: Routing.Evaluation, gate: GateState)

  /** localeCompare: names compare by weight, possibly tied; ids by distinct weights. */
  datatype Collation = Collation(name: string -> int, id: string -> int)

  predicate IsUnavailable(user: User) {
    Unavailable in user.blocks
  }

  predicate IsFree(user: User) {
    (user.isAvailable || AvailableOverride in user.blocks) && !IsUnavailable(user)
  }

  predicate Eligible(user: User, context: Context) {
    && user.capability.Some?
    && context.routing.covered
    && (!context.routing.requireAvailable || (IsFree(user) && !IsUnavailable(user)))
    && (!context.routing.requireOnCall || user.isOnCall)
    && !context.gate.Locked?
  }

  function When(condition: bool, reason: Reason): seq<Reason> {
    if condition then [reason] else []
  }

  function ReasonCodes(user: User, context: Context): seq<Reason> {
    [if user.capability.Some? then ServiceMatch else MissingServiceCapability]
    + When(user.capability == Some(Expert), ExpertMatch)
    + [if IsFree(user) then Available else MarkedUnavailable]
    + When(user.isOnCall, OnCall)
    + When(!user.isOnCall && context.routing.requireOnCall, NotOnCall)
    + [if context.routing.covered then ServiceAreaAllowed else ServiceAreaBlocked]
    + [if IsUnavailable(user) then ScheduleConflict else NoScheduleConflict]
    + When(user.activeJobs <= 2, LowActiveWorkload)
    + When(context.gate.Locked?, PaymentGateLocked)
  }

  function Score(user: User, context: Context): int {
    (match user.capability case Some(Expert) => 30 case Some(Standard) => 20 case Some(Junior) => 10 case None => 0)
    + (if IsFree(user) then 25 else 0)
    + (if IsUnavailable(user) then 0 else 20)
    + Max(0, 20 - user.activeJobs * 4)
    + (if context.urgent && user.capability == Some(Expert) then 10 else 0)
  }

  function CandidateOf(user: User, context: Context): Candidate {
    Candidate(user.id, user.fullName, IsFree(user), user.isOnCall,
              Eligible(user, context), ReasonCodes(user, context), Score(user, context))
  }

  function CandidateIn(context: Context): User -> Candidate {
    (user: User) => CandidateOf(user, context)
  }

  /** Eligible first, then the higher score, then name, then id. */
  function RankOrder(collation: Collation): Candidate -> Key {
    (c: Candidate) => [if c.eligible then 0 else 1, -c.score, collation.name(c.fullName), collation.id(c.userId)]
  }

  function Ranked(users: seq<User>, context: Context, collation: Collation): seq<Candidate> {
    Sort(Map(users, CandidateIn(context)), RankOrder(collation))
  }

  predicate IsEligible(c: Candidate) {
    c.eligible
  }

  function Recommend(candidates: seq<Candidate>): Option<Candidate> {
    Find(candidates, IsEligible)
  }

  // ----- eligibility -----

  /** The codes that keep a candidate from being eligible. */
  predicate Blocks(reason: Reason, context: Context) {
    || reason.MissingServiceCapability? || reason.ServiceAreaBlocked? || reason.PaymentGateLocked? || reason.NotOnCall?
    || (reason.MarkedUnavailable? && context.routing.requireAvailable)
  }

  lemma EligibleIffNothingBlocks(user: User, context: Context)
    ensures var c := CandidateOf(user, context);
      c.eligible <==> forall reason <- c.reasonCodes :: !Blocks(reason, context)
  {
    var codes := ReasonCodes(user, context);
    assert MissingServiceCapability in codes <==> user.capability.None?;
    assert MarkedUnavailable in codes <==> !IsFree(user);
    assert ServiceAreaBlocked in codes <==> !context.routing.covered;
    assert NotOnCall in codes <==> !user.isOnCall && context.routing.requireOnCall;
    assert PaymentGateLocked in codes <==> context.gate.Locked?;
  }

  // ----- the ranking -----

  /** User ids are primary keys and collate apart. */
  ghost predicate DistinctUsers(users: seq<User>, collation: Collation) {
    forall i, j | 0 <= i < j < |users| :: collation.id(users[i].id) != collation.id(users[j].id)
  }

  lemma CandidatesAreDistinct(users: seq<User>, context: Context, collation: Collation)
    requires DistinctUsers(users, collation)
    ensures DistinctKeys(Map(users, CandidateIn(context)), RankOrder(collation))
  {
    MapHolds(users, CandidateIn(context));
    var cs, order := Map(users, CandidateIn(context)), RankOrder(collation);
    forall i, j | 0 <= i < j < |cs|
      ensures order(cs[i]) != order(cs[j])
    {
      assert order(cs[i])[3] == collation.id(users[i].id) && order(cs[j])[3] == collation.id(users[j].id);
    }
  }

  /** The ranked list does not depend on the order in which the query returns the
      users, and each candidate is ranked strictly above the next. */
  lemma RankingIgnoresRowOrder(users: seq<User>, others: seq<User>, context: Context, collation: Collation)
    requires DistinctUsers(users, collation) && DistinctUsers(others, collation)
    requires multiset(users) == multiset(others)
    ensures Ranked(users, context, collation) == Ranked(others, context, collation)
    ensures Ascending(Ranked(users, context, collation), RankOrder(collation))
  {
    CandidatesAreDistinct(users, context, collation);
    CandidatesAreDistinct(others, context, collation);
    MapPermutes(users, others, CandidateIn(context));
    SortIgnoresOrder(Map(users, CandidateIn(context)), Map(others, CandidateIn(context)), RankOrder(collation));
    SortAscends(Map(users, CandidateIn(context)), RankOrder(collation));
  }

  /** The recommendation is the one eligible candidate ranked above every other
      eligible one, and there is none exactly when nobody is eligible. */
  lemma RecommendationIsTheBest(users: seq<User>, context: Context, collation: Collation)
    requires DistinctUsers(users, collation)
    ensures var ranked := Ranked(users, context, collation);
      var best := Recommend(ranked);
      && (best.None? <==> forall user <- users :: !Eligible(user, context))
      && (best.Some? ==>
            && best.value in ranked && best.value.eligible
            && forall c <- ranked :: c.eligible && c != best.value
                ==> Less(RankOrder(collation)(best.value), RankOrder(collation)(c)))
  {
    RankedHolds(users, context, collation);
    FindIsLeast(Ranked(users, context, collation), RankOrder(collation), IsEligible);
  }

  /** The ranked list holds each user's candidate, and only those, in order. */
  lemma RankedHolds(users: seq<User>, context: Context, collation: Collation)
    requires DistinctUsers(users, collation)
    ensures var ranked := Ranked(users, context, collation);
      && Ascending(ranked, RankOrder(collation))
      && (forall c <- ranked :: exists user <- users :: c == CandidateOf(user, context))
      && (forall user <- users :: CandidateOf(user, context) in ranked)
  {
    var cs := Map(users, CandidateIn(context));
    CandidatesAreDistinct(users, context, collation);
    SortAscends(cs, RankOrder(collation));
    SortHolds(cs, RankOrder(collation));
    MapMembers(users, CandidateIn(context));
  }

  /** The map and sort of `candidates`, run over the rows. */
  method RankCandidates(users: seq<User>, context: Context, collation: Collation) returns (ranked: seq<Candidate>)
    ensures ranked == Ranked(users, context, collation)
  {
    ranked := [];
    for i := |users| downto 0
      invariant ranked == Ranked(users[i..], context, collation)
    {
      assert users[i..][1..] == users[i + 1..];
      ranked := Insert(CandidateOf(users[i], context), ranked, RankOrder(collation));
    }
  }

  // ----- admitting an assignment -----

  datatype Admission = Refused | Admitted(override: bool, recommended: Option<string>)

  function Collapse(s: string): string {
    if s == "" then ""
    else if !IsSpace(s[0]) then [s[0]] + Collapse(s[1..])
    else if |s| > 1 && IsSpace(s[1]) then Collapse(s[1..])
    else " " + Collapse(s[1..])
  }

  /** reason?.replace(/\s+/g, " ").trim(), and its length against the minimum. */
  predicate GoodReason(reason: Option<string>) {
    reason.Some? && |Trim(Collapse(reason.value))| >= OVERRIDE_REASON_MIN_LENGTH
  }

  function Selects(technicianId: string): Candidate -> bool {
    (c: Candidate) => c.userId == technicianId
  }

  function Admit(ranked: seq<Candidate>, context: Context, holder: Option<string>, technicianId: string,
                 reason: Option<string>): Admission
  {
    if context.gate.Locked? then Refused
    else
      var selected := Find(ranked, Selects(technicianId));
      if selected.None? then Refused
      else
        var best := Recommend(ranked);
        var override := !selected.value.eligible || best.None? || best.value.userId != selected.value.userId;
        if (holder.Some? || override) && !GoodReason(reason) then Refused
        else Admitted(override, if best.Some? then Some(best.value.userId) else None)
  }

  /** An assignment is admitted iff the gate is not locked, the technician is
      among the candidates, and either a reason of ten characters is given or the
      job is unassigned and the technician is the recommended one. */
  lemma AdmittedIff(users: seq<User>, context: Context, collation: Collation, holder: Option<string>,
                    technicianId: string, reason: Option<string>)
    requires DistinctUsers(users, collation)
    ensures var ranked := Ranked(users, context, collation);
      Admit(ranked, context, holder, technicianId, reason).Admitted? <==>
        && !context.gate.Locked?
        && (exists user <- users :: user.id == technicianId)
        && (GoodReason(reason)
            || (holder.None? && Recommend(ranked).Some? && Recommend(ranked).value.userId == technicianId))
  {
    var ranked := Ranked(users, context, collation);
    RankedHolds(users, context, collation);
    FindIsLeast(ranked, RankOrder(collation), Selects(technicianId));
    FindIsLeast(ranked, RankOrder(collation), IsEligible);
    var selected, best := Find(ranked, Selects(technicianId)), Recommend(ranked);
    if selected.Some? && best.Some? && best.value.userId == technicianId {
      OneCandidateAnId(users, context, collation, selected.value, best.value);
    }
  }

  lemma OneCandidateAnId(users: seq<User>, context: Context, collation: Collation, c: Candidate, d: Candidate)
    requires DistinctUsers(users, collation)
    requires c in Ranked(users, context, collation) && d in Ranked(users, context, collation) && c.userId == d.userId
    ensures c == d
  {
    RankedHolds(users, context, collation);
    var u :| u in users && c == CandidateOf(u, context);
    var v :| v in users && d == CandidateOf(v, context);
    var i :| 0 <= i < |users| && users[i] == u;
    var j :| 0 <= j < |users| && users[j] == v;
    assert collation.id(users[i].id) == collation.id(users[j].id);
  }

  /** Outside coverage nobody is eligible, so every admitted assignment is an
      override and carries a reason; behind a locked gate none is admitted. */
  lemma UncoveredNeedsReason(users: seq<User>, context: Context, collation: Collation, holder: Option<string>,
                             technicianId: string, reason: Option<string>)
    requires DistinctUsers(users, collation)
    ensures var ranked := Ranked(users, context, collation);
      var admission := Admit(ranked, context, holder, technicianId, reason);
      && (!context.routing.covered || context.gate.Locked? ==> forall c <- ranked :: !c.eligible)
      && (admission.Admitted? && !context.routing.covered ==> admission.override && GoodReason(reason))
      && (context.gate.Locked? ==> admission.Refused?)
  {
    RankedHolds(users, context, collation);
    RecommendationIsTheBest(users, context, collation);
  }
}
