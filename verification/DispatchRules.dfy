/** src/jobs/dispatch-board.service.ts, src/jobs/routing.service.ts and
    src/payments/payment-gate.policy.ts: the scores, orders and conditions behind a
    ranking, said on the rows alone. */
module DispatchRules {
  import opened Common
  import opened Sorting
  import opened PaymentGate
  import opened DispatchBoard
  import Routing

  // ----- the gate -----

  /** Without required payment there is nothing to unlock; otherwise money received or a
      granted exception unlocks, and nothing else does. */
  lemma GateIs(policy: Policy, payment: Option<PaymentStatus>)
    ensures var gate := EvaluateGate(policy, payment);
      var required := policy.depositRequired || policy.serviceFeeRequired;
      var excepted := policy.manualOverride && policy.exceptionActive && policy.approvedAt != None
          && policy.reason != None;
      && (gate == NotRequired <==> !required)
      && (gate == Unlocked <==> required && (payment == Some(Succeeded) || excepted))
      && (gate == Locked <==> required && payment != Some(Succeeded) && !excepted)
  {
  }

  // ----- the matched rule -----

  predicate Starts(code: string, postalCode: string) {
    if |code| > 5 then code[..5] == postalCode else code == postalCode
  }

  predicate Applies(rule: Routing.Rule, job: Routing.Job) {
    && rule.active
    && (rule.category == None || rule.category == Some(job.category))
    && (rule.urgency == None || rule.urgency == Some(job.urgency))
    && (rule.timeScope == Routing.AnyTime || rule.timeScope == job.timeScope)
  }

  predicate Covers(area: Routing.Area, postalCode: Option<string>) {
    && area.active && area.isZip && postalCode.Some? && postalCode.value != ""
    && exists code <- area.postalCodes :: Starts(code, postalCode.value)
  }

  predicate Serves(rule: Routing.Rule, job: Routing.Job) {
    Applies(rule, job) && (rule.area.Some? ==> Covers(rule.area.value, job.postalCode))
  }

  predicate Before(rule: Routing.Rule, other: Routing.Rule) {
    rule.priority < other.priority || (rule.priority == other.priority && rule.id < other.id)
  }

  lemma FirstFiveStarts(code: string, postalCode: string)
    ensures Routing.FirstFive(code) == postalCode <==> Starts(code, postalCode)
  {
  }

  lemma CoversIff(area: Routing.Area, postalCode: Option<string>)
    ensures Covers(area, postalCode) <==> Routing.AreaContains(area, postalCode)
  {
    if postalCode.Some? {
      forall code <- area.postalCodes
        ensures Routing.FirstFive(code) == postalCode.value <==> Starts(code, postalCode.value)
      {
        FirstFiveStarts(code, postalCode.value);
      }
    }
  }

  lemma ServesIff(rule: Routing.Rule, job: Routing.Job)
    ensures Applies(rule, job) <==> Routing.Contends(rule, job)
    ensures Serves(rule, job) <==> Routing.Contends(rule, job) && Routing.Admits(job)(rule)
  {
    if rule.area.Some? {
      CoversIff(rule.area.value, job.postalCode);
    }
  }

  lemma BeforeIff(rule: Routing.Rule, other: Routing.Rule)
    ensures Before(rule, other) <==> Less(Routing.RuleOrder(rule), Routing.RuleOrder(other))
  {
    var a, b := Routing.RuleOrder(rule), Routing.RuleOrder(other);
    FirstCriterion(a, b);
    assert a[1..] == [rule.id] && b[1..] == [other.id];
    FirstCriterion([rule.id], [other.id]);
    assert [rule.id][1..] == [] && [other.id][1..] == [];
  }

  /** The evaluation, from the rules and the job: the first rule that serves the job, its
      own requirements, and where no rule serves, a technician who is available and no
      more. A job is covered when a rule serves it or none applies. */
  lemma EvaluationIs(rules: seq<Routing.Rule>, job: Routing.Job)
    requires Routing.DistinctIds(rules)
    ensures var e := Routing.EvaluateJob(rules, job);
      && (e.matched == None <==> forall rule <- rules :: !Serves(rule, job))
      && (e.matched.Some? ==>
            var m := e.matched.value;
            && m in rules && Serves(m, job)
            && forall rule <- rules :: rule != m && Serves(rule, job) ==> Before(m, rule))
      && (e.covered <==> e.matched.Some? || forall rule <- rules :: !Applies(rule, job))
      && (e.requireAvailable <==> (e.matched.Some? ==> e.matched.value.requireAvailable))
      && (e.requireOnCall <==> e.matched.Some? && e.matched.value.requireOnCall)
  {
    Routing.MatchGoverns(rules, job);
    forall rule <- rules
      ensures Applies(rule, job) <==> Routing.Contends(rule, job)
      ensures Serves(rule, job) <==> Routing.Contends(rule, job) && Routing.Admits(job)(rule)
    {
      ServesIff(rule, job);
    }
    var e := Routing.EvaluateJob(rules, job);
    if e.matched.Some? {
      forall rule <- rules | rule != e.matched.value && Serves(rule, job)
        ensures Before(e.matched.value, rule)
      {
        BeforeIff(e.matched.value, rule);
      }
    }
  }

  // ----- candidates -----

  /** Available on the roster or by an override, and not blocked. */
  predicate Ready(user: User) {
    (user.isAvailable || AvailableOverride in user.blocks) && Unavailable !in user.blocks
  }

  /** Who is eligible, from the user row and the job. */
  lemma CandidateIs(user: User, context: Context)
    ensures var c := CandidateOf(user, context);
      && c.userId == user.id && c.fullName == user.fullName && c.onCall == user.isOnCall
      && (c.available <==> Ready(user))
      && (c.eligible <==>
            && user.capability != None && context.routing.covered && context.gate != Locked
            && (context.routing.requireAvailable ==> Ready(user))
            && (context.routing.requireOnCall ==> user.isOnCall))
  {
  }

  lemma InThree<T>(a: seq<T>, b: seq<T>, c: seq<T>, x: T)
    ensures x in a + b + c <==> x in a || x in b || x in c
  {
  }

  lemma InNine<T>(a: seq<T>, b: seq<T>, c: seq<T>, d: seq<T>, e: seq<T>, f: seq<T>, g: seq<T>, h: seq<T>, i: seq<T>,
      x: T)
    ensures x in a + b + c + d + e + f + g + h + i <==>
      x in a || x in b || x in c || x in d || x in e || x in f || x in g || x in h || x in i
  {
    InThree(a, b, c, x);
    InThree(a + b + c, d, e, x);
    InThree(a + b + c + d + e, f, g, x);
    InThree(a + b + c + d + e + f + g, h, i, x);
  }

  lemma InWhen(condition: bool, reason: Reason, code: Reason)
    ensures code in When(condition, reason) <==> condition && code == reason
  {
  }

  function Either(condition: bool, code: Reason, other: Reason): seq<Reason> {
    [if condition then code else other]
  }

  lemma ListedIn(user: User, context: Context, code: Reason)
    ensures code in CandidateOf(user, context).reasonCodes <==>
      || code in Either(user.capability.Some?, ServiceMatch, MissingServiceCapability)
      || code in When(user.capability == Some(Expert), ExpertMatch)
      || code in Either(IsFree(user), Available, MarkedUnavailable)
      || code in When(user.isOnCall, OnCall)
      || code in When(!user.isOnCall && context.routing.requireOnCall, NotOnCall)
      || code in Either(context.routing.covered, ServiceAreaAllowed, ServiceAreaBlocked)
      || code in Either(IsUnavailable(user), ScheduleConflict, NoScheduleConflict)
      || code in When(user.activeJobs <= 2, LowActiveWorkload)
      || code in When(context.gate.Locked?, PaymentGateLocked)
  {
    InNine(Either(user.capability.Some?, ServiceMatch, MissingServiceCapability),
           When(user.capability == Some(Expert), ExpertMatch),
           Either(IsFree(user), Available, MarkedUnavailable),
           When(user.isOnCall, OnCall),
           When(!user.isOnCall && context.routing.requireOnCall, NotOnCall),
           Either(context.routing.covered, ServiceAreaAllowed, ServiceAreaBlocked),
           Either(IsUnavailable(user), ScheduleConflict, NoScheduleConflict),
           When(user.activeJobs <= 2, LowActiveWorkload),
           When(context.gate.Locked?, PaymentGateLocked), code);
  }

  lemma InEither(condition: bool, code: Reason, other: Reason, x: Reason)
    ensures x in Either(condition, code, other) <==> x == if condition then code else other
  {
  }

  /** A code is listed when one of the nine places lists it. */
  lemma Listed(user: User, context: Context, code: Reason)
    ensures code in CandidateOf(user, context).reasonCodes <==>
      || code == (if user.capability.Some? then ServiceMatch else MissingServiceCapability)
      || (code == ExpertMatch && user.capability == Some(Expert))
      || code == (if Ready(user) then Available else MarkedUnavailable)
      || (code == OnCall && user.isOnCall)
      || (code == NotOnCall && !user.isOnCall && context.routing.requireOnCall)
      || code == (if context.routing.covered then ServiceAreaAllowed else ServiceAreaBlocked)
      || code == (if Unavailable in user.blocks then ScheduleConflict else NoScheduleConflict)
      || (code == LowActiveWorkload && user.activeJobs <= 2)
      || (code == PaymentGateLocked && context.gate == Locked)
  {
    ListedIn(user, context, code);
    InEither(user.capability.Some?, ServiceMatch, MissingServiceCapability, code);
    InEither(IsFree(user), Available, MarkedUnavailable, code);
    InEither(context.routing.covered, ServiceAreaAllowed, ServiceAreaBlocked, code);
    InEither(IsUnavailable(user), ScheduleConflict, NoScheduleConflict, code);
    InWhen(user.capability == Some(Expert), ExpertMatch, code);
    InWhen(user.isOnCall, OnCall, code);
    InWhen(!user.isOnCall && context.routing.requireOnCall, NotOnCall, code);
    InWhen(user.activeJobs <= 2, LowActiveWorkload, code);
    InWhen(context.gate.Locked?, PaymentGateLocked, code);
  }

  /** Which codes explain the skill and the times of a candidate. */
  lemma ReasonsAre(user: User, context: Context)
    ensures var codes := CandidateOf(user, context).reasonCodes;
      && (ServiceMatch in codes <==> user.capability != None)
      && (MissingServiceCapability in codes <==> user.capability == None)
      && (ExpertMatch in codes <==> user.capability == Some(Expert))
      && (Available in codes <==> Ready(user)) && (MarkedUnavailable in codes <==> !Ready(user))
      && (OnCall in codes <==> user.isOnCall)
  {
    Listed(user, context, ServiceMatch);
    Listed(user, context, MissingServiceCapability);
    Listed(user, context, ExpertMatch);
    Listed(user, context, Available);
    Listed(user, context, MarkedUnavailable);
    Listed(user, context, OnCall);
  }

  /** And which the job, the calendar, the workload and the gate. */
  lemma MoreReasonsAre(user: User, context: Context)
    ensures var codes := CandidateOf(user, context).reasonCodes;
      && (NotOnCall in codes <==> !user.isOnCall && context.routing.requireOnCall)
      && (ServiceAreaAllowed in codes <==> context.routing.covered)
      && (ServiceAreaBlocked in codes <==> !context.routing.covered)
      && (ScheduleConflict in codes <==> Unavailable in user.blocks)
      && (NoScheduleConflict in codes <==> Unavailable !in user.blocks)
      && (LowActiveWorkload in codes <==> user.activeJobs <= 2)
      && (PaymentGateLocked in codes <==> context.gate == Locked)
  {
    Listed(user, context, NotOnCall);
    Listed(user, context, ServiceAreaAllowed);
    Listed(user, context, ServiceAreaBlocked);
    Listed(user, context, ScheduleConflict);
    Listed(user, context, NoScheduleConflict);
    Listed(user, context, LowActiveWorkload);
    Listed(user, context, PaymentGateLocked);
  }

  /** Nobody scores below one who can do nothing now, and that is zero. */
  lemma ScoreBottom(user: User, context: Context)
    ensures Score(user, context) >= 0
    ensures user.capability == None && !Ready(user) && Unavailable in user.blocks && user.activeJobs >= 5 ==>
      Score(user, context) == 0
  {
  }

  /** Ten points a level of proficiency, and ten more for an expert on an urgent job. */
  lemma ProficiencyCounts(user: User, context: Context)
    ensures var base := Score(user.(capability := None), context);
      && Score(user.(capability := Some(Junior)), context) == base + 10
      && Score(user.(capability := Some(Standard)), context) == base + 20
      && Score(user.(capability := Some(Expert)), context) == base + 30 + (if context.urgent then 10 else 0)
  {
  }

  /** Being available counts 25, and not being blocked 20. */
  lemma AvailabilityCounts(user: User, context: Context)
    ensures var idle := user.(isAvailable := false, blocks := []);
      var base := Score(idle, context);
      && Score(user, context) - base ==
           (if Unavailable in user.blocks then -20 else 0) + (if Ready(user) then 25 else 0)
  {
  }

  /** Each active job costs 4, up to five of them. */
  lemma WorkloadCounts(user: User, context: Context)
    ensures Score(user, context) - Score(user.(activeJobs := user.activeJobs + 1), context)
         == if user.activeJobs < 5 then 4 else 0
  {
  }

  /** Eligible before not, then the higher score, then the name, then the id. */
  predicate Outranks(a: Candidate, b: Candidate, collation: Collation) {
    || (a.eligible && !b.eligible)
    || (a.eligible == b.eligible && a.score > b.score)
    || (a.eligible == b.eligible && a.score == b.score && collation.name(a.fullName) < collation.name(b.fullName))
    || (a.eligible == b.eligible && a.score == b.score && collation.name(a.fullName) == collation.name(b.fullName)
        && collation.id(a.userId) < collation.id(b.userId))
  }

  lemma FourCriteria(a: Key, b: Key)
    requires |a| == |b| == 4 && Less(a, b)
    ensures
      || a[0] < b[0]
      || (a[0] == b[0] && a[1] < b[1])
      || (a[0] == b[0] && a[1] == b[1] && a[2] < b[2])
      || (a[0] == b[0] && a[1] == b[1] && a[2] == b[2] && a[3] < b[3])
  {
    FirstCriterion(a, b);
    FirstCriterion(a[1..], b[1..]);
    assert a[1..][1..] == a[2..] && b[1..][1..] == b[2..];
    FirstCriterion(a[2..], b[2..]);
    assert a[2..][1..] == a[3..] && b[2..][1..] == b[3..];
    FirstCriterion(a[3..], b[3..]);
    assert a[3..][1..] == [] && b[3..][1..] == [];
  }

  /** Every candidate outranks all that stand after it. */
  lemma RankedByMerit(users: seq<User>, context: Context, collation: Collation)
    requires DistinctUsers(users, collation)
    ensures var ranked := Ranked(users, context, collation);
      forall i, j | 0 <= i < j < |ranked| :: Outranks(ranked[i], ranked[j], collation)
  {
    RankedHolds(users, context, collation);
    var ranked := Ranked(users, context, collation);
    forall i, j | 0 <= i < j < |ranked|
      ensures Outranks(ranked[i], ranked[j], collation)
    {
      FourCriteria(RankOrder(collation)(ranked[i]), RankOrder(collation)(ranked[j]));
    }
  }

  /** The recommendation outranks every other eligible candidate. */
  lemma RecommendationOutranks(users: seq<User>, context: Context, collation: Collation)
    requires DistinctUsers(users, collation)
    ensures var ranked := Ranked(users, context, collation);
      var best := Recommend(ranked);
      best.Some? ==>
        && best.value in ranked && best.value.eligible
        && forall c <- ranked :: c.eligible && c != best.value ==> Outranks(best.value, c, collation)
  {
    RecommendationIsTheBest(users, context, collation);
    var ranked := Ranked(users, context, collation);
    var best := Recommend(ranked);
    if best.Some? {
      forall c <- ranked | c.eligible && c != best.value
        ensures Outranks(best.value, c, collation)
      {
        FourCriteria(RankOrder(collation)(best.value), RankOrder(collation)(c));
      }
    }
  }

  lemma SelectedIsBest(users: seq<User>, context: Context, collation: Collation, technicianId: string)
    requires DistinctUsers(users, collation)
    ensures var ranked := Ranked(users, context, collation);
      var selected, best := Find(ranked, Selects(technicianId)), Recommend(ranked);
      && (selected.Some? ==> selected.value.userId == technicianId)
      && (best.Some? ==> best.value.eligible)
      && (selected.Some? && best.Some? && best.value.userId == technicianId ==> selected == best)
  {
    RankedHolds(users, context, collation);
    var ranked := Ranked(users, context, collation);
    FindIsLeast(ranked, RankOrder(collation), Selects(technicianId));
    FindIsLeast(ranked, RankOrder(collation), IsEligible);
    var selected, best := Find(ranked, Selects(technicianId)), Recommend(ranked);
    if selected.Some? && best.Some? && best.value.userId == technicianId {
      OneCandidateAnId(users, context, collation, selected.value, best.value);
    }
  }

  /** An admitted assignment is an override exactly when it does not go to the
      recommended technician, and it names the recommendation. */
  lemma OverrideIff(users: seq<User>, context: Context, collation: Collation, holder: Option<string>,
                    technicianId: string, reason: Option<string>)
    requires DistinctUsers(users, collation)
    ensures var best := Recommend(Ranked(users, context, collation));
      var recommended := if best.Some? then Some(best.value.userId) else None;
      var admission := Admit(Ranked(users, context, collation), context, holder, technicianId, reason);
      admission.Admitted? ==>
        admission.recommended == recommended && (admission.override <==> recommended != Some(technicianId))
  {
    SelectedIsBest(users, context, collation, technicianId);
  }

  // ----- the reason -----

  /** The characters that are not white space. */
  function Ink(s: string): string {
    if s == "" then "" else (if IsSpace(s[0]) then "" else [s[0]]) + Ink(s[1..])
  }

  /** No white space but single spaces. */
  predicate Spaced(s: string) {
    && (forall i | 0 <= i < |s| :: IsSpace(s[i]) ==> s[i] == ' ')
    && (forall i | 0 <= i < |s| - 1 :: !(IsSpace(s[i]) && IsSpace(s[i + 1])))
  }

  /** Collapsing keeps every other character and leaves single spaces. */
  lemma {:induction false} CollapseIs(s: string)
    ensures var t := Collapse(s);
      && Ink(t) == Ink(s) && Spaced(t) && |t| <= |s|
      && (t == "" <==> s == "") && (s != "" ==> (IsSpace(t[0]) <==> IsSpace(s[0])))
  {
    if s != "" {
      CollapseIs(s[1..]);
      var rest := Collapse(s[1..]);
      if !IsSpace(s[0]) {
        assert Collapse(s)[1..] == rest;
      } else if |s| == 1 || !IsSpace(s[1]) {
        assert Collapse(s) == " " + rest && Collapse(s)[1..] == rest;
        assert rest != "" ==> !IsSpace(rest[0]);
      }
    }
  }

  /** A reason is good when at least ten characters are left of it. */
  lemma GoodReasonIs(reason: string)
    ensures GoodReason(Some(reason)) <==> 10 <= |Trim(Collapse(reason))|
    ensures !GoodReason(None)
  {
  }
}
