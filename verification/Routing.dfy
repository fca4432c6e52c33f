/** src/jobs/routing.service.ts: which routing rule governs a job. */
module Routing {
  import opened Common
  import opened Sorting

  datatype Urgency = Standard | High | Emergency
  datatype TimeScope = AnyTime | BusinessHours | AfterHours

  /** A service area; a malformed definition has no postal codes. */
  datatype Area = Area(active: bool, isZip: bool, postalCodes: seq<string>)

  datatype Rule = Rule(
    id: int,
    priority: int,
    active: bool,
    category: Option<string>,
    urgency: Option<Urgency>,
    timeScope: TimeScope,
    area: Option<Area>,
    requireAvailable: bool,
    requireOnCall: bool)

  /** What evaluateJob reads of the job. */
  datatype Job = Job(category: string, urgency: Urgency, timeScope: TimeScope, postalCode: Option<string>)

  datatype Evaluation = Evaluation(
    covered: bool,
    matched: Option<Rule>,
    requireAvailable: bool,
    requireOnCall: bool)

  function FirstFive(s: string): string {
    if |s| <= 5 then s else s[..5]
  }

  predicate AreaContains(area: Area, postalCode: Option<string>) {
    && area.active && area.isZip && postalCode.Some? && postalCode.value != ""
    && exists code <- area.postalCodes :: FirstFive(code) == postalCode.value
  }

  function Applies(job: Job): Rule -> bool {
    (rule: Rule) =>
      && (rule.category.None? || rule.category.value == job.category)
      && (rule.urgency.None? || rule.urgency.value == job.urgency)
      && (rule.timeScope.AnyTime? || rule.timeScope == job.timeScope)
  }

  function Admits(job: Job): Rule -> bool {
    (rule: Rule) => rule.area.None? || AreaContains(rule.area.value, job.postalCode)
  }

  /** orderBy: [{ priority: "asc" }, { id: "asc" }]. */
  function RuleOrder(rule: Rule): Key {
    [rule.priority, rule.id]
  }

  predicate IsActive(rule: Rule) {
    rule.active
  }

  function BaseMatches(rules: seq<Rule>, job: Job): seq<Rule> {
    Filter(Sort(Filter(rules, IsActive), RuleOrder), Applies(job))
  }

  function EvaluateJob(rules: seq<Rule>, job: Job): Evaluation {
    var base := BaseMatches(rules, job);
    var matched := Find(base, Admits(job));
    Evaluation(
      base == [] || matched.Some?,
      matched,
      if matched.Some? then matched.value.requireAvailable else true,
      if matched.Some? then matched.value.requireOnCall else false)
  }

  /** Primary keys are unique. */
  ghost predicate DistinctIds(rules: seq<Rule>) {
    forall i, j | 0 <= i < j < |rules| :: rules[i].id != rules[j].id
  }

  predicate Contends(rule: Rule, job: Job) {
    rule.active && Applies(job)(rule)
  }

  /** The rule is a contender that admits the job, ordered before every other one. */
  ghost predicate Governs(rule: Rule, rules: seq<Rule>, job: Job) {
    && rule in rules && Contends(rule, job) && Admits(job)(rule)
    && forall other <- rules :: other != rule && Contends(other, job) && Admits(job)(other) ==>
         Less(RuleOrder(rule), RuleOrder(other))
  }

  lemma {:induction false} ActiveKeepsDistinct(rules: seq<Rule>)
    requires DistinctIds(rules)
    ensures DistinctKeys(Filter(rules, IsActive), RuleOrder)
  {
    if rules != [] {
      ActiveKeepsDistinct(rules[1..]);
      FilterHolds(rules[1..], IsActive);
      var rest := Filter(rules[1..], IsActive);
      forall j | 0 <= j < |rest|
        ensures RuleOrder(rules[0]) != RuleOrder(rest[j])
      {
        assert rest[j] in rules[1..];
        var m :| 0 <= m < |rules[1..]| && rules[1..][m] == rest[j];
        assert rules[0].id != rules[m + 1].id;
        assert RuleOrder(rules[0])[1] != RuleOrder(rest[j])[1];
      }
      assert Filter(rules, IsActive) == if rules[0].active then [rules[0]] + rest else rest;
    }
  }

  /** The match is the least contender, in (priority, id), whose area admits the
      job; a job is uncovered exactly when it has contenders and none admits it. */
  lemma MatchGoverns(rules: seq<Rule>, job: Job)
    requires DistinctIds(rules)
    ensures var e := EvaluateJob(rules, job);
      && (forall rule :: e.matched == Some(rule) <==> Governs(rule, rules, job))
      && (e.matched.None? <==> forall rule <- rules :: Contends(rule, job) ==> !Admits(job)(rule))
      && (!e.covered <==> (exists rule <- rules :: Contends(rule, job))
                          && forall rule <- rules :: Contends(rule, job) ==> !Admits(job)(rule))
  {
    var active := Filter(rules, IsActive);
    var sorted := Sort(active, RuleOrder);
    var base := BaseMatches(rules, job);
    ActiveKeepsDistinct(rules);
    FilterHolds(rules, IsActive);
    SortHolds(active, RuleOrder);
    SortAscends(active, RuleOrder);
    FilterHolds(sorted, Applies(job));
    FilterAscends(sorted, RuleOrder, Applies(job));
    FindIsLeast(base, RuleOrder, Admits(job));
    assert forall rule :: rule in base <==> rule in rules && Contends(rule, job);
    assert base != [] ==> base[0] in base;
    forall rule | Governs(rule, rules, job)
      ensures EvaluateJob(rules, job).matched == Some(rule)
    {
      assert rule in base;
      var found := Find(base, Admits(job)).value;
      LessIsTotal(RuleOrder(rule), RuleOrder(found));
    }
  }

  /** A rule ordered after the match changes nothing; nor does a rule that does
      not contend or does not admit the job. */
  lemma LaterRuleKeepsMatch(rules: seq<Rule>, rule: Rule, job: Job)
    requires DistinctIds(rules + [rule])
    requires EvaluateJob(rules, job).matched.Some?
    requires Less(RuleOrder(EvaluateJob(rules, job).matched.value), RuleOrder(rule))
          || !Contends(rule, job) || !Admits(job)(rule)
    ensures EvaluateJob(rules + [rule], job) == EvaluateJob(rules, job)
  {
    var more := rules + [rule];
    assert forall i | 0 <= i < |rules| :: more[i] == rules[i];
    MatchGoverns(rules, job);
    MatchGoverns(more, job);
    var matched := EvaluateJob(rules, job).matched.value;
    assert Governs(matched, rules, job);
    forall other <- more | other != matched && Contends(other, job) && Admits(job)(other)
      ensures Less(RuleOrder(matched), RuleOrder(other))
    {
      assert other in rules || other == rule;
    }
    assert Governs(matched, more, job);
  }

  /** The evaluation does not depend on the order in which the rules are stored. */
  lemma StorageOrderIsIrrelevant(rules: seq<Rule>, others: seq<Rule>, job: Job)
    requires DistinctIds(rules) && DistinctIds(others) && multiset(rules) == multiset(others)
    ensures EvaluateJob(rules, job) == EvaluateJob(others, job)
  {
    MatchGoverns(rules, job);
    MatchGoverns(others, job);
    assert forall rule :: rule in rules <==> rule in multiset(rules);
    assert forall rule :: rule in others <==> rule in multiset(others);
    forall rule
      ensures Governs(rule, rules, job) <==> Governs(rule, others, job)
    {
    }
    var e, f := EvaluateJob(rules, job), EvaluateJob(others, job);
    assert e.matched.Some? ==> Governs(e.matched.value, others, job);
    assert f.matched.Some? ==> Governs(f.matched.value, rules, job);
  }
}
