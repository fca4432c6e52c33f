/** What the lead-source report promises: it conserves counts, has one row for each
    source, does not depend on the order of the jobs, and rounds its rates faithfully. */
module ReportOutcomes {
  import opened Common
  import opened Sorting
  import opened Reporting
  import JobWorkflow
  import JobOutcomes

  // ----- conservation -----

  function SumRows(rows: seq<Row>): Counts {
    if rows == [] then ZERO else Add(rows[0].totals, SumRows(rows[1..]))
  }

  function SumGroups(groups: seq<Group>): Counts {
    if groups == [] then ZERO else Add(groups[0].totals, SumGroups(groups[1..]))
  }

  lemma {:induction false} AccumulateSums(groups: seq<Group>, key: string, counts: Counts)
    ensures SumGroups(Accumulate(groups, key, counts)) == Add(SumGroups(groups), counts)
  {
    if groups != [] && groups[0].key != key {
      AccumulateSums(groups[1..], key, counts);
    }
  }

  lemma {:induction false} GroupsConserve(jobs: seq<Job>, source: Job -> string, counts: Job -> Counts)
    ensures SumGroups(Groups(jobs, source, counts)) == Total(jobs, counts)
  {
    if jobs != [] {
      var before, job := jobs[..|jobs| - 1], jobs[|jobs| - 1];
      GroupsConserve(before, source, counts);
      assert jobs == before + [job];
      TotalAppend(before, job, counts);
      AccumulateSums(Groups(before, source, counts), source(job), counts(job));
    }
  }

  lemma {:induction false} RowsSum(groups: seq<Group>, round: Rounding)
    ensures SumRows(Map(groups, RowOf(round))) == SumGroups(groups)
  {
    if groups != [] {
      RowsSum(groups[1..], round);
    }
  }

  lemma {:induction false} InsertSums(row: Row, rows: seq<Row>, key: Row -> Key)
    ensures SumRows(Insert(row, rows, key)) == Add(row.totals, SumRows(rows))
  {
    if rows != [] {
      InsertSums(row, rows[1..], key);
    }
  }

  lemma {:induction false} SortSums(rows: seq<Row>, key: Row -> Key)
    ensures SumRows(Sort(rows, key)) == SumRows(rows)
  {
    if rows != [] {
      SortSums(rows[1..], key);
      InsertSums(rows[0], Sort(rows[1..], key), key);
    }
  }

  lemma {:induction false} TotalsCount(jobs: seq<Job>)
    ensures var t := Total(jobs, JobCounts);
      && t.created == |jobs| && t.attributed + t.unattributed == t.created
      && t.booked == Count(jobs, IsBooked) && t.completed == Count(jobs, IsCompleted)
      && t.cancelled == Count(jobs, IsCancelled) && t.attributed == Count(jobs, IsAttributed)
  {
    if jobs != [] {
      TotalsCount(jobs[1..]);
      assert Total(jobs, JobCounts) == Add(JobCounts(jobs[0]), Total(jobs[1..], JobCounts));
    }
  }

  predicate IsCancelled(job: Job) {
    job.status.Cancelled?
  }

  /** In each of the six fields the sources add up to the totals, which count the jobs. */
  lemma ReportConservesCounts(jobs: seq<Job>, weight: string -> int, round: Rounding)
    ensures var r := ReportOf(jobs, weight, round);
      && SumRows(r.bySource) == r.totals
      && r.totals.created == |jobs| && r.totals.attributed + r.totals.unattributed == |jobs|
      && r.totals.booked == Count(jobs, IsBooked) && r.totals.completed == Count(jobs, IsCompleted)
      && r.totals.cancelled == Count(jobs, IsCancelled) && r.totals.attributed == Count(jobs, IsAttributed)
  {
    GroupsConserve(jobs, SourceKey, JobCounts);
    RowsSum(Groups(jobs, SourceKey, JobCounts), round);
    SortSums(Map(Groups(jobs, SourceKey, JobCounts), RowOf(round)), Place(weight));
    TotalsCount(jobs);
  }

  // ----- the rows -----

  /** Different keys never tie in the collation. */
  ghost predicate Separates(weight: string -> int, jobs: seq<Job>, source: Job -> string) {
    forall a <- jobs, b <- jobs | source(a) != source(b) :: weight(source(a)) != weight(source(b))
  }

  ghost predicate KeysApart(groups: seq<Group>, weight: string -> int) {
    forall i, j | 0 <= i < j < |groups| :: weight(groups[i].key) != weight(groups[j].key)
  }

  lemma GroupKeysDiffer(jobs: seq<Job>, source: Job -> string, counts: Job -> Counts, weight: string -> int)
    requires Separates(weight, jobs, source)
    ensures KeysApart(Groups(jobs, source, counts), weight)
  {
    GroupsAreTheSources(jobs, source, counts);
    var groups := Groups(jobs, source, counts);
    forall i, j | 0 <= i < j < |groups|
      ensures weight(groups[i].key) != weight(groups[j].key)
    {
      assert groups[i] in groups && groups[j] in groups;
      var a :| a in jobs && source(a) == groups[i].key;
      var b :| b in jobs && source(b) == groups[j].key;
    }
  }

  lemma RowPlacesDiffer(groups: seq<Group>, weight: string -> int, round: Rounding)
    requires KeysApart(groups, weight)
    ensures DistinctKeys(Map(groups, RowOf(round)), Place(weight))
  {
    var rows := Map(groups, RowOf(round));
    MapHolds(groups, RowOf(round));
    forall i, j | 0 <= i < j < |groups|
      ensures Place(weight)(rows[i]) != Place(weight)(rows[j])
    {
      assert Place(weight)(rows[i])[1] == weight(groups[i].key);
      assert Place(weight)(rows[j])[1] == weight(groups[j].key);
    }
  }

  lemma PagePlacesDiffer(groups: seq<Group>, weight: string -> int)
    requires KeysApart(groups, weight)
    ensures DistinctKeys(Map(groups, PageFrom()), PagePlace(weight))
  {
    var pages := Map(groups, PageFrom());
    MapHolds(groups, PageFrom());
    forall i, j | 0 <= i < j < |groups|
      ensures PagePlace(weight)(pages[i]) != PagePlace(weight)(pages[j])
    {
      assert PagePlace(weight)(pages[i])[1] == weight(groups[i].key);
      assert PagePlace(weight)(pages[j])[1] == weight(groups[j].key);
    }
  }

  /** There is exactly one row for each source that occurs, with the total of that
      source's jobs, and the rows stand in strict order of leads and then of key. */
  lemma RowsAreTheSources(jobs: seq<Job>, weight: string -> int, round: Rounding)
    ensures var rows := ReportOf(jobs, weight, round).bySource;
      && (forall row <- rows ::
            row.totals == Total(jobs, From(SourceKey, JobCounts, row.key)) && row.rates == RatesOf(round, row.totals))
      && (forall job <- jobs :: exists row <- rows :: row.key == SourceKey(job))
      && (forall row <- rows :: exists job <- jobs :: row.key == SourceKey(job))
      && |rows| == |Groups(jobs, SourceKey, JobCounts)| && Keyed(Groups(jobs, SourceKey, JobCounts))
      && (Separates(weight, jobs, SourceKey) ==> Ascending(rows, Place(weight)))
  {
    GroupsAreTheSources(jobs, SourceKey, JobCounts);
    var groups := Groups(jobs, SourceKey, JobCounts);
    var unsorted := Map(groups, RowOf(round));
    MapHolds(groups, RowOf(round));
    MapMembers(groups, RowOf(round));
    SortHolds(unsorted, Place(weight));
    if Separates(weight, jobs, SourceKey) {
      GroupKeysDiffer(jobs, SourceKey, JobCounts, weight);
      RowPlacesDiffer(groups, weight, round);
      SortAscends(unsorted, Place(weight));
    }
    var rows := ReportOf(jobs, weight, round).bySource;
    forall job <- jobs
      ensures exists row <- rows :: row.key == SourceKey(job)
    {
      var g :| g in groups && g.key == SourceKey(job);
      assert RowOf(round)(g) in rows;
    }
  }

  // ----- the order of the jobs -----

  lemma NothingBefore(a: seq<Job>, b: seq<Job>, counts: Job -> Counts)
    requires a == []
    ensures Total(a + b, counts) == Add(Total(a, counts), Total(b, counts))
  {
    assert a + b == b;
    AddZero(Total(b, counts));
  }

  lemma {:induction false} TotalConcat(a: seq<Job>, b: seq<Job>, counts: Job -> Counts)
    ensures Total(a + b, counts) == Add(Total(a, counts), Total(b, counts))
  {
    if a == [] {
      NothingBefore(a, b, counts);
    } else {
      var rest, both := a[1..], a + b;
      assert both[1..] == rest + b && both[0] == a[0];
      TotalConcat(rest, b, counts);
      AddAssociates(counts(a[0]), Total(rest, counts), Total(b, counts));
    }
  }

  lemma TotalTakesOut(jobs: seq<Job>, i: nat, counts: Job -> Counts)
    requires i < |jobs|
    ensures Total(jobs, counts) == Add(counts(jobs[i]), Total(jobs[..i] + jobs[i + 1..], counts))
  {
    var before, after := jobs[..i], jobs[i + 1..];
    TotalConcat(before, after, counts);
    TotalConcat(before, [jobs[i]] + after, counts);
    assert jobs == before + ([jobs[i]] + after);
    assert ([jobs[i]] + after)[1..] == after;
    AddAssociates(Total(before, counts), counts(jobs[i]), Total(after, counts));
    AddAssociates(counts(jobs[i]), Total(before, counts), Total(after, counts));
  }

  lemma {:induction false} TotalPermutes(jobs: seq<Job>, others: seq<Job>, counts: Job -> Counts)
    requires multiset(jobs) == multiset(others)
    ensures Total(jobs, counts) == Total(others, counts)
  {
    if jobs == [] {
      assert |multiset(others)| == 0;
    } else {
      assert jobs[0] in multiset(others);
      var i :| 0 <= i < |others| && others[i] == jobs[0];
      TakeOut(others, i);
      HeadOff(jobs);
      TotalPermutes(jobs[1..], others[..i] + others[i + 1..], counts);
      TotalTakesOut(others, i, counts);
    }
  }

  lemma {:induction false} DistinctOnce(groups: seq<Group>, g: Group)
    requires Keyed(groups)
    ensures multiset(groups)[g] == if g in groups then 1 else 0
  {
    if groups != [] {
      DistinctOnce(groups[1..], g);
      assert groups == [groups[0]] + groups[1..];
    }
  }

  lemma GroupFollows(jobs: seq<Job>, others: seq<Job>, source: Job -> string, counts: Job -> Counts, g: Group)
    requires multiset(jobs) == multiset(others) && g in Groups(jobs, source, counts)
    ensures g in Groups(others, source, counts)
  {
    GroupsAreTheSources(jobs, source, counts);
    GroupsAreTheSources(others, source, counts);
    var job :| job in jobs && source(job) == g.key;
    assert job in multiset(others);
    var h :| h in Groups(others, source, counts) && h.key == g.key;
    TotalPermutes(jobs, others, From(source, counts, g.key));
    assert h == g;
  }

  lemma GroupsPermute(jobs: seq<Job>, others: seq<Job>, source: Job -> string, counts: Job -> Counts)
    requires multiset(jobs) == multiset(others)
    ensures multiset(Groups(jobs, source, counts)) == multiset(Groups(others, source, counts))
  {
    GroupsAreTheSources(jobs, source, counts);
    GroupsAreTheSources(others, source, counts);
    var a, b := Groups(jobs, source, counts), Groups(others, source, counts);
    forall g
      ensures multiset(a)[g] == multiset(b)[g]
    {
      DistinctOnce(a, g);
      DistinctOnce(b, g);
      if g in a {
        GroupFollows(jobs, others, source, counts, g);
      }
      if g in b {
        GroupFollows(others, jobs, source, counts, g);
      }
    }
  }

  lemma {:induction false} FilterOnce(jobs: seq<Job>, p: Job -> bool, job: Job)
    ensures multiset(Filter(jobs, p))[job] == if p(job) then multiset(jobs)[job] else 0
  {
    if jobs != [] {
      FilterOnce(jobs[1..], p, job);
      assert jobs == [jobs[0]] + jobs[1..];
    }
  }

  lemma FilterPermutes(jobs: seq<Job>, others: seq<Job>, p: Job -> bool)
    requires multiset(jobs) == multiset(others)
    ensures multiset(Filter(jobs, p)) == multiset(Filter(others, p))
  {
    forall job
      ensures multiset(Filter(jobs, p))[job] == multiset(Filter(others, p))[job]
    {
      FilterOnce(jobs, p, job);
      FilterOnce(others, p, job);
    }
  }

  /** Groups of permuted jobs make the same sorted rows and the same sorted pages. */
  lemma SortedGroupsPermute(jobs: seq<Job>, others: seq<Job>, source: Job -> string, weight: string -> int,
      round: Rounding)
    requires multiset(jobs) == multiset(others) && Separates(weight, jobs, source)
    ensures var a, b := Groups(jobs, source, JobCounts), Groups(others, source, JobCounts);
      && Sort(Map(a, RowOf(round)), Place(weight)) == Sort(Map(b, RowOf(round)), Place(weight))
      && Sort(Map(a, PageFrom()), PagePlace(weight)) == Sort(Map(b, PageFrom()), PagePlace(weight))
  {
    var a, b := Groups(jobs, source, JobCounts), Groups(others, source, JobCounts);
    GroupsPermute(jobs, others, source, JobCounts);
    MapPermutes(a, b, RowOf(round));
    MapPermutes(a, b, PageFrom());
    assert forall job <- others :: job in multiset(jobs);
    GroupKeysDiffer(jobs, source, JobCounts, weight);
    GroupKeysDiffer(others, source, JobCounts, weight);
    RowPlacesDiffer(a, weight, round);
    RowPlacesDiffer(b, weight, round);
    PagePlacesDiffer(a, weight);
    PagePlacesDiffer(b, weight);
    SortIgnoresOrder(Map(a, RowOf(round)), Map(b, RowOf(round)), Place(weight));
    SortIgnoresOrder(Map(a, PageFrom()), Map(b, PageFrom()), PagePlace(weight));
  }

  /** The whole report is the same for every order of the jobs. */
  lemma ReportIgnoresJobOrder(jobs: seq<Job>, others: seq<Job>, weight: string -> int, round: Rounding)
    requires multiset(jobs) == multiset(others)
    requires Separates(weight, jobs, SourceKey) && Separates(weight, Filter(jobs, HasPage), PageOf)
    ensures ReportOf(jobs, weight, round) == ReportOf(others, weight, round)
  {
    TotalPermutes(jobs, others, JobCounts);
    SortedGroupsPermute(jobs, others, SourceKey, weight, round);
    FilterPermutes(jobs, others, HasPage);
    SortedGroupsPermute(Filter(jobs, HasPage), Filter(others, HasPage), PageOf, weight, round);
  }

  // ----- landing pages -----

  function SumPages(pages: seq<Page>): int {
    if pages == [] then 0 else pages[0].created + SumPages(pages[1..])
  }

  lemma {:induction false} PagesSum(groups: seq<Group>)
    ensures SumPages(Map(groups, PageFrom())) == SumGroups(groups).created
  {
    if groups != [] {
      PagesSum(groups[1..]);
    }
  }

  lemma {:induction false} SortSumsPages(pages: seq<Page>, key: Page -> Key)
    ensures SumPages(Sort(pages, key)) == SumPages(pages)
  {
    if pages != [] {
      SortSumsPages(pages[1..], key);
      InsertSumsPages(pages[0], Sort(pages[1..], key), key);
    }
  }

  lemma {:induction false} InsertSumsPages(page: Page, pages: seq<Page>, key: Page -> Key)
    ensures SumPages(Insert(page, pages, key)) == page.created + SumPages(pages)
  {
    if pages != [] {
      InsertSumsPages(page, pages[1..], key);
    }
  }

  lemma {:induction false} FilterCounts(jobs: seq<Job>, p: Job -> bool)
    ensures |Filter(jobs, p)| == Count(jobs, p)
  {
    if jobs != [] {
      FilterCounts(jobs[1..], p);
    }
  }

  lemma {:induction false} CountImplies(jobs: seq<Job>, p: Job -> bool, q: Job -> bool)
    requires forall job :: p(job) ==> q(job)
    ensures Count(jobs, p) <= Count(jobs, q)
  {
    if jobs != [] {
      CountImplies(jobs[1..], p, q);
    }
  }

  /** The landing pages account for exactly the attributed jobs that name one. */
  lemma PagesConserve(jobs: seq<Job>, weight: string -> int, round: Rounding)
    ensures var r := ReportOf(jobs, weight, round);
      SumPages(r.topLandingPages) == Count(jobs, HasPage) <= r.totals.attributed
  {
    var paged := Filter(jobs, HasPage);
    GroupsConserve(paged, PageOf, JobCounts);
    TotalsCount(paged);
    TotalsCount(jobs);
    FilterCounts(jobs, HasPage);
    CountImplies(jobs, HasPage, IsAttributed);
    var groups := Groups(paged, PageOf, JobCounts);
    PagesSum(groups);
    SortSumsPages(Map(groups, PageFrom()), PagePlace(weight));
  }

  // ----- keys -----

  /** Part holds what all has of the unattributed, and nothing else. */
  predicate Apart(part: Counts, all: Counts) {
    part.created == part.unattributed == all.unattributed && part.attributed == 0
  }

  lemma {:induction false} ApartAdds(jobs: seq<Job>, part: Job -> Counts, all: Job -> Counts)
    requires forall i | 0 <= i < |jobs| :: Apart(part(jobs[i]), all(jobs[i]))
    ensures Apart(Total(jobs, part), Total(jobs, all))
  {
    if jobs != [] {
      var rest := jobs[1..];
      assert forall i | 0 <= i < |rest| :: rest[i] == jobs[i + 1];
      ApartAdds(rest, part, all);
      assert Apart(part(jobs[0]), all(jobs[0]));
    }
  }

  /** The row of the unattributed holds all of them and no other job. */
  lemma UnattributedStandApart(jobs: seq<Job>)
    ensures Apart(Total(jobs, From(SourceKey, JobCounts, UNATTRIBUTED)), Total(jobs, JobCounts))
  {
    var part := From(SourceKey, JobCounts, UNATTRIBUTED);
    forall i | 0 <= i < |jobs|
      ensures Apart(part(jobs[i]), JobCounts(jobs[i]))
    {
      KeyTellsAttribution(jobs[i]);
    }
    ApartAdds(jobs, part, JobCounts);
  }

  lemma KeyTellsAttribution(job: Job)
    ensures SourceKey(job) == UNATTRIBUTED <==> !IsAttributed(job)
  {
    if IsAttributed(job) {
      assert SourceKey(job)[0] == 'w';
    }
  }

  /** A separator that neither prefix holds splits a text in one way only. */
  lemma {:induction false} SplitIsUnique(p: string, x: string, q: string, y: string)
    requires '|' !in p && '|' !in q && p + "|" + x == q + "|" + y
    ensures p == q && x == y
    decreases |p|
  {
    var s, t := p + "|" + x, q + "|" + y;
    assert s[0] == if p == [] then '|' else p[0];
    assert t[0] == if q == [] then '|' else q[0];
    assert p == [] <==> q == [];
    if p == [] {
      assert s[1..] == x && t[1..] == y;
    } else {
      assert s[1..] == p[1..] + "|" + x && t[1..] == q[1..] + "|" + y;
      SplitIsUnique(p[1..], x, q[1..], y);
      assert p == [p[0]] + p[1..] && q == [q[0]] + q[1..];
    }
  }

  /** No separator stands in the source or the medium. */
  predicate Plain(job: Job) {
    IsAttributed(job) ==> '|' !in SourceText(job) && '|' !in MediumText(job)
  }

  lemma KeyAfterChannel(job: Job, rest: string)
    requires IsAttributed(job) && rest == SourceText(job) + "|" + (MediumText(job) + "|" + CampaignText(job))
    ensures |SourceKey(job)| > 13 && SourceKey(job)[13..] == rest
  {
    assert SourceKey(job) == "website_chat|" + rest;
  }

  /** When no source and no medium holds the separator, two jobs share a key exactly
      when they agree on attribution and on the three texts. */
  lemma KeysAgreeIff(a: Job, b: Job)
    requires Plain(a) && Plain(b)
    ensures SourceKey(a) == SourceKey(b) <==>
      && (IsAttributed(a) <==> IsAttributed(b))
      && (IsAttributed(a) ==>
            SourceText(a) == SourceText(b) && MediumText(a) == MediumText(b) && CampaignText(a) == CampaignText(b))
  {
    KeyTellsAttribution(a);
    KeyTellsAttribution(b);
    if IsAttributed(a) && IsAttributed(b) && SourceKey(a) == SourceKey(b) {
      var tailA, tailB := MediumText(a) + "|" + CampaignText(a), MediumText(b) + "|" + CampaignText(b);
      var restA, restB := SourceText(a) + "|" + tailA, SourceText(b) + "|" + tailB;
      KeyAfterChannel(a, restA);
      KeyAfterChannel(b, restB);
      SplitIsUnique(SourceText(a), tailA, SourceText(b), tailB);
      SplitIsUnique(MediumText(a), CampaignText(a), MediumText(b), CampaignText(b));
    }
  }

  /** Otherwise the key is not injective: "a|b" from "c" and "a" from "b|c" share one.
      And texts agree when a source bears the name given to a missing one. */
  lemma SourcesMayShareAKey(status: JobStatus)
    ensures var a := Job(status, None, None, Some(Snapshot(true, None, Some("a|b"), Some("c"), None)));
      var b := Job(status, None, None, Some(Snapshot(true, None, Some("a"), Some("b|c"), None)));
      SourceKey(a) == SourceKey(b) && SourceText(a) != SourceText(b)
    ensures var c := Job(status, None, None, Some(Snapshot(true, None, Some("direct"), None, None)));
      var d := Job(status, None, None, Some(Snapshot(true, None, None, None, None)));
      SourceKey(c) == SourceKey(d)
  {
  }

  // ----- rates -----

  const UNIT_ROUNDOFF: real := 1.0 / 9007199254740992.0

  /** Exact arithmetic is one such. */
  lemma ExactlyRounds()
    ensures Rounds(x => x)
  {
  }

  predicate Ordered(round: Rounding, x: real, y: real) {
    x <= y ==> round(x) <= round(y)
  }

  predicate Keeps(round: Rounding, k: int) {
    round(k as real) == k as real
  }

  predicate Near(round: Rounding, x: real) {
    x - x * UNIT_ROUNDOFF <= round(x) <= x + x * UNIT_ROUNDOFF
  }

  /** What is asked of the arithmetic, and holds of double precision: it keeps order,
      is exact on integers up to 2^53, and errs by at most one part in 2^53. */
  ghost predicate Rounds(round: Rounding) {
    && (forall x, y :: Ordered(round, x, y))
    && (forall k | 0 <= k <= 9007199254740992 :: Keeps(round, k))
    && (forall x | x >= 0.0 :: Near(round, x))
  }

  lemma QuotientBelow(n: real, d: real, bound: real)
    requires d > 0.0
    ensures n / d < bound <==> n < bound * d
    ensures n / d <= bound <==> n <= bound * d
  {
    assert n == n / d * d;
  }

  /** Over exact arithmetic, a rate is at most 1 exactly when the numerator exceeds the
      denominator by less than one part in 20,000. */
  lemma ExactRatioInUnit(numerator: int, denominator: int)
    requires 0 <= numerator && 0 < denominator
    ensures Ratio(x => x, numerator, denominator) <= 1.0 <==> 20000 * numerator < 20001 * denominator
  {
    var exact := numerator as real / denominator as real;
    var scaled := exact * 10000.0 + 0.5;
    assert Ratio(x => x, numerator, denominator) == scaled.Floor as real / 10000.0;
    assert Ratio(x => x, numerator, denominator) <= 1.0 <==> scaled.Floor <= 10000;
    assert scaled.Floor <= 10000 <==> scaled < 10001.0;
    QuotientBelow(numerator as real, denominator as real, 1.00005);
  }

  /** Rounding keeps what lies between two small integers between them. */
  lemma StaysBetween(round: Rounding, x: real, k: int)
    requires Rounds(round) && 0 <= k <= 9007199254740992 && 0.0 <= x <= k as real
    ensures 0.0 <= round(x) <= k as real
  {
    assert Ordered(round, 0 as real, x) && Ordered(round, x, k as real);
    assert Keeps(round, 0) && Keeps(round, k);
  }

  /** In double precision a ratio of at most 1 gives a rate in [0, 1] ... */
  lemma RatioInUnit(round: Rounding, numerator: int, denominator: int)
    requires Rounds(round) && 0 <= numerator <= denominator && 0 < denominator
    ensures 0.0 <= Ratio(round, numerator, denominator) <= 1.0
  {
    var exact := numerator as real / denominator as real;
    QuotientBelow(numerator as real, denominator as real, 1.0);
    StaysBetween(round, exact, 1);
    StaysBetween(round, round(exact) * 10000.0, 10000);
    var k := (round(round(exact) * 10000.0) + 0.5).Floor;
    assert 0 <= k <= 10000;
    StaysBetween(round, k as real / 10000.0, 1);
  }

  lemma NearBy(round: Rounding, x: real, bound: real)
    requires Rounds(round) && 0.0 <= x <= bound
    ensures x - bound * UNIT_ROUNDOFF <= round(x) <= x + bound * UNIT_ROUNDOFF
  {
    assert Near(round, x);
    assert x * UNIT_ROUNDOFF <= bound * UNIT_ROUNDOFF;
  }

  lemma HalfUp(scaled: real, k: real)
    requires k == (scaled + 0.5).Floor as real
    ensures scaled - 0.5 <= k <= scaled + 0.5
  {
  }

  /** ... and moves it by at most half of the fourth decimal and some roundoff. */
  lemma RatioIsClose(round: Rounding, numerator: int, denominator: int)
    requires Rounds(round) && 0 <= numerator <= denominator && 0 < denominator
    ensures var exact := numerator as real / denominator as real;
      -0.000050000000001 <= Ratio(round, numerator, denominator) - exact <= 0.000050000000001
  {
    var exact := numerator as real / denominator as real;
    QuotientBelow(numerator as real, denominator as real, 1.0);
    StaysBetween(round, exact, 1);
    NearBy(round, exact, 1.0);
    var ten := round(exact) * 10000.0;
    StaysBetween(round, ten, 10000);
    NearBy(round, ten, 10000.0);
    var k := (round(ten) + 0.5).Floor as real;
    HalfUp(round(ten), k);
    NearBy(round, k / 10000.0, 2.0);
  }

  predicate Nested(c: Counts) {
    0 <= c.completed <= c.booked <= c.created
  }

  lemma {:induction false} NestedAdds(jobs: seq<Job>, counts: Job -> Counts)
    requires forall i | 0 <= i < |jobs| :: Nested(counts(jobs[i]))
    ensures Nested(Total(jobs, counts))
  {
    if jobs != [] {
      var rest := jobs[1..];
      assert forall i | 0 <= i < |rest| :: rest[i] == jobs[i + 1];
      NestedAdds(rest, counts);
      assert Nested(counts(jobs[0]));
    }
  }

  predicate CloseTo(rate: real, numerator: int, denominator: int) {
    && 0.0 <= rate <= 1.0
    && (denominator == 0 ==> numerator == 0 && rate == 0.0)
    && (denominator > 0 ==> -0.000050000000001 <= rate - numerator as real / denominator as real <= 0.000050000000001)
  }

  predicate Faithful(totals: Counts, rates: Rates) {
    CloseTo(rates.leadToBooking, totals.booked, totals.created)
        && CloseTo(rates.bookedToCompleted, totals.completed, totals.booked)
  }

  lemma RatioIsFaithful(round: Rounding, numerator: int, denominator: int)
    requires Rounds(round) && 0 <= numerator <= denominator
    ensures CloseTo(Ratio(round, numerator, denominator), numerator, denominator)
  {
    if denominator > 0 {
      RatioIsClose(round, numerator, denominator);
      RatioInUnit(round, numerator, denominator);
    }
  }

  /** When every completed job counts as booked, each rate of the report, overall and
      of every source, lies in [0, 1] and within 0.00005 of its exact ratio, roundoff
      of less than 10^-15 apart. */
  lemma RatesAreFaithful(jobs: seq<Job>, weight: string -> int, round: Rounding)
    requires Rounds(round) && forall job <- jobs :: IsCompleted(job) ==> IsBooked(job)
    ensures var r := ReportOf(jobs, weight, round);
      Faithful(r.totals, r.rates) && forall row <- r.bySource :: Faithful(row.totals, row.rates)
  {
    NestedAdds(jobs, JobCounts);
    var r := ReportOf(jobs, weight, round);
    RatioIsFaithful(round, r.totals.booked, r.totals.created);
    RatioIsFaithful(round, r.totals.completed, r.totals.booked);
    RowsAreTheSources(jobs, weight, round);
    forall row <- r.bySource
      ensures Faithful(row.totals, row.rates)
    {
      NestedAdds(jobs, From(SourceKey, JobCounts, row.key));
      RatioIsFaithful(round, row.totals.booked, row.totals.created);
      RatioIsFaithful(round, row.totals.completed, row.totals.booked);
    }
  }

  lemma TwoToOne(round: Rounding)
    requires Keeps(round, 2) && Keeps(round, 20000)
    ensures Ratio(round, 2, 1) == 2.0
  {
    var scaled := round(round(2 as real / 1 as real) * 10000.0);
    assert scaled == 20000.0;
    assert (scaled + 0.5).Floor == 20000;
  }

  /** The condition is needed: a cancelled job that was completed without being
      accepted is completed but not booked, and the rate may pass 1. */
  lemma RateMayPassOne(booked: Job, odd: Job, weight: string -> int, round: Rounding)
    requires Rounds(round) && booked.status.Accepted? && booked.completedAt.None?
    requires odd.status.Cancelled? && odd.acceptedAt.None? && odd.completedAt.Some?
    ensures ReportOf([booked, odd, odd], weight, round).rates.bookedToCompleted == 2.0
  {
    ReportConservesCounts([booked, odd, odd], weight, round);
    CountThree(booked, odd, odd, IsBooked);
    CountThree(booked, odd, odd, IsCompleted);
    assert Keeps(round, 2) && Keeps(round, 20000);
    TwoToOne(round);
  }

  lemma CountThree(a: Job, b: Job, c: Job, p: Job -> bool)
    ensures Count([a, b, c], p) == (if p(a) then 1 else 0) + (if p(b) then 1 else 0) + (if p(c) then 1 else 0)
  {
    assert [a, b, c][1..] == [b, c] && [b, c][1..] == [c] && [c][1..] == [];
    assert Count([c], p) == (if p(c) then 1 else 0);
    assert Count([b, c], p) == (if p(b) then 1 else 0) + Count([c], p);
  }

  // ----- the jobs the workflow produces -----

  /** The report's columns of a job row. */
  function Reported(row: JobWorkflow.Row, lead: Option<Snapshot>): Job {
    Job(row.status, row.acceptedAt, row.completedAt, lead)
  }

  predicate CompletionShows(row: JobWorkflow.Row) {
    row.completedAt.Some? ==> row.status.InProgress? || row.status.Completed?
  }

  lemma StepKeepsCompletion(s: JobWorkflow.State, a: JobWorkflow.Action)
    requires CompletionShows(s.row) && JobWorkflow.AllReady(s)
    ensures CompletionShows(JobWorkflow.Step(s, a).row)
  {
    if a.Commit? && a.i < |s.calls| {
      assert JobWorkflow.Ready(s.calls[a.i], s.row);
      CommitKeepsCompletion(s, a.i, a.now);
    }
  }

  lemma CommitKeepsCompletion(s: JobWorkflow.State, i: nat, now: int)
    requires CompletionShows(s.row) && i < |s.calls| && JobWorkflow.Ready(s.calls[i], s.row)
    ensures CompletionShows(JobWorkflow.CommitCall(s, i, now).row)
  {
    var call := s.calls[i];
    if call.Acting? && call.expected == s.row.version {
      assert call.read == s.row;
    }
  }

  /** In every interleaving of assigning, working and completing a new job, the row
      counts as booked whenever it counts as completed: what RatesAreFaithful asks. */
  lemma {:induction false} WorkflowBooksWhatItCompletes(s: JobWorkflow.State, actions: seq<JobWorkflow.Action>,
      lead: Option<Snapshot>)
    requires CompletionShows(s.row) && JobWorkflow.AllReady(s)
    ensures var job := Reported(JobWorkflow.Run(s, actions).row, lead);
      IsCompleted(job) ==> IsBooked(job)
    decreases |actions|
  {
    if actions != [] {
      StepKeepsCompletion(s, actions[0]);
      JobWorkflow.StepKeepsReady(s, actions[0]);
      WorkflowBooksWhatItCompletes(JobWorkflow.Step(s, actions[0]), actions[1..], lead);
    }
  }

  lemma NewJobsAreFaithful(row: JobWorkflow.Row, actions: seq<JobWorkflow.Action>, lead: Option<Snapshot>)
    requires JobOutcomes.New(row)
    ensures var job := Reported(JobWorkflow.Run(JobWorkflow.Init(row), actions).row, lead);
      IsCompleted(job) ==> IsBooked(job)
  {
    WorkflowBooksWhatItCompletes(JobWorkflow.Init(row), actions, lead);
  }
}
