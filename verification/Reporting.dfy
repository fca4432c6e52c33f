/** src/reporting/reporting.service.ts: the lead-source report over a tenant's jobs. */
module Reporting {
  import opened Common
  import opened Sorting

  // ----- attribution -----

  /** policySnapshot.leadAttribution; a value that is not a string is None. */
  datatype Snapshot = Snapshot(
    websiteChat: bool,
    landingPage: Option<string>,
    utmSource: Option<string>,
    utmMedium: Option<string>,
    utmCampaign: Option<string>)

  /** `lead` is None when there is no attribution object. */
  datatype Job = Job(status: JobStatus, acceptedAt: Option<int>, completedAt: Option<int>, lead: Option<Snapshot>)

  predicate IsAttributed(job: Job) {
    job.lead.Some? && job.lead.value.websiteChat
  }

  /** The trimmed text cut to the limit, or the stand-in for a missing one. */
  function Text(candidate: Option<string>, limit: nat, missing: string): string {
    if candidate.None? || Trim(candidate.value) == "" then missing
    else
      var text := Trim(candidate.value);
      if |text| > limit then text[..limit] else text
  }

  const UNATTRIBUTED := "unattributed"

  function SourceText(job: Job): string
    requires IsAttributed(job)
  {
    Text(job.lead.value.utmSource, 100, "direct")
  }

  function MediumText(job: Job): string
    requires IsAttributed(job)
  {
    Text(job.lead.value.utmMedium, 100, "none")
  }

  function CampaignText(job: Job): string
    requires IsAttributed(job)
  {
    Text(job.lead.value.utmCampaign, 160, "none")
  }

  function SourceKey(job: Job): string {
    if !IsAttributed(job) then UNATTRIBUTED
    else "website_chat" + "|" + SourceText(job) + "|" + MediumText(job) + "|" + CampaignText(job)
  }

  predicate IsPathChar(c: char) {
    'A' <= c <= 'Z' || 'a' <= c <= 'z' || '0' <= c <= '9' || c == '/' || c == '_' || c == '-'
  }

  predicate IsPath(s: string) {
    |s| <= 200 && s != "" && s[0] == '/' && forall c <- s :: IsPathChar(c)
  }

  predicate HasPage(job: Job) {
    IsAttributed(job) && job.lead.value.landingPage.Some? && IsPath(job.lead.value.landingPage.value)
  }

  function PageOf(job: Job): string {
    if HasPage(job) then job.lead.value.landingPage.value else ""
  }

  predicate IsBooked(job: Job) {
    job.acceptedAt.Some? || job.status.Accepted? || job.status.InProgress? || job.status.Completed?
  }

  predicate IsCompleted(job: Job) {
    job.completedAt.Some? || job.status.Completed?
  }

  // ----- counts -----

  datatype Counts = Counts(created: int, booked: int, completed: int, cancelled: int, attributed: int,
      unattributed: int)

  const ZERO := Counts(0, 0, 0, 0, 0, 0)

  function Bit(b: bool): int {
    if b then 1 else 0
  }

  function JobCounts(job: Job): Counts {
    Counts(1, Bit(IsBooked(job)), Bit(IsCompleted(job)), Bit(job.status.Cancelled?), Bit(IsAttributed(job)),
        Bit(!IsAttributed(job)))
  }

  function Add(a: Counts, b: Counts): Counts {
    Counts(a.created + b.created, a.booked + b.booked, a.completed + b.completed,
           a.cancelled + b.cancelled, a.attributed + b.attributed, a.unattributed + b.unattributed)
  }

  /** The six counters as the object that addCounts changes in place. */
  class ReportCounts {
    var created: int
    var booked: int
    var completed: int
    var cancelled: int
    var attributed: int
    var unattributed: int

    constructor (counts: Counts)
      ensures Value() == counts
    {
      created, booked, completed := counts.created, counts.booked, counts.completed;
      cancelled, attributed, unattributed := counts.cancelled, counts.attributed, counts.unattributed;
    }

    function Value(): Counts
      reads this
    {
      Counts(created, booked, completed, cancelled, attributed, unattributed)
    }

    method AddCounts(source: Counts)
      modifies this
      ensures Value() == Add(old(Value()), source)
    {
      created := created + source.created;
      booked := booked + source.booked;
      completed := completed + source.completed;
      cancelled := cancelled + source.cancelled;
      attributed := attributed + source.attributed;
      unattributed := unattributed + source.unattributed;
    }
  }

  // ----- rates -----

  /** What the arithmetic makes of an exact result: floating point, or nothing at all. */
  type Rounding = real -> real

  /** Math.round of a ratio to four decimals; Math.round itself is exact. */
  function Ratio(round: Rounding, numerator: int, denominator: int): real {
    if denominator > 0 then
      var scaled := round(round(numerator as real / denominator as real) * 10000.0);
      round((scaled + 0.5).Floor as real / 10000.0)
    else 0.0
  }

  datatype Rates = Rates(leadToBooking: real, bookedToCompleted: real)

  function RatesOf(round: Rounding, counts: Counts): Rates {
    Rates(Ratio(round, counts.booked, counts.created), Ratio(round, counts.completed, counts.booked))
  }

  // ----- the report -----

  datatype Group = Group(key: string, totals: Counts)

  datatype Row = Row(key: string, totals: Counts, rates: Rates)

  datatype Page = Page(path: string, created: int, booked: int, completed: int)

  datatype Report = Report(totals: Counts, rates: Rates, bySource: seq<Row>, topLandingPages: seq<Page>)

  function Total(jobs: seq<Job>, counts: Job -> Counts): Counts {
    if jobs == [] then ZERO else Add(counts(jobs[0]), Total(jobs[1..], counts))
  }

  /** The counts of one source's jobs, and none for the others. */
  function From(source: Job -> string, counts: Job -> Counts, key: string): Job -> Counts {
    (job: Job) => if source(job) == key then counts(job) else ZERO
  }

  /** Add to the group of this key, or open one after the others. */
  function Accumulate(groups: seq<Group>, key: string, counts: Counts): seq<Group> {
    if groups == [] then [Group(key, counts)]
    else if groups[0].key == key then [Group(key, Add(groups[0].totals, counts))] + groups[1..]
    else [groups[0]] + Accumulate(groups[1..], key, counts)
  }

  /** The groups in order of first appearance. */
  function Groups(jobs: seq<Job>, source: Job -> string, counts: Job -> Counts): seq<Group> {
    if jobs == [] then []
    else
      var job := jobs[|jobs| - 1];
      Accumulate(Groups(jobs[..|jobs| - 1], source, counts), source(job), counts(job))
  }

  function RowOf(round: Rounding): Group -> Row {
    (g: Group) => Row(g.key, g.totals, RatesOf(round, g.totals))
  }

  /** Most leads first, then the key's place in the collation. */
  function Place(weight: string -> int): Row -> Key {
    (r: Row) => [-r.totals.created, weight(r.key)]
  }

  function PageFrom(): Group -> Page {
    (g: Group) => Page(g.key, g.totals.created, g.totals.booked, g.totals.completed)
  }

  function PagePlace(weight: string -> int): Page -> Key {
    (p: Page) => [-p.created, weight(p.path)]
  }

  function ReportOf(jobs: seq<Job>, weight: string -> int, round: Rounding): Report {
    var totals := Total(jobs, JobCounts);
    Report(totals, RatesOf(round, totals), Sort(Map(Groups(jobs, SourceKey, JobCounts), RowOf(round)), Place(weight)),
           Sort(Map(Groups(Filter(jobs, HasPage), PageOf, JobCounts), PageFrom()), PagePlace(weight)))
  }

  // ----- grouping -----

  predicate Keyed(groups: seq<Group>) {
    forall i, j | 0 <= i < j < |groups| :: groups[i].key != groups[j].key
  }

  predicate HasKey(groups: seq<Group>, key: string) {
    exists g <- groups :: g.key == key
  }

  lemma {:induction false} AccumulateOpens(groups: seq<Group>, key: string, counts: Counts)
    requires !HasKey(groups, key)
    ensures Accumulate(groups, key, counts) == groups + [Group(key, counts)]
  {
    if groups != [] {
      assert forall g <- groups[1..] :: g in groups;
      assert groups[0] in groups;
      AccumulateOpens(groups[1..], key, counts);
    }
  }

  lemma {:induction false} AccumulateAdds(groups: seq<Group>, i: nat, counts: Counts)
    requires Keyed(groups) && i < |groups|
    ensures Accumulate(groups, groups[i].key, counts)
        == groups[i := Group(groups[i].key, Add(groups[i].totals, counts))]
  {
    var sum := Group(groups[i].key, Add(groups[i].totals, counts));
    if i == 0 {
      assert groups[0 := sum] == [sum] + groups[1..];
    } else {
      var rest := groups[1..];
      assert rest[i - 1] == groups[i];
      AccumulateAdds(rest, i - 1, counts);
      assert groups[0].key != groups[i].key;
      assert groups[i := sum] == [groups[0]] + rest[i - 1 := sum];
    }
  }

  lemma AccumulateKeepsKeyed(groups: seq<Group>, key: string, counts: Counts)
    requires Keyed(groups)
    ensures Keyed(Accumulate(groups, key, counts))
    ensures forall k :: HasKey(Accumulate(groups, key, counts), k) <==> HasKey(groups, k) || k == key
  {
    if HasKey(groups, key) {
      var i :| 0 <= i < |groups| && groups[i].key == key;
      AccumulateAdds(groups, i, counts);
      var after := groups[i := Group(key, Add(groups[i].totals, counts))];
      forall k
        ensures HasKey(after, k) <==> HasKey(groups, k)
      {
        assert forall j | 0 <= j < |groups| ::
          after[j].key == groups[j].key && after[j] in after && groups[j] in groups;
      }
    } else {
      AccumulateOpens(groups, key, counts);
      var last := Group(key, counts);
      assert last in groups + [last];
      assert forall g <- groups :: g in groups + [last] && g.key != key;
    }
  }

  lemma AddAssociates(a: Counts, b: Counts, c: Counts)
    ensures Add(a, Add(b, c)) == Add(Add(a, b), c) && Add(a, b) == Add(b, a)
  {
  }

  lemma AddZero(a: Counts)
    ensures Add(ZERO, a) == a && Add(a, ZERO) == a
  {
  }

  lemma {:induction false} TotalAppend(jobs: seq<Job>, job: Job, counts: Job -> Counts)
    ensures Total(jobs + [job], counts) == Add(Total(jobs, counts), counts(job))
  {
    if jobs == [] {
      assert [] + [job] == [job];
      assert [job][1..] == [];
      AddZero(counts(job));
    } else {
      TotalAppend(jobs[1..], job, counts);
      assert (jobs + [job])[1..] == jobs[1..] + [job];
      AddAssociates(counts(jobs[0]), Total(jobs[1..], counts), counts(job));
    }
  }

  /** One group for each source key, holding the total of that key's jobs. */
  predicate Grouped(groups: seq<Group>, jobs: seq<Job>, source: Job -> string, counts: Job -> Counts) {
    && Keyed(groups)
    && (forall g <- groups :: g.totals == Total(jobs, From(source, counts, g.key)))
    && (forall job <- jobs :: HasKey(groups, source(job)))
    && (forall g <- groups :: exists job <- jobs :: source(job) == g.key)
  }

  lemma {:induction false} NothingAdds(jobs: seq<Job>, counts: Job -> Counts)
    requires forall i | 0 <= i < |jobs| :: counts(jobs[i]) == ZERO
    ensures Total(jobs, counts) == ZERO
  {
    if jobs != [] {
      var rest := jobs[1..];
      assert forall i | 0 <= i < |rest| :: rest[i] == jobs[i + 1];
      AddZero(Total(rest, counts));
      NothingAdds(rest, counts);
    }
  }

  lemma NoneFrom(jobs: seq<Job>, source: Job -> string, counts: Job -> Counts, key: string)
    requires forall job <- jobs :: source(job) != key
    ensures Total(jobs, From(source, counts, key)) == ZERO
  {
    NothingAdds(jobs, From(source, counts, key));
  }

  lemma TotalFrom(jobs: seq<Job>, source: Job -> string, counts: Job -> Counts, job: Job, key: string)
    ensures Total(jobs + [job], From(source, counts, key)) ==
      if source(job) == key then Add(Total(jobs, From(source, counts, key)), counts(job))
          else Total(jobs, From(source, counts, key))
  {
    TotalAppend(jobs, job, From(source, counts, key));
    AddZero(Total(jobs, From(source, counts, key)));
  }

  lemma FirstFrom(jobs: seq<Job>, source: Job -> string, counts: Job -> Counts, job: Job)
    requires forall other <- jobs :: source(other) != source(job)
    ensures Total(jobs + [job], From(source, counts, source(job))) == counts(job)
  {
    TotalFrom(jobs, source, counts, job, source(job));
    NoneFrom(jobs, source, counts, source(job));
    AddZero(counts(job));
  }

  lemma AccumulatedTotals(groups: seq<Group>, jobs: seq<Job>, source: Job -> string, counts: Job -> Counts, job: Job,
      g: Group)
    requires Grouped(groups, jobs, source, counts) && g in Accumulate(groups, source(job), counts(job))
    ensures g.totals == Total(jobs + [job], From(source, counts, g.key))
  {
    var key, added := source(job), counts(job);
    if HasKey(groups, key) {
      var i :| 0 <= i < |groups| && groups[i].key == key;
      AccumulateAdds(groups, i, added);
      assert groups[i] in groups;
      TotalFrom(jobs, source, counts, job, g.key);
    } else {
      AccumulateOpens(groups, key, added);
      if g in groups {
        TotalFrom(jobs, source, counts, job, g.key);
      } else {
        FirstFrom(jobs, source, counts, job);
      }
    }
  }

  lemma {:induction false} GroupsAreTheSources(jobs: seq<Job>, source: Job -> string, counts: Job -> Counts)
    ensures Grouped(Groups(jobs, source, counts), jobs, source, counts)
  {
    if jobs != [] {
      var before, job := jobs[..|jobs| - 1], jobs[|jobs| - 1];
      var earlier, groups := Groups(before, source, counts), Groups(jobs, source, counts);
      GroupsAreTheSources(before, source, counts);
      assert jobs == before + [job];
      AccumulateKeepsKeyed(earlier, source(job), counts(job));
      forall g <- groups
        ensures g.totals == Total(jobs, From(source, counts, g.key))
        ensures exists other <- jobs :: source(other) == g.key
      {
        AccumulatedTotals(earlier, before, source, counts, job, g);
        assert HasKey(groups, g.key);
        assert job in jobs && forall other <- before :: other in jobs;
      }
    }
  }

  // ----- aggregate -----

  /** An entry of the source map; the map keeps its entries in order of insertion. */
  datatype Entry = Entry(key: string, counters: ReportCounts)

  /** Where Map.get finds the key, or the number of entries. */
  function Lookup(sources: seq<Entry>, key: string): (i: nat)
    ensures i <= |sources|
    ensures i < |sources| ==> sources[i].key == key
    ensures forall j | 0 <= j < i :: sources[j].key != key
  {
    if sources == [] || sources[0].key == key then 0 else 1 + Lookup(sources[1..], key)
  }

  ghost predicate OwnCounters(sources: seq<Entry>) {
    forall i, j | 0 <= i < j < |sources| :: sources[i].counters != sources[j].counters
  }

  /** The entries are the groups, the sums held in counters. */
  ghost predicate Holds(sources: seq<Entry>, groups: seq<Group>)
    reads set e <- sources :: e.counters
  {
    && |sources| == |groups|
    && forall i | 0 <= i < |sources| :: Group(sources[i].key, sources[i].counters.Value()) == groups[i]
  }

  lemma LookupFails(sources: seq<Entry>, groups: seq<Group>, key: string)
    requires Holds(sources, groups) && Lookup(sources, key) == |sources|
    ensures !HasKey(groups, key)
  {
    assert forall j | 0 <= j < |groups| :: groups[j].key == sources[j].key;
  }

  /** The update in place: the counters of one entry, and no other's. */
  method AddToFound(sources: seq<Entry>, i: nat, counts: Counts, ghost groups: seq<Group>)
    requires Holds(sources, groups) && OwnCounters(sources) && i < |sources|
    modifies sources[i].counters
    ensures Holds(sources, groups[i := Group(groups[i].key, Add(groups[i].totals, counts))])
  {
    ghost var sum := Add(sources[i].counters.Value(), counts);
    assert groups[i] == Group(sources[i].key, sources[i].counters.Value());
    sources[i].counters.AddCounts(counts);
    assert sources[i].counters.Value() == sum;
  }

  /** A copy of the job's counts becomes the new source's counters. */
  method OpenSource(sources: seq<Entry>, key: string, counts: Counts, ghost groups: seq<Group>)
      returns (grown: seq<Entry>)
    requires Holds(sources, groups) && OwnCounters(sources)
    ensures Holds(grown, groups + [Group(key, counts)]) && OwnCounters(grown)
    ensures |grown| == |sources| + 1 && sources <= grown && fresh(grown[|sources|].counters)
  {
    var own := new ReportCounts(counts);
    assert forall j | 0 <= j < |sources| :: sources[j].counters != own;
    grown := sources + [Entry(key, own)];
  }

  /** Adds to the source's counters, or gives a new source counters of its own. */
  method AddTo(sources: seq<Entry>, key: string, counts: Counts, ghost groups: seq<Group>) returns (grown: seq<Entry>)
    requires Keyed(groups) && Holds(sources, groups) && OwnCounters(sources)
    modifies set e <- sources :: e.counters
    ensures Holds(grown, Accumulate(groups, key, counts)) && OwnCounters(grown)
    ensures sources <= grown && forall i | |sources| <= i < |grown| :: fresh(grown[i].counters)
  {
    var i := Lookup(sources, key);
    if i < |sources| {
      assert groups[i].key == key;
      AccumulateAdds(groups, i, counts);
      AddToFound(sources, i, counts, groups);
      grown := sources;
    } else {
      LookupFails(sources, groups, key);
      AccumulateOpens(groups, key, counts);
      grown := OpenSource(sources, key, counts, groups);
    }
  }

  /** The groups and totals of one more job. */
  lemma NextJob(jobs: seq<Job>, n: nat, source: Job -> string, counts: Job -> Counts)
    requires n < |jobs|
    ensures Total(jobs[..n + 1], counts) == Add(Total(jobs[..n], counts), counts(jobs[n]))
    ensures Keyed(Groups(jobs[..n], source, counts))
    ensures Groups(jobs[..n + 1], source, counts)
        == Accumulate(Groups(jobs[..n], source, counts), source(jobs[n]), counts(jobs[n]))
  {
    assert jobs[..n + 1] == jobs[..n] + [jobs[n]];
    assert jobs[..n + 1][..n] == jobs[..n];
    TotalAppend(jobs[..n], jobs[n], counts);
    GroupsAreTheSources(jobs[..n], source, counts);
  }

  lemma NoJobs(jobs: seq<Job>, source: Job -> string, counts: Job -> Counts)
    ensures Total(jobs[..0], counts) == ZERO && Groups(jobs[..0], source, counts) == []
  {
  }

  lemma {:induction false} FilterAppend(jobs: seq<Job>, job: Job, p: Job -> bool)
    ensures Filter(jobs + [job], p) == Filter(jobs, p) + (if p(job) then [job] else [])
  {
    if jobs == [] {
      assert jobs + [job] == [job] && [job][1..] == [];
    } else {
      FilterAppend(jobs[1..], job, p);
      assert (jobs + [job])[1..] == jobs[1..] + [job];
    }
  }

  /** The groups of one more job, if it belongs to any. */
  lemma NextPage(jobs: seq<Job>, n: nat, paged: Job -> bool, path: Job -> string, counts: Job -> Counts)
    requires n < |jobs|
    ensures var groups := Groups(Filter(jobs[..n], paged), path, counts);
      Keyed(groups) && Groups(Filter(jobs[..n + 1], paged), path, counts)
        == if paged(jobs[n]) then Accumulate(groups, path(jobs[n]), counts(jobs[n])) else groups
  {
    var before := Filter(jobs[..n], paged);
    assert jobs[..n + 1] == jobs[..n] + [jobs[n]];
    FilterAppend(jobs[..n], jobs[n], paged);
    GroupsAreTheSources(before, path, counts);
    if paged(jobs[n]) {
      assert (before + [jobs[n]])[..|before|] == before;
    } else {
      assert before + [] == before;
    }
  }

  ghost predicate Apart(some: seq<Entry>, others: seq<Entry>, totals: ReportCounts) {
    && (forall e <- some :: e.counters != totals)
    && (forall e <- others :: e.counters != totals)
    && (forall e <- some, f <- others :: e.counters != f.counters)
  }

  /** The overall counters and the two maps hold these totals and groups. */
  ghost predicate Collected(totals: ReportCounts, sources: seq<Entry>, pages: seq<Entry>, total: Counts,
                            groups: seq<Group>, pageGroups: seq<Group>)
    reads totals, set e <- sources :: e.counters, set e <- pages :: e.counters
  {
    && totals.Value() == total && Holds(sources, groups) && Holds(pages, pageGroups)
    && Apart(sources, pages, totals) && OwnCounters(sources) && OwnCounters(pages)
    && Keyed(groups) && Keyed(pageGroups)
  }

  method CountSource(totals: ReportCounts, sources: seq<Entry>, pages: seq<Entry>, key: string, counts: Counts,
                     ghost total: Counts, ghost groups: seq<Group>, ghost pageGroups: seq<Group>)
                         returns (grown: seq<Entry>)
    requires Collected(totals, sources, pages, total, groups, pageGroups)
    modifies totals, set e <- sources :: e.counters
    ensures Collected(totals, grown, pages, Add(total, counts), Accumulate(groups, key, counts), pageGroups)
    ensures sources <= grown && forall i | |sources| <= i < |grown| :: fresh(grown[i].counters)
  {
    AccumulateKeepsKeyed(groups, key, counts);
    totals.AddCounts(counts);
    assert Holds(sources, groups) && Holds(pages, pageGroups);
    grown := AddTo(sources, key, counts, groups);
    assert Holds(pages, pageGroups);
  }

  method CountPage(totals: ReportCounts, sources: seq<Entry>, pages: seq<Entry>, path: string, counts: Counts,
                   ghost total: Counts, ghost groups: seq<Group>, ghost pageGroups: seq<Group>)
                       returns (grown: seq<Entry>)
    requires Collected(totals, sources, pages, total, groups, pageGroups)
    modifies set e <- pages :: e.counters
    ensures Collected(totals, sources, grown, total, groups, Accumulate(pageGroups, path, counts))
    ensures pages <= grown && forall i | |pages| <= i < |grown| :: fresh(grown[i].counters)
  {
    AccumulateKeepsKeyed(pageGroups, path, counts);
    grown := AddTo(pages, path, counts, pageGroups);
    assert Holds(sources, groups);
  }

  /** One turn of the loop; `path` is the job's landing page. */
  method CountJob(totals: ReportCounts, sources: seq<Entry>, pages: seq<Entry>, key: string, path: Option<string>,
                  counts: Counts, ghost total: Counts, ghost groups: seq<Group>, ghost pageGroups: seq<Group>)
    returns (moreSources: seq<Entry>, morePages: seq<Entry>)
    requires Collected(totals, sources, pages, total, groups, pageGroups)
    modifies totals, set e <- sources :: e.counters, set e <- pages :: e.counters
    ensures Collected(totals, moreSources, morePages, Add(total, counts), Accumulate(groups, key, counts),
                      if path.Some? then Accumulate(pageGroups, path.value, counts) else pageGroups)
    ensures sources <= moreSources && forall i | |sources| <= i < |moreSources| :: fresh(moreSources[i].counters)
    ensures pages <= morePages && forall i | |pages| <= i < |morePages| :: fresh(morePages[i].counters)
  {
    moreSources := CountSource(totals, sources, pages, key, counts, total, groups, pageGroups);
    morePages := pages;
    if path.Some? {
      morePages := CountPage(totals, moreSources, pages, path.value, counts, Add(total, counts),
                             Accumulate(groups, key, counts), pageGroups);
    }
  }

  /** The turn for the n-th job, on the totals and groups of those before it. */
  method CountNext(totals: ReportCounts, sources: seq<Entry>, pages: seq<Entry>, jobs: seq<Job>, n: nat,
                   source: Job -> string, counts: Job -> Counts, paged: Job -> bool, path: Job -> string)
    returns (moreSources: seq<Entry>, morePages: seq<Entry>)
    requires n < |jobs|
    requires Collected(totals, sources, pages, Total(jobs[..n], counts), Groups(jobs[..n], source, counts),
                       Groups(Filter(jobs[..n], paged), path, counts))
    modifies totals, set e <- sources :: e.counters, set e <- pages :: e.counters
    ensures Collected(totals, moreSources, morePages, Total(jobs[..n + 1], counts),
        Groups(jobs[..n + 1], source, counts),
                      Groups(Filter(jobs[..n + 1], paged), path, counts))
    ensures sources <= moreSources && forall i | |sources| <= i < |moreSources| :: fresh(moreSources[i].counters)
    ensures pages <= morePages && forall i | |pages| <= i < |morePages| :: fresh(morePages[i].counters)
  {
    var job := jobs[n];
    NextJob(jobs, n, source, counts);
    NextPage(jobs, n, paged, path, counts);
    moreSources, morePages := CountJob(totals, sources, pages, source(job), if paged(job) then Some(path(job))
        else None,
                                       counts(job), Total(jobs[..n], counts), Groups(jobs[..n], source, counts),
                                       Groups(Filter(jobs[..n], paged), path, counts));
  }

  /** The loop over the jobs, with its two maps. */
  method Collect(jobs: seq<Job>, source: Job -> string, counts: Job -> Counts, paged: Job -> bool, path: Job -> string)
    returns (totals: ReportCounts, sources: seq<Entry>, pages: seq<Entry>)
    ensures totals.Value() == Total(jobs, counts)
    ensures Holds(sources, Groups(jobs, source, counts))
    ensures Holds(pages, Groups(Filter(jobs, paged), path, counts))
  {
    NoJobs(jobs, source, counts);
    totals := new ReportCounts(ZERO);
    sources, pages := [], [];
    for n := 0 to |jobs|
      invariant fresh(totals) && (forall e <- sources :: fresh(e.counters)) && (forall e <- pages :: fresh(e.counters))
      invariant Collected(totals, sources, pages, Total(jobs[..n], counts), Groups(jobs[..n], source, counts),
                          Groups(Filter(jobs[..n], paged), path, counts))
    {
      sources, pages := CountNext(totals, sources, pages, jobs, n, source, counts, paged, path);
    }
    assert jobs[..|jobs|] == jobs;
  }

  method SourceRows(sources: seq<Entry>, round: Rounding, ghost groups: seq<Group>) returns (rows: seq<Row>)
    requires Holds(sources, groups)
    ensures rows == Map(groups, RowOf(round))
  {
    MapHolds(groups, RowOf(round));
    rows := [];
    for i := 0 to |sources|
      invariant |rows| == i && forall j | 0 <= j < i :: rows[j] == RowOf(round)(groups[j])
    {
      var sum := sources[i].counters.Value();
      rows := rows + [Row(sources[i].key, sum, RatesOf(round, sum))];
    }
  }

  method LandingPages(pages: seq<Entry>, ghost groups: seq<Group>) returns (rows: seq<Page>)
    requires Holds(pages, groups)
    ensures rows == Map(groups, PageFrom())
  {
    MapHolds(groups, PageFrom());
    rows := [];
    for i := 0 to |pages|
      invariant |rows| == i && forall j | 0 <= j < i :: rows[j] == PageFrom()(groups[j])
    {
      var sum := pages[i].counters.Value();
      rows := rows + [Page(pages[i].key, sum.created, sum.booked, sum.completed)];
    }
  }

  method Aggregate(jobs: seq<Job>, weight: string -> int, round: Rounding) returns (report: Report)
    ensures report == ReportOf(jobs, weight, round)
  {
    var totals, sources, pages := Collect(jobs, SourceKey, JobCounts, HasPage, PageOf);
    var rows := SourceRows(sources, round, Groups(jobs, SourceKey, JobCounts));
    var tops := LandingPages(pages, Groups(Filter(jobs, HasPage), PageOf, JobCounts));
    var overall := totals.Value();
    report := Report(overall, RatesOf(round, overall), Sort(rows, Place(weight)), Sort(tops, PagePlace(weight)));
  }
}
