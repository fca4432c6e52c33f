/** src/reporting/reporting.service.ts: what is counted, under which key, in which order,
    said on the jobs alone. */
module ReportRules {
  import opened Common
  import opened Sorting
  import opened Reporting
  import opened ReportOutcomes

  // ----- what counts -----

  /** A job that was ever accepted stays booked, and one that was ever completed stays
      completed, whatever becomes of it; otherwise its status says so. */
  lemma JobCounted(job: Job)
    ensures var c := JobCounts(job);
      && c.created == 1
      && c.booked == (if job.acceptedAt != None || job.status == JobStatus.Accepted || job.status == InProgress
                         || job.status == JobStatus.Completed then 1 else 0)
      && c.completed == (if job.completedAt != None || job.status == JobStatus.Completed then 1 else 0)
      && c.cancelled == (if job.status == JobStatus.Cancelled then 1 else 0)
      && c.attributed == (if job.lead.Some? && job.lead.value.websiteChat then 1 else 0)
      && c.attributed + c.unattributed == 1
  {
  }

  /** leadToBooking is booked over created, and bookedToCompleted completed over booked. */
  lemma RatesAre(counts: Counts)
    requires counts.created > 0 && counts.booked > 0
    ensures var rates := RatesOf(x => x, counts);
      && -0.00005 <= rates.leadToBooking - counts.booked as real / counts.created as real <= 0.00005
      && -0.00005 <= rates.bookedToCompleted - counts.completed as real / counts.booked as real <= 0.00005
  {
    ExactRatioIsClose(counts.booked, counts.created);
    ExactRatioIsClose(counts.completed, counts.booked);
  }

  lemma ExactRatioIsClose(numerator: int, denominator: int)
    requires denominator > 0
    ensures -0.00005 <= Ratio(x => x, numerator, denominator) - numerator as real / denominator as real <= 0.00005
  {
    var exact := numerator as real / denominator as real;
    HalfUp(exact * 10000.0, (exact * 10000.0 + 0.5).Floor as real);
  }

  /** To the nearest fourth decimal, and half of one upwards; nothing over nothing is zero. */
  lemma RatioRounds(numerator: int, denominator: int)
    ensures denominator <= 0 ==> Ratio(x => x, numerator, denominator) == 0.0
    ensures denominator > 0 ==>
      RoundsTo(Ratio(x => x, numerator, denominator), numerator as real / denominator as real)
  {
    if denominator > 0 {
      var exact := numerator as real / denominator as real;
      var k := (exact * 10000.0 + 0.5).Floor;
      assert Rounded(k, exact);
    }
  }

  predicate Rounded(k: int, exact: real) {
    k as real - 0.5 <= exact * 10000.0 < k as real + 0.5
  }

  ghost predicate RoundsTo(rate: real, exact: real) {
    exists k: int :: Rounded(k, exact) && rate == k as real / 10000.0
  }

  // ----- keys -----

  /** A text is the trimmed words, cut; a missing or blank one has its stand-in. */
  lemma TextIs(candidate: Option<string>, limit: nat, missing: string)
    ensures var text := Text(candidate, limit, missing);
      if candidate == None || Trim(candidate.value) == "" then text == missing
      else text <= Trim(candidate.value) && |text| == Min(limit, |Trim(candidate.value)|)
  {
  }

  lemma PlainText(words: string, limit: nat, missing: string)
    requires Trim(words) == words != "" && |words| <= limit
    ensures Text(Some(words), limit, missing) == words
  {
  }

  /** The key of an attributed job names channel, source, medium and campaign in order. */
  lemma KeyIs(job: Job, source: string, medium: string, campaign: string)
    requires job.lead.Some? && job.lead.value.websiteChat
    requires job.lead.value.utmSource == Some(source) && Trim(source) == source != "" && |source| <= 100
    requires job.lead.value.utmMedium == Some(medium) && Trim(medium) == medium != "" && |medium| <= 100
    requires job.lead.value.utmCampaign == Some(campaign) && Trim(campaign) == campaign != "" && |campaign| <= 160
    ensures SourceKey(job) == "website_chat" + "|" + source + "|" + medium + "|" + campaign
  {
    PlainText(source, 100, "direct");
    PlainText(medium, 100, "none");
    PlainText(campaign, 160, "none");
  }

  /** Without any of the three it says so. */
  lemma BareKey(job: Job)
    requires job.lead.Some? && job.lead.value.websiteChat
    requires job.lead.value.utmSource == None && job.lead.value.utmMedium == None && job.lead.value.utmCampaign == None
    ensures SourceKey(job) == "website_chat|direct|none|none"
  {
  }

  /** Without attribution the key says that. */
  lemma NoKey(job: Job)
    requires job.lead == None || !job.lead.value.websiteChat
    ensures SourceKey(job) == "unattributed"
  {
  }

  // ----- order -----

  lemma TwoCriteria(a: Key, b: Key)
    requires |a| == |b| == 2 && Less(a, b)
    ensures a[0] < b[0] || (a[0] == b[0] && a[1] < b[1])
  {
    FirstCriterion(a, b);
    FirstCriterion(a[1..], b[1..]);
    assert a[1..][1..] == [] && b[1..][1..] == [];
  }

  /** Sources with more leads come first, and equal ones by their key. */
  lemma SourcesByLeads(jobs: seq<Job>, weight: string -> int, round: Rounding)
    requires Separates(weight, jobs, SourceKey)
    ensures var rows := ReportOf(jobs, weight, round).bySource;
      forall i, j | 0 <= i < j < |rows| ::
        rows[i].totals.created > rows[j].totals.created
        || (rows[i].totals.created == rows[j].totals.created && weight(rows[i].key) < weight(rows[j].key))
  {
    RowsAreTheSources(jobs, weight, round);
    var rows := ReportOf(jobs, weight, round).bySource;
    forall i, j | 0 <= i < j < |rows|
      ensures rows[i].totals.created > rows[j].totals.created
        || (rows[i].totals.created == rows[j].totals.created && weight(rows[i].key) < weight(rows[j].key))
    {
      TwoCriteria(Place(weight)(rows[i]), Place(weight)(rows[j]));
    }
  }

  // ----- landing pages -----

  /** The job came by a page that is a path of at most two hundred plain characters. */
  predicate CameBy(job: Job, path: string) {
    && job.lead.Some? && job.lead.value.websiteChat && job.lead.value.landingPage == Some(path)
    && 1 <= |path| <= 200 && path[0] == '/'
    && forall c <- path :: 'a' <= c <= 'z' || 'A' <= c <= 'Z' || '0' <= c <= '9' || c == '/' || c == '_' || c == '-'
  }

  lemma CameByIff(job: Job, path: string)
    ensures CameBy(job, path) <==> HasPage(job) && PageOf(job) == path
  {
    if job.lead.Some? && job.lead.value.landingPage.Some? {
      var p := job.lead.value.landingPage.value;
      assert (forall c <- p :: IsPathChar(c)) <==>
        forall c <- p :: 'a' <= c <= 'z' || 'A' <= c <= 'Z' || '0' <= c <= '9' || c == '/' || c == '_' || c == '-';
    }
  }

  /** The jobs of a page with a property. */
  function ByPage(path: string, p: Job -> bool): Job -> bool {
    (job: Job) => HasPage(job) && PageOf(job) == path && p(job)
  }

  function Any(): Job -> bool {
    (job: Job) => true
  }

  predicate Bits(c: Counts, created: bool, booked: bool, completed: bool) {
    && c.created == (if created then 1 else 0)
    && c.booked == (if booked then 1 else 0)
    && c.completed == (if completed then 1 else 0)
  }

  lemma {:induction false} BitsAdd(jobs: seq<Job>, counts: Job -> Counts, p: Job -> bool, q: Job -> bool,
      r: Job -> bool)
    requires forall i | 0 <= i < |jobs| :: Bits(counts(jobs[i]), p(jobs[i]), q(jobs[i]), r(jobs[i]))
    ensures var t := Total(jobs, counts);
      t.created == Count(jobs, p) && t.booked == Count(jobs, q) && t.completed == Count(jobs, r)
  {
    if jobs != [] {
      var rest := jobs[1..];
      assert forall i | 0 <= i < |rest| :: rest[i] == jobs[i + 1];
      BitsAdd(rest, counts, p, q, r);
      assert Bits(counts(jobs[0]), p(jobs[0]), q(jobs[0]), r(jobs[0]));
    }
  }

  lemma {:induction false} FilteredCount(jobs: seq<Job>, p: Job -> bool, q: Job -> bool, both: Job -> bool)
    requires forall i | 0 <= i < |jobs| :: both(jobs[i]) <==> p(jobs[i]) && q(jobs[i])
    ensures Count(Filter(jobs, p), q) == Count(jobs, both)
  {
    if jobs != [] {
      var rest := jobs[1..];
      assert forall i | 0 <= i < |rest| :: rest[i] == jobs[i + 1];
      FilteredCount(rest, p, q, both);
      if p(jobs[0]) {
        assert Filter(jobs, p)[1..] == Filter(rest, p);
      } else {
        assert Filter(jobs, p) == Filter(rest, p);
      }
    }
  }

  /** Among jobs that came by some page, those of one with a property. */
  function Here(path: string, p: Job -> bool): Job -> bool {
    (job: Job) => PageOf(job) == path && p(job)
  }

  lemma PageBits(job: Job, path: string)
    ensures Bits(From(PageOf, JobCounts, path)(job), Here(path, Any())(job), Here(path, IsBooked)(job),
                 Here(path, IsCompleted)(job))
  {
    var counts := From(PageOf, JobCounts, path);
    assert counts(job) == if PageOf(job) == path then JobCounts(job) else ZERO;
  }

  lemma PageTotals(jobs: seq<Job>, path: string)
    ensures var t := Total(Filter(jobs, HasPage), From(PageOf, JobCounts, path));
      && t.created == Count(jobs, ByPage(path, Any()))
      && t.booked == Count(jobs, ByPage(path, IsBooked))
      && t.completed == Count(jobs, ByPage(path, IsCompleted))
  {
    var paged, counts := Filter(jobs, HasPage), From(PageOf, JobCounts, path);
    var here, booked, completed := Here(path, Any()), Here(path, IsBooked), Here(path, IsCompleted);
    forall i | 0 <= i < |paged|
      ensures Bits(counts(paged[i]), here(paged[i]), booked(paged[i]), completed(paged[i]))
    {
      PageBits(paged[i], path);
    }
    BitsAdd(paged, counts, here, booked, completed);
    FilteredCount(jobs, HasPage, here, ByPage(path, Any()));
    FilteredCount(jobs, HasPage, booked, ByPage(path, IsBooked));
    FilteredCount(jobs, HasPage, completed, ByPage(path, IsCompleted));
  }

  /** Every page of the table has the created, booked and completed jobs that came by it. */
  lemma PagesAreCounted(jobs: seq<Job>, weight: string -> int, round: Rounding)
    ensures forall page <- ReportOf(jobs, weight, round).topLandingPages ::
      && page.created == Count(jobs, ByPage(page.path, Any()))
      && page.booked == Count(jobs, ByPage(page.path, IsBooked))
      && page.completed == Count(jobs, ByPage(page.path, IsCompleted))
  {
    var paged := Filter(jobs, HasPage);
    var groups := Groups(paged, PageOf, JobCounts);
    GroupsAreTheSources(paged, PageOf, JobCounts);
    MapMembers(groups, PageFrom());
    SortHolds(Map(groups, PageFrom()), PagePlace(weight));
    forall page <- ReportOf(jobs, weight, round).topLandingPages
      ensures page.created == Count(jobs, ByPage(page.path, Any()))
      ensures page.booked == Count(jobs, ByPage(page.path, IsBooked))
      ensures page.completed == Count(jobs, ByPage(page.path, IsCompleted))
    {
      var g :| g in groups && page == PageFrom()(g);
      PageTotals(jobs, g.key);
    }
  }

  /** Pages with more leads come first, and equal ones by their path. */
  lemma PagesByLeads(jobs: seq<Job>, weight: string -> int, round: Rounding)
    requires Separates(weight, Filter(jobs, HasPage), PageOf)
    ensures var pages := ReportOf(jobs, weight, round).topLandingPages;
      forall i, j | 0 <= i < j < |pages| ::
        pages[i].created > pages[j].created
        || (pages[i].created == pages[j].created && weight(pages[i].path) < weight(pages[j].path))
  {
    var groups := Groups(Filter(jobs, HasPage), PageOf, JobCounts);
    GroupKeysDiffer(Filter(jobs, HasPage), PageOf, JobCounts, weight);
    PagePlacesDiffer(groups, weight);
    SortAscends(Map(groups, PageFrom()), PagePlace(weight));
    var pages := ReportOf(jobs, weight, round).topLandingPages;
    forall i, j | 0 <= i < j < |pages|
      ensures pages[i].created > pages[j].created
        || (pages[i].created == pages[j].created && weight(pages[i].path) < weight(pages[j].path))
    {
      TwoCriteria(PagePlace(weight)(pages[i]), PagePlace(weight)(pages[j]));
    }
  }
}
