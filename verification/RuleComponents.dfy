/** The rule components of a match score: what a profile, a job and its analysis contribute, each from 0 to 100.
    Numbers of years and amounts are reals, text operations are those of the caller. */
module RuleComponents {
  import opened Prelude
  import opened JobIdentity
  import opened JobStore
  import opened Tenths

  type Score = r: real | 0.0 <= r <= 100.0

  const NEUTRAL: Score := 50.0

  datatype Mode = Remote | Hybrid | Onsite

  /** A preference for one mode, or for any. */
  datatype Wanted = Only(mode: Mode) | Any

  datatype Profile = Profile(
    roles: seq<string>, skills: set<string>, years: Option<real>, wanted: Wanted, locations: seq<string>,
    currency: string, minimum: Option<real>, preferred: Option<real>, industries: seq<string>,
    likedCompanies: seq<string>, excludedCompanies: seq<string>)

  datatype JobFacts = JobFacts(
    title: string, haystack: string, location: Option<string>, company: string, remote: bool, hybrid: bool,
    experienceMin: Option<real>, experienceMax: Option<real>, salaryMax: Option<real>, currency: Option<string>)

  datatype Salary = Salary(max: Option<real>, currency: Option<string>)

  /** What an analysis of the job found; skills are stripped and case-folded. */
  datatype Analysis = Analysis(
    title: Option<string>, required: set<string>, preferred: set<string>, listsSkills: bool,
    experienceMin: Option<real>, experienceMax: Option<real>, salary: Option<Salary>, mode: Option<Mode>,
    industry: Option<string>)

  /** The text operations of the host language. */
  datatype Words = Words(
    text: Text, title: string -> string, location: string -> Option<string>, fold: string -> string)

  // ----- percentages -----

  lemma PercentIsScore(v: real, round: Rounding)
    requires 0.0 <= v <= 1.0
    ensures 0.0 <= v * 100.0 <= 100.0 && 0.0 <= round(v * 100.0) <= 100.0
  {
    WholeNumbersStay(round, 0);
    WholeNumbersStay(round, 100);
  }

  function Percent(share: Unit, round: Rounding): Score {
    PercentIsScore(share, round);
    round(share * 100.0)
  }

  lemma PercentOrder(a: Unit, b: Unit, round: Rounding)
    requires a <= b
    ensures Percent(a, round) <= Percent(b, round)
    ensures Percent(a, round) < Percent(b, round) <==> RoundsApart(round, a * 100.0, b * 100.0)
  {
    RoundsLowerIff(round, a * 100.0, b * 100.0);
  }

  // ----- title -----

  function BestTitle(text: Text, roles: seq<string>, titles: seq<string>): (r: Unit)
    requires roles != [] && titles != []
  {
    if |roles| == 1 then BestOf(text, roles[0], titles)
    else MaxR(BestOf(text, roles[0], titles), BestTitle(text, roles[1..], titles))
  }

  function BestOf(text: Text, role: string, titles: seq<string>): (r: Unit)
    requires titles != []
  {
    if |titles| == 1 then TitleSimilarity(text, role, titles[0])
    else MaxR(TitleSimilarity(text, role, titles[0]), BestOf(text, role, titles[1..]))
  }

  function Mapped(xs: seq<string>, f: string -> string): (r: seq<string>)
    ensures |r| == |xs|
  {
    seq(|xs|, i requires 0 <= i < |xs| => f(xs[i]))
  }

  function JobTitles(w: Words, job: JobFacts, analysis: Option<Analysis>): (r: seq<string>)
    ensures r != []
  {
    if analysis.None? || Absent(analysis.value.title) then [job.title]
    else [job.title, w.title(analysis.value.title.value)]
  }

  function RoleScore(w: Words, p: Profile, job: JobFacts, analysis: Option<Analysis>, round: Rounding): Score {
    if p.roles == [] then NEUTRAL
    else
      var best := BestTitle(w.text, Mapped(p.roles, w.title), JobTitles(w, job, analysis));
      Percent(best, round)
  }

  // ----- skills -----

  /** A required skill counts twice a preferred one. */
  function Points(required: set<string>, extra: set<string>): (r: real)
    ensures r >= 0.0
  {
    |required| as real + 0.5 * |extra| as real
  }

  lemma SmallerSet<T>(a: set<T>, b: set<T>)
    requires a <= b
    ensures |a| <= |b|
  {
    assert b == a + (b - a);
  }

  lemma FewerPoints(a: set<string>, x: set<string>, b: set<string>, y: set<string>)
    requires a <= b && x <= y
    ensures Points(a, x) <= Points(b, y)
  {
    SmallerSet(a, b);
    SmallerSet(x, y);
  }

  function Part(covered: real, total: real): (r: Unit)
    requires 0.0 <= covered <= total && total > 0.0
  {
    DivisionOrder(covered, 1.0, total);
    DivisionOrder(covered, 0.0, total);
    covered / total
  }

  /** The share of the job's points that the skills cover. */
  function Coverage(required: set<string>, extra: set<string>, skills: set<string>): (r: Unit)
    requires Points(required, extra) > 0.0
  {
    FewerPoints(required * skills, extra * skills, required, extra);
    Part(Points(required * skills, extra * skills), Points(required, extra))
  }

  function AnalysedScore(required: set<string>, preferred: set<string>, skills: set<string>, round: Rounding): Score {
    var extra := preferred - required;
    if Points(required, extra) == 0.0 then NEUTRAL else Percent(Coverage(required, extra, skills), round)
  }

  function Hits(skills: set<string>, haystack: string): nat {
    |set s | s in skills && Contains(haystack, s)|
  }

  /** Half the skills listed, at least three. */
  function Needed(skills: nat): (n: nat)
    ensures n >= 3
  {
    if skills / 2 > 3 then skills / 2 else 3
  }

  function HitShare(hits: nat, needed: nat): (r: Unit)
    requires needed > 0
  {
    DivisionOrder(hits as real, 0.0, needed as real);
    MinR(1.0, hits as real / needed as real)
  }

  function TextScore(skills: set<string>, haystack: string, round: Rounding): Score {
    Percent(HitShare(Hits(skills, haystack), Needed(|skills|)), round)
  }

  predicate AllBlank(text: string) {
    forall i :: 0 <= i < |text| ==> Blank(text[i])
  }

  function SkillScore(p: Profile, job: JobFacts, analysis: Option<Analysis>, round: Rounding): Score {
    if p.skills == {} then NEUTRAL
    else if analysis.Some? && analysis.value.listsSkills then
      AnalysedScore(analysis.value.required, analysis.value.preferred, p.skills, round)
    else if AllBlank(job.haystack) then NEUTRAL
    else TextScore(p.skills, job.haystack, round)
  }

  // ----- experience -----

  function Bound(own: Option<real>, analysed: Option<real>): Option<real> {
    if own.Some? then own else analysed
  }

  /** The years asked for: the posting's own columns, or else what the analysis found. */
  function Range(job: JobFacts, analysis: Option<Analysis>): (Option<real>, Option<real>) {
    (Bound(job.experienceMin, if analysis.Some? then analysis.value.experienceMin else None),
     Bound(job.experienceMax, if analysis.Some? then analysis.value.experienceMax else None))
  }

  function TooFew(missing: real): real {
    MaxR(0.0, 100.0 - missing * 25.0)
  }

  function TooMany(excess: real): real {
    MaxR(60.0, 100.0 - excess * 10.0)
  }

  function ExperienceScore(p: Profile, job: JobFacts, analysis: Option<Analysis>, round: Rounding): Score {
    var (low, high) := Range(job, analysis);
    WholeNumbersStay(round, 0);
    WholeNumbersStay(round, 100);
    if p.years.None? || (low.None? && high.None?) then NEUTRAL
    else if low.Some? && p.years.value < low.value then round(TooFew(low.value - p.years.value))
    else if high.Some? && p.years.value > high.value then round(TooMany(p.years.value - high.value))
    else 100.0
  }

  // ----- location, salary, work mode, industry, company -----

  predicate Overlaps(a: string, b: string) {
    Contains(a, b) || Contains(b, a)
  }

  function LocationScore(w: Words, p: Profile, job: JobFacts): Score {
    if job.remote && (p.wanted.Any? || p.wanted.mode != Onsite) then 100.0
    else if Absent(job.location) || p.locations == [] then NEUTRAL
    else if exists i | 0 <= i < |p.locations| ::
              !Absent(w.location(p.locations[i])) && Overlaps(w.location(p.locations[i]).value, job.location.value)
    then 100.0
    else 20.0
  }

  function OfferedSalary(job: JobFacts, analysis: Option<Analysis>): Salary {
    if job.salaryMax.None? && analysis.Some? && analysis.value.salary.Some? then analysis.value.salary.value
    else Salary(job.salaryMax, job.currency)
  }

  function SalaryScore(p: Profile, job: JobFacts, analysis: Option<Analysis>): Score {
    var offered := OfferedSalary(job, analysis);
    if offered.max.None? then NEUTRAL
    else if offered.currency.Some? && offered.currency.value != p.currency then NEUTRAL
    else if p.preferred.Some? && offered.max.value >= p.preferred.value then 100.0
    else if p.minimum.Some? then (if offered.max.value >= p.minimum.value then 70.0 else 20.0)
    else if p.preferred.Some? then 70.0
    else NEUTRAL
  }

  function JobMode(job: JobFacts, analysis: Option<Analysis>): Option<Mode> {
    if job.remote then Some(Remote)
    else if job.hybrid then Some(Hybrid)
    else if analysis.Some? then analysis.value.mode
    else None
  }

  predicate Compatible(wanted: Mode, offered: Mode) {
    (wanted == Remote && offered == Hybrid) || (wanted == Hybrid && offered != Hybrid)
  }

  function WorkModeScore(p: Profile, job: JobFacts, analysis: Option<Analysis>): Score {
    var mode := JobMode(job, analysis);
    if mode.None? then NEUTRAL
    else if p.wanted.Any? then 70.0
    else if p.wanted.mode == mode.value then 100.0
    else if Compatible(p.wanted.mode, mode.value) then 70.0
    else 0.0
  }

  function IndustryScore(w: Words, p: Profile, analysis: Option<Analysis>): Score {
    if analysis.None? || Absent(analysis.value.industry) || p.industries == [] then NEUTRAL
    else if exists i | 0 <= i < |p.industries| ::
              w.fold(p.industries[i]) != "" && Overlaps(w.fold(p.industries[i]), w.fold(analysis.value.industry.value))
    then 100.0
    else 0.0
  }

  predicate Names(w: Words, companies: seq<string>, company: string) {
    exists i | 0 <= i < |companies| ::
      KeyOf(w.text, companies[i]) != [] && KeyOf(w.text, companies[i]) == KeyOf(w.text, company)
  }

  function CompanyScore(w: Words, p: Profile, job: JobFacts): Score {
    if Names(w, p.excludedCompanies, job.company) then 0.0
    else if Names(w, p.likedCompanies, job.company) then 100.0
    else NEUTRAL
  }

  /** No watchlist score means no signal. */
  datatype Components = Components(
    role: Score, skill: Score, experience: Score, location: Score, salary: Score,
    workMode: Score, industry: Score, company: Score, watchlist: Option<Score>)

  function ComponentsOf(
    w: Words, p: Profile, job: JobFacts, analysis: Option<Analysis>, watchlist: Option<Score>, round: Rounding)
    : Components
  {
    Components(
      RoleScore(w, p, job, analysis, round), SkillScore(p, job, analysis, round),
      ExperienceScore(p, job, analysis, round), LocationScore(w, p, job), SalaryScore(p, job, analysis),
      WorkModeScore(p, job, analysis), IndustryScore(w, p, analysis), CompanyScore(w, p, job), watchlist)
  }

  // ----- unknown data is neutral -----

  /** A profile that names no wish and no fact about its owner. */
  predicate Silent(p: Profile) {
    p.roles == [] && p.skills == {} && p.years.None? && p.locations == [] && p.minimum.None? && p.preferred.None?
    && p.industries == [] && p.likedCompanies == [] && p.excludedCompanies == []
  }

  /** Against a silent profile every component is neutral, except that a known work mode is worth something in itself:
      a preference cannot be left out. */
  lemma SilentProfileIsNeutral(
    w: Words, p: Profile, job: JobFacts, analysis: Option<Analysis>, round: Rounding)
    requires Silent(p)
    ensures ComponentsOf(w, p, job, analysis, None, round)
         == Components(50.0, 50.0, 50.0, LocationScore(w, p, job), 50.0, WorkModeScore(p, job, analysis), 50.0, 50.0, None)
    ensures JobMode(job, analysis).None? ==>
              LocationScore(w, p, job) == 50.0 && WorkModeScore(p, job, analysis) == 50.0
  {
  }

  // ----- experience peaks inside the range -----

  /** Coming closer to the range never lowers the experience score, from below as long as the minimum is not reached
      or not above the maximum, and from above as long as the minimum is kept. */
  lemma CloserExperienceNeverHurts(
    p: Profile, q: Profile, job: JobFacts, analysis: Option<Analysis>, round: Rounding)
    requires p.years.Some? && q.years.Some?
    requires var (low, high) := Range(job, analysis);
             (low.Some? && p.years.value <= q.years.value <= low.value
              && (q.years.value < low.value || (high.Some? ==> low.value <= high.value)))
             || (high.Some? && high.value <= q.years.value <= p.years.value
                 && (low.Some? ==> low.value <= q.years.value))
    ensures ExperienceScore(p, job, analysis, round) <= ExperienceScore(q, job, analysis, round)
  {
    WholeNumbersStay(round, 100);
  }

  /** A posting may ask for more years than it allows. Then whoever reaches its minimum is above its maximum, and
      scores lower than before exactly when the two penalties round apart. */
  lemma ReachingAReversedMinimumHurtsIff(
    p: Profile, q: Profile, job: JobFacts, analysis: Option<Analysis>, round: Rounding)
    requires p.years.Some? && q.years.Some?
    requires var (low, high) := Range(job, analysis);
             low.Some? && high.Some? && high.value < low.value && p.years.value < low.value <= q.years.value
    ensures var (low, high) := Range(job, analysis);
            var short, over := TooFew(low.value - p.years.value), TooMany(q.years.value - high.value);
            ExperienceScore(q, job, analysis, round) < ExperienceScore(p, job, analysis, round) <==>
            over <= short && RoundsApart(round, over, short)
  {
    var (low, high) := Range(job, analysis);
    var short, over := TooFew(low.value - p.years.value), TooMany(q.years.value - high.value);
    if over <= short {
      RoundsLowerIff(round, over, short);
    }
  }

  // ----- more skills -----

  /** Learning more never lowers the score of an analysed job, once any skill is listed at all. */
  lemma MoreSkillsNeverHurt(
    required: set<string>, preferred: set<string>, few: set<string>, many: set<string>, round: Rounding)
    requires few <= many
    ensures AnalysedScore(required, preferred, few, round) <= AnalysedScore(required, preferred, many, round)
  {
    var extra := preferred - required;
    if Points(required, extra) > 0.0 {
      FewerPoints(required * few, extra * few, required * many, extra * many);
      DivisionOrder(Points(required * few, extra * few), Points(required * many, extra * many), Points(required, extra));
      PercentOrder(Coverage(required, extra, few), Coverage(required, extra, many), round);
    }
  }

  lemma HitsWith(skills: set<string>, haystack: string, extra: string)
    requires extra !in skills
    ensures |skills + {extra}| == |skills| + 1
    ensures Hits(skills + {extra}, haystack) == Hits(skills, haystack) + (if Contains(haystack, extra) then 1 else 0)
    ensures Hits(skills, haystack) <= |skills|
  {
    var found := set s | s in skills && Contains(haystack, s);
    var after := set s | s in skills + {extra} && Contains(haystack, s);
    assert after == if Contains(haystack, extra) then found + {extra} else found;
    SmallerSet(found, skills);
  }

  lemma QuotientFalls(h: real, n: real)
    requires h >= 0.0 && n > 0.0
    ensures h / (n + 1.0) <= h / n
    ensures h / (n + 1.0) < h / n <==> h > 0.0
  {
    var q := h / (n + 1.0);
    assert q * (n + 1.0) == h && q * n == h - q;
    DivisionOrder(h, q, n);
    DivisionOrder(h, 0.0, n + 1.0);
  }

  /** One more needed, with the same hits. */
  lemma ShareFalls(hits: nat, needed: nat)
    requires needed > 0
    ensures HitShare(hits, needed + 1) <= HitShare(hits, needed)
    ensures HitShare(hits, needed + 1) < HitShare(hits, needed) <==> 0 < hits <= needed
  {
    QuotientFalls(hits as real, needed as real);
    DivisionOrder(hits as real, 1.0, needed as real);
    DivisionOrder(hits as real, 1.0, needed as real + 1.0);
  }

  lemma QuotientRises(h: real, n: real)
    requires h >= 0.0 && n > 0.0
    ensures h / n <= (h + 1.0) / n
  {
    DivisionOrder(h, h + 1.0, n);
  }

  lemma QuotientLifts(h: real, n: real)
    requires h >= 0.0 && n > 0.0
    ensures h / n <= 1.0 ==> h / n <= (h + 1.0) / (n + 1.0)
  {
    var q := h / n;
    assert q * n == h && q * (n + 1.0) == h + q;
    DivisionOrder(h + 1.0, q, n + 1.0);
  }

  lemma QuotientFull(h: real, n: real)
    requires h >= 0.0 && n > 0.0
    ensures h / n >= 1.0 ==> (h + 1.0) / (n + 1.0) >= 1.0
  {
    DivisionOrder(h, 1.0, n);
    DivisionOrder(h + 1.0, 1.0, n + 1.0);
  }

  /** One more hit, whether or not one more is needed. */
  lemma ShareRises(hits: nat, needed: nat)
    requires needed > 0
    ensures HitShare(hits, needed) <= HitShare(hits + 1, needed)
    ensures HitShare(hits, needed) <= HitShare(hits + 1, needed + 1)
  {
    QuotientRises(hits as real, needed as real);
    QuotientLifts(hits as real, needed as real);
    QuotientFull(hits as real, needed as real);
  }

  lemma NeededGrows(skills: nat)
    ensures Needed(skills + 1) == if skills >= 7 && skills % 2 == 1 then Needed(skills) + 1 else Needed(skills)
  {
  }

  /** A skill the text does mention never lowers the score. */
  lemma MentionedSkillNeverHurts(skills: set<string>, haystack: string, extra: string, round: Rounding)
    requires extra !in skills && Contains(haystack, extra)
    ensures TextScore(skills, haystack, round) <= TextScore(skills + {extra}, haystack, round)
  {
    var hits, n := Hits(skills, haystack), Needed(|skills|);
    HitsWith(skills, haystack, extra);
    NeededGrows(|skills|);
    ShareRises(hits, n);
    PercentOrder(HitShare(hits, n), HitShare(hits + 1, Needed(|skills| + 1)), round);
  }

  /** The percentage now and with one more needed. */
  function Now(skills: set<string>, haystack: string): real {
    HitShare(Hits(skills, haystack), Needed(|skills|)) * 100.0
  }

  function WithOneMoreNeeded(skills: set<string>, haystack: string): real {
    HitShare(Hits(skills, haystack), Needed(|skills|) + 1) * 100.0
  }

  /** One more skill the text does not mention never raises the score. It lowers it exactly from an odd count of seven
      or more skills whose percentage and the percentage with one more needed round apart. */
  lemma UnmentionedSkillHurtsIff(skills: set<string>, haystack: string, extra: string, round: Rounding)
    requires extra !in skills && !Contains(haystack, extra)
    ensures TextScore(skills + {extra}, haystack, round) <= TextScore(skills, haystack, round)
    ensures TextScore(skills + {extra}, haystack, round) < TextScore(skills, haystack, round) <==>
            |skills| >= 7 && |skills| % 2 == 1
            && RoundsApart(round, WithOneMoreNeeded(skills, haystack), Now(skills, haystack))
  {
    var hits, n := Hits(skills, haystack), Needed(|skills|);
    HitsWith(skills, haystack, extra);
    NeededGrows(|skills|);
    ShareFalls(hits, n);
    PercentOrder(HitShare(hits, n + 1), HitShare(hits, n), round);
  }

  /** It does for certain when the two percentages are more than a tenth apart, and never when there are no hits or
      enough of them. */
  lemma UnmentionedSkillHurts(skills: set<string>, haystack: string, extra: string, round: Rounding)
    requires extra !in skills && !Contains(haystack, extra) && |skills| >= 7 && |skills| % 2 == 1
    ensures var hits, n := Hits(skills, haystack), Needed(|skills|);
            hits <= n && 1000 * hits > n * (n + 1) ==>
              TextScore(skills + {extra}, haystack, round) < TextScore(skills, haystack, round)
    ensures var hits, n := Hits(skills, haystack), Needed(|skills|);
            hits == 0 || hits > n ==>
              TextScore(skills + {extra}, haystack, round) == TextScore(skills, haystack, round)
  {
    var hits, n := Hits(skills, haystack), Needed(|skills|);
    HitsWith(skills, haystack, extra);
    NeededGrows(|skills|);
    ShareFalls(hits, n);
    if hits <= n && 1000 * hits > n * (n + 1) {
      ShareGap(hits, n);
      FarApartRoundsLower(round, HitShare(hits, n + 1) * 100.0, HitShare(hits, n) * 100.0);
    }
  }

  /** A smaller fall need not show: with 69 skills and one hit both percentages round to 2.9. */
  lemma SmallFallCanVanish(skills: set<string>, haystack: string, extra: string, round: Rounding)
    requires extra !in skills && !Contains(haystack, extra) && |skills| == 69 && Hits(skills, haystack) == 1
    ensures WithOneMoreNeeded(skills, haystack) < Now(skills, haystack)
    ensures TextScore(skills + {extra}, haystack, round) == TextScore(skills, haystack, round)
  {
    UnmentionedSkillHurtsIff(skills, haystack, extra, round);
    NoneBetween(round, 28, 100.0 / 35.0, 100.0 / 34.0);
  }

  lemma ShareGap(hits: nat, needed: nat)
    requires needed > 0 && hits <= needed && 1000 * hits > needed * (needed + 1)
    ensures HitShare(hits, needed) * 100.0 - HitShare(hits, needed + 1) * 100.0 > 0.1
  {
    var h, n := hits as real, needed as real;
    DivisionOrder(h, 1.0, n);
    DivisionOrder(h, 1.0, n + 1.0);
    assert n * (n + 1.0) > 0.0;
    assert 1000.0 * h > n * (n + 1.0);
    DivisionOrder(h, 0.001, n * (n + 1.0));
    QuotientGap(h, n);
  }

  lemma QuotientGap(h: real, n: real)
    requires n > 0.0
    ensures h / n - h / (n + 1.0) == h / (n * (n + 1.0))
  {
  }
}
