/** When each rule component is at its top and at its bottom, and which changes of a posting or a profile can only
    help. */
module ComponentRange {
  import opened Prelude
  import opened JobIdentity
  import opened JobStore
  import opened RuleComponents
  import opened Tenths

  // ----- companies, industries, places -----

  predicate SameEmployer(w: Words, a: string, b: string) {
    KeyOf(w.text, a) == KeyOf(w.text, b) != []
  }

  lemma NamesIff(w: Words, companies: seq<string>, company: string)
    ensures Names(w, companies, company) <==> exists c :: c in companies && SameEmployer(w, c, company)
  {
    if c :| c in companies && SameEmployer(w, c, company) {
      var i :| 0 <= i < |companies| && companies[i] == c;
      assert KeyOf(w.text, companies[i]) != [];
    }
    if i :| 0 <= i < |companies| && KeyOf(w.text, companies[i]) != []
            && KeyOf(w.text, companies[i]) == KeyOf(w.text, company) {
      assert companies[i] in companies && SameEmployer(w, companies[i], company);
    }
  }

  /** The worst is an excluded employer, also if it is liked; the best a liked one that is not excluded. */
  lemma CompanyEnds(w: Words, p: Profile, job: JobFacts)
    ensures CompanyScore(w, p, job) == 0.0 <==> exists c :: c in p.excludedCompanies && SameEmployer(w, c, job.company)
    ensures CompanyScore(w, p, job) == 100.0 <==>
            (exists c :: c in p.likedCompanies && SameEmployer(w, c, job.company))
            && !(exists c :: c in p.excludedCompanies && SameEmployer(w, c, job.company))
    ensures CompanyScore(w, p, job) in {0.0, 50.0, 100.0}
  {
    NamesIff(w, p.excludedCompanies, job.company);
    NamesIff(w, p.likedCompanies, job.company);
  }

  predicate Touches(a: string, b: string) {
    a != "" && (Contains(a, b) || Contains(b, a))
  }

  /** The best is an industry that contains a wanted one or lies in it, the worst any other known one. */
  lemma IndustryEnds(w: Words, p: Profile, analysis: Option<Analysis>)
    requires analysis.Some? && !Absent(analysis.value.industry) && p.industries != []
    ensures var wanted := exists x :: x in p.industries && Touches(w.fold(x), w.fold(analysis.value.industry.value));
            IndustryScore(w, p, analysis) == if wanted then 100.0 else 0.0
  {
    if x :| x in p.industries && Touches(w.fold(x), w.fold(analysis.value.industry.value)) {
      var i :| 0 <= i < |p.industries| && p.industries[i] == x;
      assert Overlaps(w.fold(p.industries[i]), w.fold(analysis.value.industry.value));
    }
  }

  predicate RemoteWelcome(p: Profile) {
    p.wanted != Only(Onsite)
  }

  predicate Preferred(w: Words, p: Profile, place: string) {
    exists x :: x in p.locations && !Absent(w.location(x)) && Touches(w.location(x).value, place)
  }

  lemma PreferredIff(w: Words, p: Profile, place: string)
    ensures Preferred(w, p, place) <==>
            exists i | 0 <= i < |p.locations| ::
              !Absent(w.location(p.locations[i])) && Overlaps(w.location(p.locations[i]).value, place)
  {
    if x :| x in p.locations && !Absent(w.location(x)) && Touches(w.location(x).value, place) {
      var i :| 0 <= i < |p.locations| && p.locations[i] == x;
      assert Overlaps(w.location(p.locations[i]).value, place);
    }
    if i :| 0 <= i < |p.locations| && !Absent(w.location(p.locations[i]))
            && Overlaps(w.location(p.locations[i]).value, place) {
      assert p.locations[i] in p.locations && Touches(w.location(p.locations[i]).value, place);
    }
  }

  /** The best is a remote job for whoever may work remotely, or a place that touches a preferred one; the worst, twenty,
      a known place that touches none. */
  lemma LocationEnds(w: Words, p: Profile, job: JobFacts)
    ensures var remote := job.remote && RemoteWelcome(p);
            var known := !Absent(job.location) && p.locations != [];
            (LocationScore(w, p, job) == 100.0 <==> remote || (known && Preferred(w, p, job.location.value)))
            && (LocationScore(w, p, job) == 20.0 <==> !remote && known && !Preferred(w, p, job.location.value))
            && (LocationScore(w, p, job) == 50.0 <==> !remote && !known)
  {
    if !Absent(job.location) { PreferredIff(w, p, job.location.value); }
  }

  // ----- work mode -----

  /** The best is the wanted mode; the worst, nothing at all, is onsite work for who wants remote, and remote or hybrid
      work for who wants onsite. */
  lemma WorkModeEnds(p: Profile, job: JobFacts, analysis: Option<Analysis>, mode: Mode)
    requires JobMode(job, analysis) == Some(mode)
    ensures WorkModeScore(p, job, analysis) == 100.0 <==> p.wanted == Only(mode)
    ensures WorkModeScore(p, job, analysis) == 0.0 <==>
            (p.wanted == Only(Remote) && mode == Onsite) || (p.wanted == Only(Onsite) && mode != Onsite)
    ensures WorkModeScore(p, job, analysis) in {0.0, 70.0, 100.0}
  {
  }

  /** The posting's own flags outweigh the analysis, remote before hybrid. */
  lemma OwnFlagsDecideMode(job: JobFacts, analysis: Option<Analysis>)
    ensures job.remote ==> JobMode(job, analysis) == Some(Remote)
    ensures !job.remote && job.hybrid ==> JobMode(job, analysis) == Some(Hybrid)
    ensures !job.remote && !job.hybrid && analysis.Some? ==> JobMode(job, analysis) == analysis.value.mode
    ensures !job.remote && !job.hybrid && analysis.None? ==> JobMode(job, analysis).None?
  {
  }

  // ----- salary -----

  /** The offer counts: it is known and not in another currency. */
  predicate Comparable(p: Profile, offered: Salary) {
    offered.max.Some? && (offered.currency.Some? ==> offered.currency.value == p.currency)
  }

  /** The best is an offer that reaches the preferred salary, the worst, twenty, one below the minimum that does not. */
  lemma SalaryEnds(p: Profile, job: JobFacts, analysis: Option<Analysis>)
    ensures var offered := OfferedSalary(job, analysis);
            var reached := p.preferred.Some? && Comparable(p, offered) && p.preferred.value <= offered.max.value;
            (SalaryScore(p, job, analysis) == 100.0 <==> reached)
            && (SalaryScore(p, job, analysis) == 20.0 <==>
                !reached && Comparable(p, offered) && p.minimum.Some? && offered.max.value < p.minimum.value)
            && (!Comparable(p, offered) ==> SalaryScore(p, job, analysis) == 50.0)
  {
  }

  /** A higher offer in the same currency never lowers the score. */
  lemma HigherOfferNeverHurts(p: Profile, job: JobFacts, analysis: Option<Analysis>, more: real)
    requires job.salaryMax.Some? && job.salaryMax.value <= more
    ensures SalaryScore(p, job, analysis) <= SalaryScore(p, job.(salaryMax := Some(more)), analysis)
  {
  }

  /** The analysis names the salary only when the posting does not. */
  lemma OwnSalaryCounts(job: JobFacts, analysis: Option<Analysis>)
    ensures job.salaryMax.Some? ==> OfferedSalary(job, analysis) == Salary(job.salaryMax, job.currency)
    ensures job.salaryMax.None? && analysis.Some? && analysis.value.salary.Some? ==>
              OfferedSalary(job, analysis) == analysis.value.salary.value
  {
  }

  // ----- experience -----

  /** The best is inside the range; every year missing costs twenty-five, every year too many ten, at most forty. */
  lemma ExperienceEnds(p: Profile, job: JobFacts, analysis: Option<Analysis>, round: Rounding, low: real, high: real)
    requires p.years.Some? && Range(job, analysis) == (Some(low), Some(high)) && low <= high
    ensures low <= p.years.value <= high ==> ExperienceScore(p, job, analysis, round) == 100.0
    ensures p.years.value < low ==>
              ExperienceScore(p, job, analysis, round) == round(MaxR(0.0, 100.0 - 25.0 * (low - p.years.value)))
    ensures p.years.value > high ==>
              ExperienceScore(p, job, analysis, round) == round(MaxR(60.0, 100.0 - 10.0 * (p.years.value - high)))
    ensures p.years.value <= low - 4.0 ==> ExperienceScore(p, job, analysis, round) == 0.0
    ensures p.years.value >= high + 4.0 ==> ExperienceScore(p, job, analysis, round) == 60.0
  {
    WholeNumbersStay(round, 0);
    WholeNumbersStay(round, 60);
  }

  /** Each end of the range is the posting's own where it names one, and the analysis's only where it does not. */
  lemma OwnRangeCounts(job: JobFacts, analysis: Option<Analysis>)
    ensures var (low, high) := Range(job, analysis);
            (job.experienceMin.Some? ==> low == job.experienceMin)
            && (job.experienceMax.Some? ==> high == job.experienceMax)
            && (job.experienceMin.None? ==> low == if analysis.Some? then analysis.value.experienceMin else None)
            && (job.experienceMax.None? ==> high == if analysis.Some? then analysis.value.experienceMax else None)
  {
  }

  // ----- titles -----

  /** The titles that count are the job's and, where there is one, that of the analysis. */
  lemma TitlesThatCount(w: Words, job: JobFacts, analysis: Option<Analysis>, title: string)
    ensures title in JobTitles(w, job, analysis) <==>
            title == job.title
            || (analysis.Some? && !Absent(analysis.value.title) && title == w.title(analysis.value.title.value))
  {
  }

  /** A target role that is one of them is the best there is. */
  lemma OwnRoleIsBest(w: Words, p: Profile, job: JobFacts, analysis: Option<Analysis>, round: Rounding, i: nat, k: nat)
    requires i < |p.roles| && k < |JobTitles(w, job, analysis)|
    requires w.title(p.roles[i]) == JobTitles(w, job, analysis)[k]
    ensures RoleScore(w, p, job, analysis, round) == 100.0
  {
    var roles, titles := Mapped(p.roles, w.title), JobTitles(w, job, analysis);
    BestIsBest(w.text, roles, titles, i, k);
    WholeNumbersStay(round, 100);
  }

  lemma {:induction false} BestOfIsBest(text: Text, role: string, titles: seq<string>, k: nat)
    requires k < |titles|
    ensures TitleSimilarity(text, role, titles[k]) <= BestOf(text, role, titles)
    decreases |titles|
  {
    if k > 0 { BestOfIsBest(text, role, titles[1..], k - 1); }
  }

  lemma {:induction false} BestIsBest(text: Text, roles: seq<string>, titles: seq<string>, i: nat, k: nat)
    requires i < |roles| && k < |titles|
    ensures TitleSimilarity(text, roles[i], titles[k]) <= BestTitle(text, roles, titles)
    decreases |roles|
  {
    if i == 0 { BestOfIsBest(text, roles[0], titles, k); } else { BestIsBest(text, roles[1..], titles, i - 1, k); }
  }

  // ----- skills -----

  /** Knowing everything an analysis lists is the best, knowing none of it the worst. */
  lemma AnalysedEnds(required: set<string>, preferred: set<string>, skills: set<string>, round: Rounding)
    requires required + preferred != {}
    ensures required + preferred <= skills ==> AnalysedScore(required, preferred, skills, round) == 100.0
    ensures (required + preferred) !! skills ==> AnalysedScore(required, preferred, skills, round) == 0.0
  {
    var extra := preferred - required;
    assert required + extra == required + preferred;
    WholeNumbersStay(round, 0);
    WholeNumbersStay(round, 100);
    SomePoints(required, extra);
    if required + preferred <= skills {
      assert required * skills == required && extra * skills == extra;
      DivisionOrder(Points(required, extra), 1.0, Points(required, extra));
    }
    if (required + preferred) !! skills {
      assert required * skills == {} && extra * skills == {};
      DivisionOrder(0.0, 0.0, Points(required, extra));
    }
  }

  lemma SomePoints(required: set<string>, extra: set<string>)
    requires required + extra != {}
    ensures Points(required, extra) > 0.0
  {
    if required == {} { assert extra != {}; }
  }

  /** An analysis that lists skills decides; otherwise the text does, if there is any. */
  lemma AnalysisBeforeText(p: Profile, job: JobFacts, analysis: Option<Analysis>, round: Rounding)
    requires p.skills != {}
    ensures analysis.Some? && analysis.value.listsSkills ==>
              SkillScore(p, job, analysis, round)
              == AnalysedScore(analysis.value.required, analysis.value.preferred, p.skills, round)
    ensures (analysis.Some? ==> !analysis.value.listsSkills) && !AllBlank(job.haystack) ==>
              SkillScore(p, job, analysis, round) == TextScore(p.skills, job.haystack, round)
  {
  }

  /** One required skill is worth two that are only preferred. */
  lemma RequiredCountsTwice(
    required: set<string>, extra: set<string>, skills: set<string>, must: string, one: string, two: string)
    requires required !! extra && must in required - skills
    requires one in extra - skills && two in extra - skills && one != two
    ensures Points(required, extra) > 0.0
    ensures Coverage(required, extra, skills + {must}) == Coverage(required, extra, skills + {one, two})
  {
    SomePoints(required, extra);
    assert required * (skills + {must}) == required * skills + {must} && extra * (skills + {must}) == extra * skills;
    assert required * (skills + {one, two}) == required * skills;
    assert extra * (skills + {one, two}) == extra * skills + {one, two};
  }

  /** Without an analysis, mentions of at least half the skills, and of three, are the best; no mention is the worst. */
  lemma TextEnds(skills: set<string>, haystack: string, round: Rounding)
    ensures Hits(skills, haystack) >= 3 && 2 * Hits(skills, haystack) >= |skills| ==>
              TextScore(skills, haystack, round) == 100.0
    ensures Hits(skills, haystack) == 0 ==> TextScore(skills, haystack, round) == 0.0
  {
    var hits, n := Hits(skills, haystack), Needed(|skills|);
    WholeNumbersStay(round, 0);
    WholeNumbersStay(round, 100);
    DivisionOrder(1.0, hits as real, n as real);
    DivisionOrder(hits as real, 0.0, n as real);
    DivisionOrder(hits as real, 1.0, n as real);
  }
}
