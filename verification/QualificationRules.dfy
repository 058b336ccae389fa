/** What each rule of the policy asks of a job, said of the results that an evaluation reports. */
module QualificationRules {
  import opened Wrappers
  import opened Qualification

  /** Days are ordered by month, and within a month by day. */
  lemma DaysAreOrdered(a: Day, b: Day)
    ensures a.month != b.month ==> (Before(a, b) <==> a.month < b.month)
    ensures a.month == b.month ==> (Before(a, b) <==> a.day < b.day)
  {
  }

  /** One text contains another if that is what lies between some beginning and some end of it. */
  lemma ContainsIff(part: string, whole: string)
    ensures Contains(part, whole) <==> exists before, after :: whole == before + part + after
  {
    if Contains(part, whole) {
      var i :| 0 <= i <= |whole| && PartAt(part, whole, i);
      assert whole == whole[..i] + part + whole[i + |part|..];
    }
    if before, after :| whole == before + part + after {
      assert PartAt(part, whole, |before|);
    }
  }

  /** An empty text is as good as none. */
  lemma GivenIff(s: Option<string>)
    ensures Given(s) <==> s.Some? && |s.value| > 0
    ensures Text(s) == if s.Some? then s.value else []
  {
  }

  // ---------------------------------------------------------------- which rules speak, and where

  /** The rule is about jobs of this employment type. */
  predicate IsAbout(r: Rule, f: Facts) {
    r.applies in {"ALL", f.employment} || (r.applies == "FULL_TIME" && f.employment in {"NEW_GRAD", "EARLY_CAREER"})
  }

  /** The rule is known and uses the operator that its key is made for. */
  predicate Is(r: Rule, key: string, operator: string) {
    r.key == key && r.operator == operator
  }

  /** How many of the first `n` rules report a result. */
  function Speaking(rules: seq<Rule>, f: Facts, n: nat): nat
    requires n <= |rules|
  {
    if n == 0 then 0 else Speaking(rules, f, n - 1) + if Silent(rules[n - 1], f) then 0 else 1
  }

  /** Exactly the rules about this kind of job report; the authorization rule only for its own country. */
  lemma WhoSpeaks(r: Rule, f: Facts)
    ensures !Silent(r, f) <==>
      IsAbout(r, f)
      && !(Is(r, "usa.full_time_authorization", "REVIEW_POLICY") && f.country != r.expected.country)
  {
  }

  /** The verdict that the evaluation reports on rule `i`. */
  function VerdictOn(c: Config, f: Facts, p: Policy, now: Now, i: nat): Verdict
    requires i < |p.rules| && !Silent(p.rules[i], f)
  {
    Place(c, f, p, now, i);
    Evaluated(c, f, p, now).rules[|Unresolved(f)| + Speaking(p.rules, f, i)].result
  }

  lemma {:induction false} ResultsSoFar(c: Config, f: Facts, p: Policy, now: Now, n: nat, i: nat)
    requires i < n <= |p.rules|
    ensures |RuleResults(c, f, p, now, n)| == Speaking(p.rules, f, n)
    ensures !Silent(p.rules[i], f) ==>
      Speaking(p.rules, f, i) < Speaking(p.rules, f, n)
      && RuleResults(c, f, p, now, n)[Speaking(p.rules, f, i)]
         == RuleResult(p.rules[i].id, p.rules[i].key, AsVerdict(ValueOf(c, f, p, now, p.rules[i])))
  {
    hide Silent, ValueOf;
    if i < n - 1 {
      ResultsSoFar(c, f, p, now, n - 1, i);
    } else if n > 1 {
      ResultsSoFar(c, f, p, now, n - 1, 0);
    }
  }

  /** Every rule that speaks has its own result, under its id and key, in the order of the policy. */
  lemma Place(c: Config, f: Facts, p: Policy, now: Now, i: nat)
    requires i < |p.rules| && !Silent(p.rules[i], f)
    ensures var k, d := |Unresolved(f)| + Speaking(p.rules, f, i), Evaluated(c, f, p, now);
      && k < |d.rules| && d.rules[k].id == p.rules[i].id && d.rules[k].key == p.rules[i].key
      && d.rules[k].result == AsVerdict(ValueOf(c, f, p, now, p.rules[i]))
  {
    hide Silent, ValueOf, Unresolved;
    ResultsSoFar(c, f, p, now, |p.rules|, i);
  }

  /** A verdict FAIL decides alone; PASS needs results, all of them PASS. */
  lemma OutcomeMeans(c: Config, f: Facts, p: Policy, now: Now)
    ensures var d := Evaluated(c, f, p, now);
      && (d.outcome == Fail <==> exists i :: 0 <= i < |d.rules| && d.rules[i].result == Fail)
      && (d.outcome == Pass <==> d.rules != [] && forall i :: 0 <= i < |d.rules| ==> d.rules[i].result == Pass)
  {
    PassMeansAllPass(Evaluated(c, f, p, now).rules);
    hide RuleResults, Unresolved;
  }

  /** What the extraction left open is reported first, each in review, and nothing else is. */
  lemma OpenQuestionsAreReported(f: Facts)
    ensures var u := Unresolved(f);
      && (forall i :: 0 <= i < |u| ==> u[i].result == Review && u[i].id == u[i].key)
      && |u| == |f.issues| + (if f.employment == "UNKNOWN" then 1 else 0)
                + (if Given(f.company) && Given(f.title) then 0 else 1)
      && (f.employment == "UNKNOWN" ==> u[0].key == "extraction.employment_type")
      && (!Given(f.company) || !Given(f.title) ==> u[|u| - |f.issues| - 1].key == "extraction.identity")
      && forall i :: 0 <= i < |f.issues| ==> u[|u| - |f.issues| + i].key == "extraction." + f.issues[i]
  {
  }

  // ---------------------------------------------------------------- the evaluators

  predicate Speaks(p: Policy, f: Facts, i: nat, key: string, operator: string) {
    i < |p.rules| && !Silent(p.rules[i], f) && Is(p.rules[i], key, operator)
  }

  predicate InPeriod(day: Day, start: Day, end: Day) {
    !Before(day, start) && !Before(end, day)
  }

  /** Some day lies in both periods. */
  ghost predicate Overlap(a: Day, b: Day, c: Day, d: Day) {
    exists day :: InPeriod(day, a, b) && InPeriod(day, c, d)
  }

  lemma OverlapIff(a: Day, b: Day, c: Day, d: Day)
    requires !Before(b, a) && !Before(d, c)
    ensures Overlap(a, b, c, d) <==> !Before(d, a) && !Before(b, c)
  {
    if !Before(d, a) && !Before(b, c) {
      var day := if Before(a, c) then c else a;
      assert InPeriod(day, a, b) && InPeriod(day, c, d);
    }
  }

  /** The four days are known and the job's own are in order. */
  predicate PeriodKnown(f: Facts, e: Expected) {
    f.start.Some? && f.end.Some? && e.start.Some? && e.end.Some? && !Before(f.end.value, f.start.value)
  }

  /**
   An internship passes if and only if some day lies both in its period and in the configured one.  If the
   configured one is upside down, it passes if and only if it spans the gap.
   */
  lemma PeriodMeans(c: Config, f: Facts, p: Policy, now: Now, i: nat)
    requires Speaks(p, f, i, "internship.period", "INTERSECTS")
    ensures var e, v := p.rules[i].expected, VerdictOn(c, f, p, now, i);
      && (v == Review <==> !PeriodKnown(f, e))
      && (PeriodKnown(f, e) && !Before(e.end.value, e.start.value) ==>
            (v == Pass <==> Overlap(f.start.value, f.end.value, e.start.value, e.end.value)))
      && (PeriodKnown(f, e) && Before(e.end.value, e.start.value) ==>
            (v == Pass <==> InPeriod(e.end.value, f.start.value, f.end.value)
                            && InPeriod(e.start.value, f.start.value, f.end.value)))
  {
    Place(c, f, p, now, i);
    var e := p.rules[i].expected;
    if PeriodKnown(f, e) && !Before(e.end.value, e.start.value) {
      OverlapIff(f.start.value, f.end.value, e.start.value, e.end.value);
    }
    hide Overlap;
  }

  /** Exactly the jobs that ask for fewer years than the bound pass; the bound itself fails. */
  lemma ExperienceMeans(c: Config, f: Facts, p: Policy, now: Now, i: nat)
    requires Speaks(p, f, i, "professional_experience", "LESS_THAN")
    ensures var v := VerdictOn(c, f, p, now, i);
      && (v == Review <==> f.experienceMin.None?)
      && (f.experienceMin.Some? ==> (v == Fail <==> f.experienceMin.value >= p.rules[i].expected.years))
  {
    Place(c, f, p, now, i);
  }

  /** Asking for fewer years never loses a PASS. */
  lemma LessExperienceKeepsPass(c: Config, f: Facts, p: Policy, now: Now, i: nat, fewer: real)
    requires Speaks(p, f, i, "professional_experience", "LESS_THAN") && VerdictOn(c, f, p, now, i) == Pass
    requires f.experienceMin.Some? && fewer <= f.experienceMin.value
    ensures Speaks(p, f.(experienceMin := Some(fewer)), i, "professional_experience", "LESS_THAN")
    ensures VerdictOn(c, f.(experienceMin := Some(fewer)), p, now, i) == Pass
  {
    ExperienceMeans(c, f, p, now, i);
    ExperienceMeans(c, f.(experienceMin := Some(fewer)), p, now, i);
  }

  /** The salary rule is for this country, and for this state and city where it names them. */
  predicate ForPlace(c: Config, s: Salary, f: Facts) {
    && s.country == f.country
    && (s.state.None? || c.fold(s.state.value) == c.fold(Text(f.state)))
    && (s.city.None? || c.fold(s.city.value) == c.fold(Text(f.city)))
  }

  /** A rule with a city comes before one without, then one with a state before one without. */
  predicate MoreSpecific(a: Salary, b: Salary) {
    (a.city.Some? && b.city.None?) || (a.city.Some? == b.city.Some? && a.state.Some? && b.state.None?)
  }

  /** The threshold's rule: for this place, and no other for this place is more specific, or as specific and earlier. */
  ghost predicate IsThreshold(c: Config, salaries: seq<Salary>, f: Facts, i: int) {
    && 0 <= i < |salaries| && ForPlace(c, salaries[i], f)
    && (forall k :: 0 <= k < |salaries| && ForPlace(c, salaries[k], f) ==> !MoreSpecific(salaries[k], salaries[i]))
    && (forall k :: 0 <= k < i && ForPlace(c, salaries[k], f) ==> MoreSpecific(salaries[i], salaries[k]))
  }

  ghost predicate NoneFor(c: Config, salaries: seq<Salary>, f: Facts) {
    forall k :: 0 <= k < |salaries| ==> !ForPlace(c, salaries[k], f)
  }

  lemma {:induction false} BestIsThreshold(c: Config, salaries: seq<Salary>, f: Facts)
    ensures var best := BestSalary(c, salaries, f);
      && (best.None? ==> NoneFor(c, salaries, f))
      && (best.Some? ==> exists i :: IsThreshold(c, salaries, f, i) && salaries[i] == best.value)
  {
    if |salaries| > 0 {
      var front, n := salaries[..|salaries| - 1], |salaries| - 1;
      BestIsThreshold(c, front, f);
      var was := BestSalary(c, front, f);
      hide BestSalary, IsThreshold, ForPlace, SalaryMatches, MoreSpecific, Specificity;
      if was.Some? {
        var i :| IsThreshold(c, front, f, i) && front[i] == was.value;
        OneMoreSalary(c, salaries, f, i);
      } else {
        FirstSalary(c, salaries, f);
      }
      BestStep(c, salaries, f);
    }
  }

  lemma BestStep(c: Config, salaries: seq<Salary>, f: Facts)
    requires |salaries| > 0
    ensures var n := |salaries| - 1;
      var was := BestSalary(c, salaries[..n], f);
      BestSalary(c, salaries, f) ==
        if ForPlace(c, salaries[n], f) && (was.None? || MoreSpecific(salaries[n], was.value)) then Some(salaries[n])
        else was
  {
  }

  lemma OneMoreSalary(c: Config, salaries: seq<Salary>, f: Facts, i: int)
    requires |salaries| > 0 && IsThreshold(c, salaries[..|salaries| - 1], f, i)
    ensures var n := |salaries| - 1;
      var best := if ForPlace(c, salaries[n], f) && MoreSpecific(salaries[n], salaries[i]) then n else i;
      IsThreshold(c, salaries, f, best)
  {
    hide ForPlace;
    var front := salaries[..|salaries| - 1];
    assert forall k :: 0 <= k < |front| ==> front[k] == salaries[k];
  }

  lemma FirstSalary(c: Config, salaries: seq<Salary>, f: Facts)
    requires |salaries| > 0 && NoneFor(c, salaries[..|salaries| - 1], f)
    ensures var n := |salaries| - 1;
      if ForPlace(c, salaries[n], f) then IsThreshold(c, salaries, f, n)
      else NoneFor(c, salaries, f)
  {
    hide ForPlace;
    var front := salaries[..|salaries| - 1];
    assert forall k :: 0 <= k < |front| ==> front[k] == salaries[k];
  }

  /** A region is missing that some rule for this city asks for. */
  ghost predicate RegionMissing(c: Config, salaries: seq<Salary>, f: Facts) {
    !Given(f.state)
    && exists i :: 0 <= i < |salaries| && Given(salaries[i].city) && Given(salaries[i].state)
                   && c.fold(salaries[i].city.value) == c.fold(Text(f.city))
  }

  /** The pay is known in the configured currency and period, and so is the place. */
  ghost predicate PayKnown(c: Config, f: Facts, p: Policy, e: Expected) {
    && Given(f.city) && f.salaryMin.Some? && f.currency == e.currency && f.period == e.period
    && !RegionMissing(c, p.salaries, f)
    && !NoneFor(c, p.salaries, f)
  }

  /** A job's pay is held against the threshold of its place, the first of the most specific rules. */
  lemma SalaryMeans(c: Config, f: Facts, p: Policy, now: Now, i: nat)
    requires Speaks(p, f, i, "internship.salary", "LOCATION_MINIMUM")
    ensures var v := VerdictOn(c, f, p, now, i);
      && (v == Review <==> !PayKnown(c, f, p, p.rules[i].expected))
      && (v != Review ==>
            exists k :: IsThreshold(c, p.salaries, f, k) && f.salaryMin.Some?
                        && (v == Pass <==> f.salaryMin.value >= p.salaries[k].minimum))
  {
    Place(c, f, p, now, i);
    BestIsThreshold(c, p.salaries, f);
    hide IsThreshold, SalaryMatches, BestSalary;
    var best := BestSalary(c, p.salaries, f);
    if best.Some? {
      var k :| IsThreshold(c, p.salaries, f, k) && p.salaries[k] == best.value;
      ThresholdIsThere(c, p.salaries, f, k);
    }
  }

  lemma ThresholdIsThere(c: Config, salaries: seq<Salary>, f: Facts, k: int)
    requires IsThreshold(c, salaries, f, k)
    ensures 0 <= k < |salaries| && ForPlace(c, salaries[k], f)
  {
  }

  lemma ThresholdIsUnique(c: Config, salaries: seq<Salary>, f: Facts, i: int, k: int)
    requires IsThreshold(c, salaries, f, i) && IsThreshold(c, salaries, f, k)
    ensures i == k
  {
  }

  /** More pay never loses a PASS. */
  lemma MorePayKeepsPass(c: Config, f: Facts, p: Policy, now: Now, i: nat, more: real)
    requires Speaks(p, f, i, "internship.salary", "LOCATION_MINIMUM") && VerdictOn(c, f, p, now, i) == Pass
    requires f.salaryMin.Some? && more >= f.salaryMin.value
    ensures Speaks(p, f.(salaryMin := Some(more)), i, "internship.salary", "LOCATION_MINIMUM")
    ensures VerdictOn(c, f.(salaryMin := Some(more)), p, now, i) == Pass
  {
    var g := f.(salaryMin := Some(more));
    Place(c, f, p, now, i);
    Place(c, g, p, now, i);
    SamePlaces(c, p.salaries, f, g);
  }

  lemma {:induction false} SamePlaces(c: Config, salaries: seq<Salary>, f: Facts, g: Facts)
    requires g == f.(salaryMin := g.salaryMin)
    ensures BestSalary(c, salaries, g) == BestSalary(c, salaries, f)
  {
    if |salaries| > 0 {
      SamePlaces(c, salaries[..|salaries| - 1], f, g);
    }
  }

  /** The deadline is known to have passed: an earlier day, or an earlier instant. */
  predicate Over(d: Deadline, now: Now) {
    (d.OnDay? && Before(d.day, now.day)) || (d.AtInstant? && d.instant < now.instant)
  }

  /** A passed deadline fails whatever the page says; an unreadable one leaves at most a failure. */
  lemma OpenMeans(c: Config, f: Facts, p: Policy, now: Now, i: nat)
    requires Speaks(p, f, i, "application_open", "EQUALS")
    ensures var v := VerdictOn(c, f, p, now, i);
      && (v == Fail <==> f.open == Some(false) || (f.deadline.Some? && Over(f.deadline.value, now)))
      && (v == Pass <==> f.open == Some(true)
                         && (f.deadline.Some? ==> !f.deadline.value.Unreadable? && !Over(f.deadline.value, now)))
  {
    Place(c, f, p, now, i);
  }

  /** Equality with the configured country, membership in the configured list, and the paid rule. */
  lemma CountryMeans(c: Config, f: Facts, p: Policy, now: Now, i: nat)
    requires i < |p.rules| && !Silent(p.rules[i], f)
    ensures var r, v := p.rules[i], VerdictOn(c, f, p, now, i);
      && (Is(r, "internship.country", "EQUALS") ==>
            (v == Review <==> !Given(f.country))
            && (v == Pass <==> Given(f.country) && f.country == r.expected.country))
      && (Is(r, "new_grad.countries", "IN") || Is(r, "early_career.countries", "IN") ==>
            (v == Review <==> !Given(f.country))
            && (v == Pass <==> Given(f.country) && f.country.value in r.expected.countries))
      && (Is(r, "internship.paid", "EQUALS") ==>
            (v == Review <==> f.paid.None?) && (v == Pass <==> f.paid.Some? && f.paid == r.expected.paid))
  {
    Place(c, f, p, now, i);
  }

  /** Work permission: CPT must be supported, full time needs OPT or sponsorship; silence decides nothing. */
  lemma PermissionMeans(c: Config, f: Facts, p: Policy, now: Now, i: nat)
    requires i < |p.rules| && !Silent(p.rules[i], f)
    ensures var r, v := p.rules[i], VerdictOn(c, f, p, now, i);
      && (Is(r, "internship.cpt", "REQUIRE") ==>
            (v == Review <==> f.cpt == "UNKNOWN") && (v == Pass <==> f.cpt == "SUPPORTED"))
      && (Is(r, "usa.full_time_authorization", "REVIEW_POLICY") ==>
            (v == Review <==> f.authorization == "UNKNOWN")
            && (v == Pass <==> f.authorization in {"OPT_COMPATIBLE", "SPONSORSHIP_SUPPORTED"}))
  {
    Place(c, f, p, now, i);
  }

  /** A start passes exactly in a month after the reference month. */
  lemma StartMeans(c: Config, f: Facts, p: Policy, now: Now, i: nat)
    requires Speaks(p, f, i, "new_grad.start_timing", "COMPATIBLE_WITH")
             || Speaks(p, f, i, "early_career.start_timing", "COMPATIBLE_WITH")
    ensures var r, v := p.rules[i], VerdictOn(c, f, p, now, i);
      && (v == Review <==> f.start.None?)
      && (f.start.Some? ==> (v == Fail <==> f.start.value.month <= r.expected.reference))
  {
    Place(c, f, p, now, i);
  }

  /** The title names one of the configured areas, other than the catch-all. */
  ghost predicate TitleNames(c: Config, f: Facts, e: Expected) {
    Given(f.title)
    && exists k :: 0 <= k < |e.fields| && e.fields[k] != "related technical areas"
                   && Contains(c.fold(e.fields[k]), c.fold(f.title.value))
  }

  /** Relevance is what was found out, or follows from the title; the title alone never fails a job. */
  lemma RelevanceMeans(c: Config, f: Facts, p: Policy, now: Now, i: nat)
    requires Speaks(p, f, i, "relevant_field", "RELEVANT_TO")
    ensures var r, v := p.rules[i], VerdictOn(c, f, p, now, i);
      && (v == Fail <==> f.relevant == Some(false))
      && (v == Pass <==> f.relevant == Some(true) || (f.relevant.None? && TitleNames(c, f, r.expected)))
  {
    Place(c, f, p, now, i);
  }

  /** The keys and the one operator that each of them is evaluated with. */
  const KNOWN: map<string, string> := map[
    "internship.period" := "INTERSECTS", "internship.country" := "EQUALS", "internship.paid" := "EQUALS",
    "internship.cpt" := "REQUIRE", "internship.salary" := "LOCATION_MINIMUM", "relevant_field" := "RELEVANT_TO",
    "application_open" := "EQUALS", "professional_experience" := "LESS_THAN",
    "new_grad.start_timing" := "COMPATIBLE_WITH", "early_career.start_timing" := "COMPATIBLE_WITH",
    "new_grad.countries" := "IN", "early_career.countries" := "IN", "usa.full_time_authorization" := "REVIEW_POLICY"]

  /** Any other operator, and any other key, is left to a reader. */
  lemma OthersAreReviewed(c: Config, f: Facts, p: Policy, now: Now, i: nat)
    requires i < |p.rules| && !Silent(p.rules[i], f)
    requires p.rules[i].key in KNOWN ==> KNOWN[p.rules[i].key] != p.rules[i].operator
    ensures VerdictOn(c, f, p, now, i) == Review
  {
    Place(c, f, p, now, i);
  }

  // ---------------------------------------------------------------- the semantic step

  /** A model is asked only where it can help: no failure, some text, and a question it may answer in review. */
  lemma AskedOnlyIf(d: Decision, f: Facts)
    ensures SemanticNeeded(d, f) <==>
      && d.outcome != Fail && |f.text| > 0
      && (InReview(d.rules, "relevant_field") || InReview(d.rules, "internship.cpt")
          || InReview(d.rules, "usa.full_time_authorization"))
  {
  }

  /** The one finding about its field: quoted from the text in more than blanks, known, and confident enough. */
  predicate Evidence(c: Config, f: Facts, findings: seq<Finding>, i: nat, field: string) {
    i < |findings| &&
    var x := findings[i];
    && x.field == field && (forall k :: 0 <= k < |findings| && findings[k].field == field ==> k == i)
    && x.value != "UNKNOWN" && Contains(x.quote, f.text) && (exists y :: y in x.quote && !c.space(y))
    && (x.value == "NOT_SUPPORTED" ==> x.confidence >= c.failAt)
    && (x.value != "NOT_SUPPORTED" ==> x.confidence >= c.passAt)
  }

  /** What a finding may say about relevance, about CPT, and about authorization. */
  function Relevance(value: string): Option<bool> {
    if value == "SUPPORTED" then Some(true) else if value == "NOT_SUPPORTED" then Some(false) else None
  }

  function Authorization(value: string): Option<string> {
    match value
    case "SUPPORTED" => Some("SPONSORSHIP_SUPPORTED")
    case "NOT_SUPPORTED" => Some("SPONSORSHIP_NOT_SUPPORTED")
    case "OPT_COMPATIBLE" => Some("OPT_COMPATIBLE")
    case _ => None
  }

  predicate SaysRelevance(rules: seq<RuleResult>, x: Finding) {
    Relevance(x.value).Some?
    && exists k :: 0 <= k < |rules| && rules[k].key == "relevant_field" && rules[k].result == Review
  }

  predicate SaysCpt(c: Config, f: Facts, x: Finding) {
    x.value in {"SUPPORTED", "NOT_SUPPORTED"} && f.cpt == "UNKNOWN" && Contains("cpt", c.lower(x.quote))
  }

  predicate SaysAuthorization(c: Config, f: Facts, x: Finding) {
    Authorization(x.value).Some? && f.authorization == "UNKNOWN"
    && (Contains("sponsor", c.lower(x.quote)) || Contains("opt", c.lower(x.quote)))
  }

  /** The evidence among the first `n` findings, and nothing else, settled the relevance. */
  ghost predicate RelevanceOf(c: Config, f: Facts, g: Facts, rules: seq<RuleResult>, findings: seq<Finding>, n: nat)
    requires n <= |findings|
  {
    && (forall i: nat :: i < n && Evidence(c, f, findings, i, "relevant") && SaysRelevance(rules, findings[i]) ==>
          g.relevant == Relevance(findings[i].value))
    && (g.relevant != f.relevant ==>
          exists i: nat :: i < n && Evidence(c, f, findings, i, "relevant") && SaysRelevance(rules, findings[i]))
  }

  ghost predicate CptOf(c: Config, f: Facts, g: Facts, findings: seq<Finding>, n: nat)
    requires n <= |findings|
  {
    && (forall i: nat :: i < n && Evidence(c, f, findings, i, "cpt") && SaysCpt(c, f, findings[i]) ==>
          g.cpt == findings[i].value)
    && (g.cpt != f.cpt ==> exists i: nat :: i < n && Evidence(c, f, findings, i, "cpt") && SaysCpt(c, f, findings[i]))
  }

  ghost predicate AuthorizationOf(c: Config, f: Facts, g: Facts, findings: seq<Finding>, n: nat)
    requires n <= |findings|
  {
    && (forall i: nat :: i < n && Evidence(c, f, findings, i, "authorization") && SaysAuthorization(c, f, findings[i])
          ==> Some(g.authorization) == Authorization(findings[i].value))
    && (g.authorization != f.authorization ==>
          exists i: nat ::
            i < n && Evidence(c, f, findings, i, "authorization") && SaysAuthorization(c, f, findings[i]))
  }

  lemma {:induction false} RelevanceIsEvidenced(c: Config, f: Facts, rules: seq<RuleResult>, findings: seq<Finding>,
      n: nat)
    requires n <= |findings|
    ensures RelevanceOf(c, f, Refined(c, f, rules, findings, n), rules, findings, n)
  {
    hide Contains, SaysRelevance;
    if n > 0 {
      RelevanceIsEvidenced(c, f, rules, findings, n - 1);
      CountsIsEvidence(c, f, findings, n - 1);
      AppliedRelevance(c, Refined(c, f, rules, findings, n - 1), rules, findings[n - 1]);
      hide Applied;
    }
  }

  lemma AppliedRelevance(c: Config, f: Facts, rules: seq<RuleResult>, x: Finding)
    ensures Applied(c, f, rules, x).relevant
         == if x.field == "relevant" && SaysRelevance(rules, x) then Relevance(x.value) else f.relevant
  {
    hide Contains;
  }

  lemma {:induction false} CptIsEvidenced(c: Config, f: Facts, rules: seq<RuleResult>, findings: seq<Finding>, n: nat)
    requires n <= |findings|
    ensures CptOf(c, f, Refined(c, f, rules, findings, n), findings, n)
  {
    hide Contains;
    if n > 0 {
      CptIsEvidenced(c, f, rules, findings, n - 1);
      CountsIsEvidence(c, f, findings, n - 1);
    }
  }

  lemma {:induction false} AuthorizationIsEvidenced(c: Config, f: Facts, rules: seq<RuleResult>,
      findings: seq<Finding>, n: nat)
    requires n <= |findings|
    ensures AuthorizationOf(c, f, Refined(c, f, rules, findings, n), findings, n)
  {
    hide Contains;
    if n > 0 {
      AuthorizationIsEvidenced(c, f, rules, findings, n - 1);
      CountsIsEvidence(c, f, findings, n - 1);
    }
  }

  lemma CountsIsEvidence(c: Config, f: Facts, findings: seq<Finding>, i: nat)
    requires i < |findings|
    ensures Counts(c, f, findings, i) <==> Evidence(c, f, findings, i, findings[i].field)
  {
    hide Contains;
  }

  /** Evidence takes effect, and every change of a fact is the effect of its evidence. */
  lemma ChangesAreEvidenced(c: Config, f: Facts, rules: seq<RuleResult>, findings: seq<Finding>)
    ensures var g := Refined(c, f, rules, findings, |findings|);
      && RelevanceOf(c, f, g, rules, findings, |findings|) && CptOf(c, f, g, findings, |findings|)
      && AuthorizationOf(c, f, g, findings, |findings|)
  {
    RelevanceIsEvidenced(c, f, rules, findings, |findings|);
    CptIsEvidenced(c, f, rules, findings, |findings|);
    AuthorizationIsEvidenced(c, f, rules, findings, |findings|);
    hide RelevanceOf, CptOf, AuthorizationOf;
  }
}
