/**
 Qualification: an editable policy is evaluated over extracted facts to PASS, FAIL or REVIEW; a model
 may then resolve some unknowns, and time may pass before the decision is published.
 */
module Qualification {
  import opened Wrappers

  datatype Verdict = Pass | Fail | Review

  datatype RuleResult = RuleResult(id: string, key: string, result: Verdict)

  datatype Decision = Decision(outcome: Verdict, rules: seq<RuleResult>)

  /** A calendar day by year and month, then day of the month. */
  datatype Day = Day(month: int, day: int)

  predicate Before(a: Day, b: Day) {
    a.month < b.month || (a.month == b.month && a.day < b.day)
  }

  /** A deadline as it was written: a day, an instant with a zone, no text at all, or something unreadable. */
  datatype Deadline = OnDay(day: Day) | AtInstant(instant: int) | Blank | Unreadable

  /** The current time and its UTC day. */
  datatype Now = Now(instant: int, day: Day)

  predicate Later(a: Now, b: Now) {
    a.instant <= b.instant && !Before(b.day, a.day)
  }

  datatype Facts = Facts(employment: string, company: Option<string>, title: Option<string>,
                         country: Option<string>, state: Option<string>, city: Option<string>,
                         salaryMin: Option<real>, currency: Option<string>, period: Option<string>,
                         experienceMin: Option<real>, open: Option<bool>, deadline: Option<Deadline>,
                         paid: Option<bool>, start: Option<Day>, end: Option<Day>,
                         cpt: string, authorization: string, relevant: Option<bool>,
                         issues: seq<string>, text: string)

  /** A rule's expected value, with the parts that the evaluators look up. */
  datatype Expected = Expected(start: Option<Day>, end: Option<Day>, country: Option<string>, countries: seq<string>,
                               paid: Option<bool>, currency: Option<string>, period: Option<string>, years: real,
                               reference: int, fields: seq<string>)

  datatype Rule = Rule(id: string, key: string, applies: string, operator: string, expected: Expected)

  datatype Salary = Salary(country: Option<string>, state: Option<string>, city: Option<string>, minimum: real)

  datatype Policy = Policy(rules: seq<Rule>, salaries: seq<Salary>)

  /** `fold` is Unicode case folding, `space` says which characters `strip` removes. */
  datatype Config = Config(fold: string -> string, lower: string -> string, space: char -> bool, passAt: real,
                           failAt: real)

  // ---------------------------------------------------------------- the evaluators

  /** `_expired`: unknown where there is no deadline or it cannot be read. */
  function IsPast(deadline: Option<Deadline>, now: Now): Option<bool> {
    if deadline.None? || deadline.value.Blank? || deadline.value.Unreadable? then None
    else if deadline.value.OnDay? then Some(Before(deadline.value.day, now.day))
    else Some(deadline.value.instant < now.instant)
  }

  predicate PartAt(part: string, whole: string, i: nat) {
    i + |part| <= |whole| && whole[i..i + |part|] == part
  }

  predicate Contains(part: string, whole: string) {
    exists i :: 0 <= i <= |whole| && PartAt(part, whole, i)
  }

  function Text(s: Option<string>): string {
    if s.Some? then s.value else ""
  }

  predicate Given(s: Option<string>) {
    s.Some? && s.value != ""
  }

  predicate SalaryMatches(c: Config, s: Salary, f: Facts) {
    && s.country == f.country
    && (s.state.Some? ==> c.fold(s.state.value) == c.fold(Text(f.state)))
    && (s.city.Some? ==> c.fold(s.city.value) == c.fold(Text(f.city)))
  }

  function Specificity(s: Salary): nat {
    (if s.city.Some? then 2 else 0) + (if s.state.Some? then 1 else 0)
  }

  /** The first among the most specific salary rules of this place. */
  function BestSalary(c: Config, salaries: seq<Salary>, f: Facts): Option<Salary> {
    if |salaries| == 0 then None else
    var front, last := BestSalary(c, salaries[..|salaries| - 1], f), salaries[|salaries| - 1];
    if SalaryMatches(c, last, f) && (front.None? || Specificity(last) > Specificity(front.value))
    then Some(last) else front
  }

  /** A missing region must not silently select a cheaper default. */
  predicate UncertainPlace(c: Config, salaries: seq<Salary>, f: Facts) {
    exists i :: 0 <= i < |salaries| && Given(salaries[i].city) && c.fold(salaries[i].city.value) == c.fold(Text(f.city))
                && Given(salaries[i].state) && !Given(f.state)
  }

  function SalaryValue(c: Config, f: Facts, p: Policy, e: Expected): Option<bool> {
    var best := BestSalary(c, p.salaries, f);
    if best.None? || !Given(f.city) || f.salaryMin.None? || f.currency != e.currency || f.period != e.period then None
    else if UncertainPlace(c, p.salaries, f) then None
    else Some(f.salaryMin.value >= best.value.minimum)
  }

  function OpenValue(f: Facts, now: Now): Option<bool> {
    var past := IsPast(f.deadline, now);
    var value := if past == Some(true) then Some(false) else f.open;
    if f.deadline.Some? && !f.deadline.value.Blank? && past.None? && value != Some(false) then None else value
  }

  function RelevantValue(c: Config, f: Facts, e: Expected): Option<bool> {
    if f.relevant.Some? then f.relevant
    else if Given(f.title) && exists i :: 0 <= i < |e.fields| && e.fields[i] != "related technical areas"
                                         && Contains(c.fold(e.fields[i]), c.fold(f.title.value))
    then Some(true)
    else None
  }

  function OperatorOf(key: string): Option<string> {
    match key
    case "internship.period" => Some("INTERSECTS")
    case "internship.country" => Some("EQUALS")
    case "internship.paid" => Some("EQUALS")
    case "internship.cpt" => Some("REQUIRE")
    case "internship.salary" => Some("LOCATION_MINIMUM")
    case "relevant_field" => Some("RELEVANT_TO")
    case "application_open" => Some("EQUALS")
    case "professional_experience" => Some("LESS_THAN")
    case "new_grad.start_timing" => Some("COMPATIBLE_WITH")
    case "early_career.start_timing" => Some("COMPATIBLE_WITH")
    case "new_grad.countries" => Some("IN")
    case "early_career.countries" => Some("IN")
    case "usa.full_time_authorization" => Some("REVIEW_POLICY")
    case _ => None
  }

  predicate Applies(r: Rule, f: Facts) {
    || r.applies == "ALL" || r.applies == f.employment
    || (r.applies == "FULL_TIME" && (f.employment == "NEW_GRAD" || f.employment == "EARLY_CAREER"))
  }

  /** A rule that says nothing about this job leaves no result. */
  predicate Silent(r: Rule, f: Facts) {
    || !Applies(r, f)
    || (Some(r.operator) == OperatorOf(r.key) && r.key == "usa.full_time_authorization"
      && f.country != r.expected.country)
  }

  /** What a rule finds; None is unresolved. */
  function ValueOf(c: Config, f: Facts, p: Policy, now: Now, r: Rule): Option<bool> {
    var e := r.expected;
    if Some(r.operator) != OperatorOf(r.key) then None
    else match r.key
      case "internship.period" =>
        if f.start.Some? && f.end.Some? && e.start.Some? && e.end.Some? && !Before(f.end.value, f.start.value)
        then Some(!Before(e.end.value, f.start.value) && !Before(f.end.value, e.start.value)) else None
      case "internship.country" => if Given(f.country) then Some(f.country == e.country) else None
      case "new_grad.countries" => if Given(f.country) then Some(f.country.value in e.countries) else None
      case "early_career.countries" => if Given(f.country) then Some(f.country.value in e.countries) else None
      case "internship.paid" => if f.paid.Some? then Some(f.paid == e.paid) else None
      case "internship.cpt" => if f.cpt == "UNKNOWN" then None else Some(f.cpt == "SUPPORTED")
      case "internship.salary" => SalaryValue(c, f, p, e)
      case "professional_experience" => if f.experienceMin.Some? then Some(f.experienceMin.value < e.years) else None
      case "application_open" => OpenValue(f, now)
      case "new_grad.start_timing" => if f.start.Some? then Some(f.start.value.month > e.reference) else None
      case "early_career.start_timing" => if f.start.Some? then Some(f.start.value.month > e.reference) else None
      case "relevant_field" => RelevantValue(c, f, e)
      case _ => if f.authorization == "UNKNOWN" then None
                else Some(f.authorization == "OPT_COMPATIBLE" || f.authorization == "SPONSORSHIP_SUPPORTED")
  }

  function AsVerdict(value: Option<bool>): Verdict {
    if value.None? then Review else if value.value then Pass else Fail
  }

  function RuleResults(c: Config, f: Facts, p: Policy, now: Now, n: nat): seq<RuleResult>
    requires n <= |p.rules|
  {
    if n == 0 then [] else
    var r := p.rules[n - 1];
    RuleResults(c, f, p, now, n - 1)
    + if Silent(r, f) then [] else [RuleResult(r.id, r.key, AsVerdict(ValueOf(c, f, p, now, r)))]
  }

  /** What extraction itself left open. */
  function Unresolved(f: Facts): seq<RuleResult> {
    (if f.employment == "UNKNOWN" then [RuleResult("extraction.employment_type", "extraction.employment_type", Review)]
      else [])
    + (if !Given(f.company) || !Given(f.title) then [RuleResult("extraction.identity", "extraction.identity", Review)]
      else [])
    + seq(|f.issues|,
      i requires 0 <= i < |f.issues| => RuleResult("extraction." + f.issues[i], "extraction." + f.issues[i], Review))
  }

  predicate Has(rules: seq<RuleResult>, v: Verdict) {
    exists i :: 0 <= i < |rules| && rules[i].result == v
  }

  function OutcomeOf(rules: seq<RuleResult>): Verdict {
    if Has(rules, Fail) then Fail else if |rules| == 0 || Has(rules, Review) then Review else Pass
  }

  function Evaluated(c: Config, f: Facts, p: Policy, now: Now): Decision {
    var rules := Unresolved(f) + RuleResults(c, f, p, now, |p.rules|);
    Decision(OutcomeOf(rules), rules)
  }

  /** The first part of `evaluate`: what extraction left open. */
  method OpenQuestions(f: Facts) returns (results: seq<RuleResult>)
    ensures results == Unresolved(f)
  {
    results := [];
    if f.employment == "UNKNOWN" {
      results := results + [RuleResult("extraction.employment_type", "extraction.employment_type", Review)];
    }
    if !Given(f.company) || !Given(f.title) {
      results := results + [RuleResult("extraction.identity", "extraction.identity", Review)];
    }
    ghost var first := results;
    for i := 0 to |f.issues|
      invariant results == first
        + seq(i, k requires 0 <= k < i => RuleResult("extraction." + f.issues[k], "extraction." + f.issues[k], Review))
    {
      results := results + [RuleResult("extraction." + f.issues[i], "extraction." + f.issues[i], Review)];
    }
  }

  /** `evaluate`. */
  method Evaluate(c: Config, f: Facts, p: Policy, now: Now) returns (d: Decision)
    ensures d == Evaluated(c, f, p, now)
    ensures d.outcome == Pass <==> |d.rules| > 0 && forall i :: 0 <= i < |d.rules| ==> d.rules[i].result == Pass
    ensures d.outcome == Pass ==> Given(f.company) && Given(f.title)
  {
    hide Silent, ValueOf, Unresolved;
    var results := OpenQuestions(f);
    for n := 0 to |p.rules|
      invariant results == Unresolved(f) + RuleResults(c, f, p, now, n)
    {
      var r := p.rules[n];
      if !Silent(r, f) {
        results := results + [RuleResult(r.id, r.key, AsVerdict(ValueOf(c, f, p, now, r)))];
      }
    }
    d := Decision(OutcomeOf(results), results);
    PassMeansAllPass(results);
    PassHasIdentity(c, f, p, now);
  }

  lemma PassMeansAllPass(rules: seq<RuleResult>)
    ensures OutcomeOf(rules) == Pass <==> |rules| > 0 && forall i :: 0 <= i < |rules| ==> rules[i].result == Pass
  {
    if OutcomeOf(rules) == Pass {
      forall i | 0 <= i < |rules| ensures rules[i].result == Pass {
        assert rules[i].result != Fail && rules[i].result != Review;
      }
    }
  }

  /** A job that passes has a company and a title. */
  lemma PassHasIdentity(c: Config, f: Facts, p: Policy, now: Now)
    ensures Evaluated(c, f, p, now).outcome == Pass ==> Given(f.company) && Given(f.title)
  {
    hide RuleResults;
    if !Given(f.company) || !Given(f.title) {
      var k := if f.employment == "UNKNOWN" then 1 else 0;
      assert Evaluated(c, f, p, now).rules[k].result == Review;
    }
  }

  // ---------------------------------------------------------------- passing time

  /** A later result is the same, or a failure. */
  ghost predicate SameOrFail(a: seq<RuleResult>, b: seq<RuleResult>) {
    |a| == |b| && forall i :: 0 <= i < |a| ==>
      b[i].id == a[i].id && b[i].key == a[i].key && (b[i].result == a[i].result || b[i].result == Fail)
  }

  lemma OpenOnlyCloses(f: Facts, now: Now, later: Now)
    requires Later(now, later)
    ensures AsVerdict(OpenValue(f, later)) == AsVerdict(OpenValue(f, now)) || AsVerdict(OpenValue(f, later)) == Fail
  {
  }

  lemma {:induction false} RulesOnlyClose(c: Config, f: Facts, p: Policy, now: Now, later: Now, n: nat)
    requires Later(now, later) && n <= |p.rules|
    ensures SameOrFail(RuleResults(c, f, p, now, n), RuleResults(c, f, p, later, n))
  {
    if n > 0 {
      RulesOnlyClose(c, f, p, now, later, n - 1);
      OpenOnlyCloses(f, now, later);
      hide Silent, OpenValue, OperatorOf;
      var r := p.rules[n - 1];
      assert r.key != "application_open" ==> ValueOf(c, f, p, later, r) == ValueOf(c, f, p, now, r);
    }
  }

  lemma SameOrFailOutcome(a: seq<RuleResult>, b: seq<RuleResult>)
    requires SameOrFail(a, b)
    ensures OutcomeOf(b) == OutcomeOf(a) || OutcomeOf(b) == Fail
  {
    if !Has(b, Fail) {
      forall i | 0 <= i < |a| ensures b[i].result == a[i].result {
      }
      forall v: Verdict ensures Has(a, v) <==> Has(b, v) {
        if i :| 0 <= i < |a| && a[i].result == v {
          assert b[i].result == v;
        }
        if i :| 0 <= i < |b| && b[i].result == v {
          assert a[i].result == v;
        }
      }
    }
  }

  /** Evaluating the same facts later gives the same outcome or FAIL, rule by rule and as a whole. */
  lemma TimeOnlyFails(c: Config, f: Facts, p: Policy, now: Now, later: Now)
    requires Later(now, later)
    ensures var a, b := Evaluated(c, f, p, now), Evaluated(c, f, p, later);
      SameOrFail(a.rules, b.rules) && (b.outcome == a.outcome || b.outcome == Fail)
  {
    RulesOnlyClose(c, f, p, now, later, |p.rules|);
    hide RuleResults, OutcomeOf;
    var u := Unresolved(f);
    assert SameOrFail(u + RuleResults(c, f, p, now, |p.rules|), u + RuleResults(c, f, p, later, |p.rules|));
    SameOrFailOutcome(Evaluated(c, f, p, now).rules, Evaluated(c, f, p, later).rules);
  }

  // ---------------------------------------------------------------- the semantic step

  datatype Finding = Finding(field: string, value: string, quote: string, confidence: real)

  /** `semantic_needed`. */
  predicate SemanticNeeded(d: Decision, f: Facts) {
    d.outcome != Fail && f.text != "" &&
    exists i :: 0 <= i < |d.rules| && d.rules[i].result == Review
                && (d.rules[i].key == "relevant_field" || d.rules[i].key == "internship.cpt"
                  || d.rules[i].key == "usa.full_time_authorization")
  }

  predicate InReview(rules: seq<RuleResult>, key: string) {
    exists i :: 0 <= i < |rules| && rules[i].key == key && rules[i].result == Review
  }

  predicate OnlySpace(c: Config, s: string) {
    forall x :: x in s ==> c.space(x)
  }

  /** A finding counts if it is alone in its field, quoted from the text, and confident enough. */
  predicate Counts(c: Config, f: Facts, findings: seq<Finding>, i: nat)
    requires i < |findings|
  {
    var x := findings[i];
    && (forall k :: 0 <= k < |findings| && k != i ==> findings[k].field != x.field)
    && x.value != "UNKNOWN" && Contains(x.quote, f.text) && !OnlySpace(c, x.quote)
    && x.confidence >= (if x.value == "NOT_SUPPORTED" then c.failAt else c.passAt)
  }

  /** What one finding changes. */
  function Applied(c: Config, updated: Facts, rules: seq<RuleResult>, x: Finding): Facts {
    if x.field == "relevant" && InReview(rules, "relevant_field")
      && (x.value == "SUPPORTED" || x.value == "NOT_SUPPORTED")
    then updated.(relevant := Some(x.value == "SUPPORTED"))
    else if x.field == "cpt" && updated.cpt == "UNKNOWN" && Contains("cpt", c.lower(x.quote))
            && (x.value == "SUPPORTED" || x.value == "NOT_SUPPORTED")
    then updated.(cpt := x.value)
    else if x.field == "authorization" && updated.authorization == "UNKNOWN"
            && (Contains("sponsor", c.lower(x.quote)) || Contains("opt", c.lower(x.quote)))
    then updated.(authorization := match x.value
                                   case "SUPPORTED" => "SPONSORSHIP_SUPPORTED"
                                   case "NOT_SUPPORTED" => "SPONSORSHIP_NOT_SUPPORTED"
                                   case "OPT_COMPATIBLE" => "OPT_COMPATIBLE"
                                   case _ => updated.authorization)
    else updated
  }

  function Refined(c: Config, f: Facts, rules: seq<RuleResult>, findings: seq<Finding>, n: nat): Facts
    requires n <= |findings|
  {
    if n == 0 then f else
    var front := Refined(c, f, rules, findings, n - 1);
    if Counts(c, f, findings, n - 1) then Applied(c, front, rules, findings[n - 1]) else front
  }

  /** The loop of `semantic_check` over whatever the model returned; None where the gateway refused. */
  method SemanticCheck(c: Config, f: Facts, d: Decision, output: Option<seq<Finding>>) returns (updated: Facts)
    ensures updated == if output.None? then f else Refined(c, f, d.rules, output.value, |output.value|)
    ensures updated == f.(relevant := updated.relevant, cpt := updated.cpt, authorization := updated.authorization)
    ensures updated.relevant != f.relevant ==> InReview(d.rules, "relevant_field")
    ensures updated.cpt != f.cpt ==> f.cpt == "UNKNOWN"
    ensures updated.authorization != f.authorization ==> f.authorization == "UNKNOWN"
  {
    hide Counts, InReview, Contains;
    updated := f;
    if output.None? {
      return;
    }
    var findings := output.value;
    for i := 0 to |findings|
      invariant updated == Refined(c, f, d.rules, findings, i)
      invariant updated == f.(relevant := updated.relevant, cpt := updated.cpt, authorization := updated.authorization)
      invariant updated.relevant != f.relevant ==> InReview(d.rules, "relevant_field")
      invariant updated.cpt != f.cpt ==> f.cpt == "UNKNOWN"
      invariant updated.authorization != f.authorization ==> f.authorization == "UNKNOWN"
    {
      if Counts(c, f, findings, i) {
        updated := Applied(c, updated, d.rules, findings[i]);
      }
    }
  }

  /** What the semantic step may change at all. */
  ghost predicate Refinement(f: Facts, g: Facts, rules: seq<RuleResult>) {
    && g == f.(relevant := g.relevant, cpt := g.cpt, authorization := g.authorization)
    && (g.relevant != f.relevant ==> InReview(rules, "relevant_field"))
    && (g.cpt != f.cpt ==> f.cpt == "UNKNOWN")
    && (g.authorization != f.authorization ==> f.authorization == "UNKNOWN")
  }

  lemma {:induction false} RefinedIsRefinement(c: Config, f: Facts, rules: seq<RuleResult>, findings: seq<Finding>,
      n: nat)
    requires n <= |findings|
    ensures Refinement(f, Refined(c, f, rules, findings, n), rules)
  {
    hide Counts, InReview, Contains;
    if n > 0 {
      RefinedIsRefinement(c, f, rules, findings, n - 1);
    }
  }

  /** Keys are unique in a policy (the constraint of the rules table). */
  ghost predicate UniqueKeys(p: Policy) {
    forall i, j :: 0 <= i < j < |p.rules| ==> p.rules[i].key != p.rules[j].key
  }

  /** Results that were PASS or FAIL are kept. */
  ghost predicate Keeps(a: seq<RuleResult>, b: seq<RuleResult>) {
    |a| == |b| && forall i :: 0 <= i < |a| ==>
      b[i].id == a[i].id && b[i].key == a[i].key && (a[i].result != Review ==> b[i].result == a[i].result)
  }

  /** If relevance is in review, it is the one relevance rule that is. */
  lemma {:induction false} ReviewedRule(c: Config, f: Facts, p: Policy, now: Now, n: nat)
    requires n <= |p.rules| && InReview(RuleResults(c, f, p, now, n), "relevant_field")
    ensures exists i ::
      && 0 <= i < n && p.rules[i].key == "relevant_field"
      && !Silent(p.rules[i], f) && ValueOf(c, f, p, now, p.rules[i]) == None
  {
    hide Silent, ValueOf;
    var results := RuleResults(c, f, p, now, n);
    var k :| 0 <= k < |results| && results[k].key == "relevant_field" && results[k].result == Review;
    var front := RuleResults(c, f, p, now, n - 1);
    if k < |front| {
      assert front[k].key == "relevant_field" && front[k].result == Review;
      ReviewedRule(c, f, p, now, n - 1);
    } else {
      assert p.rules[n - 1].key == "relevant_field";
    }
  }

  lemma NotAnIssue(f: Facts)
    ensures !InReview(Unresolved(f), "relevant_field")
  {
    forall i | 0 <= i < |Unresolved(f)| ensures Unresolved(f)[i].key != "relevant_field" {
      assert Unresolved(f)[i].key[0] == 'e';
    }
  }

  /** One rule, before and after the refinement. */
  lemma RuleKept(c: Config, f: Facts, g: Facts, p: Policy, now: Now, later: Now, i: nat)
    requires UniqueKeys(p) && i < |p.rules| && Refinement(f, g, Evaluated(c, f, p, now).rules)
    ensures Silent(p.rules[i], g) == Silent(p.rules[i], f)
    ensures ValueOf(c, f, p, later, p.rules[i]).Some? ==>
      ValueOf(c, g, p, later, p.rules[i]) == ValueOf(c, f, p, later, p.rules[i])
  {
    hide SalaryValue, OperatorOf, Evaluated, InReview;
    var r := p.rules[i];
    if r.key == "relevant_field" && g.relevant != f.relevant {
      RelevanceOpen(c, f, p, now);
      var k :| 0 <= k < |p.rules| && p.rules[k].key == "relevant_field" && ValueOf(c, f, p, now, p.rules[k]) == None;
      assert k == i by {
        assert !(k < i) && !(i < k);
      }
      assert ValueOf(c, f, p, later, r) == ValueOf(c, f, p, now, r);
    } else if r.key == "internship.salary" {
      SalaryIgnores(c, f, g, p, r.expected);
    }
  }

  lemma RelevanceOpen(c: Config, f: Facts, p: Policy, now: Now)
    requires InReview(Evaluated(c, f, p, now).rules, "relevant_field")
    ensures exists k ::
      0 <= k < |p.rules| && p.rules[k].key == "relevant_field" && ValueOf(c, f, p, now, p.rules[k]) == None
  {
    hide ValueOf, Silent, RuleResults;
    var u, results := Unresolved(f), RuleResults(c, f, p, now, |p.rules|);
    var all: seq<RuleResult> := u + results;
    var k :| 0 <= k < |all| && all[k].key == "relevant_field" && all[k].result == Review;
    NotAnIssue(f);
    assert k >= |u| && results[k - |u|] == all[k];
    ReviewedRule(c, f, p, now, |p.rules|);
  }

  lemma {:induction false} BestIgnores(c: Config, f: Facts, g: Facts, salaries: seq<Salary>)
    requires g == f.(relevant := g.relevant, cpt := g.cpt, authorization := g.authorization)
    ensures BestSalary(c, salaries, g) == BestSalary(c, salaries, f)
  {
    if |salaries| > 0 {
      BestIgnores(c, f, g, salaries[..|salaries| - 1]);
    }
  }

  lemma SalaryIgnores(c: Config, f: Facts, g: Facts, p: Policy, e: Expected)
    requires g == f.(relevant := g.relevant, cpt := g.cpt, authorization := g.authorization)
    ensures SalaryValue(c, g, p, e) == SalaryValue(c, f, p, e)
  {
    BestIgnores(c, f, g, p.salaries);
  }

  lemma {:induction false} RulesKept(c: Config, f: Facts, g: Facts, p: Policy, now: Now, n: nat)
    requires UniqueKeys(p) && n <= |p.rules| && Refinement(f, g, Evaluated(c, f, p, now).rules)
    ensures Keeps(RuleResults(c, f, p, now, n), RuleResults(c, g, p, now, n))
  {
    hide Silent, ValueOf, Refinement, UniqueKeys, Evaluated;
    if n > 0 {
      RulesKept(c, f, g, p, now, n - 1);
      RuleKept(c, f, g, p, now, now, n - 1);
    }
  }

  /**
   For any model output the semantic step keeps every rule that was already decided: it only resolves
   reviews.
   */
  lemma SemanticOnlyResolves(c: Config, f: Facts, p: Policy, now: Now, findings: seq<Finding>)
    requires UniqueKeys(p)
    ensures var d := Evaluated(c, f, p, now);
      var g := Refined(c, f, d.rules, findings, |findings|);
      Keeps(d.rules, Evaluated(c, g, p, now).rules)
  {
    hide RuleResults, Refinement, UniqueKeys;
    var d := Evaluated(c, f, p, now);
    var g := Refined(c, f, d.rules, findings, |findings|);
    RefinedIsRefinement(c, f, d.rules, findings, |findings|);
    RulesKept(c, f, g, p, now, |p.rules|);
    SameUnresolved(f, g, d.rules);
    hide Unresolved, Refined;
    var u, a, b := Unresolved(f), RuleResults(c, f, p, now, |p.rules|), RuleResults(c, g, p, now, |p.rules|);
    assert Keeps(u + a, u + b);
  }

  lemma SameUnresolved(f: Facts, g: Facts, rules: seq<RuleResult>)
    requires Refinement(f, g, rules)
    ensures Unresolved(g) == Unresolved(f)
  {
    hide InReview;
    assert g.issues == f.issues;
  }

  /** What is published is never more favourable than a rule that had failed: FAIL survives both steps. */
  lemma FailureIsFinal(c: Config, f: Facts, p: Policy, now: Now, later: Now, findings: seq<Finding>)
    requires UniqueKeys(p) && Later(now, later) && Evaluated(c, f, p, now).outcome == Fail
    ensures var g := Refined(c, f, Evaluated(c, f, p, now).rules, findings, |findings|);
      Evaluated(c, g, p, later).outcome == Fail
  {
    var d := Evaluated(c, f, p, now);
    var g := Refined(c, f, d.rules, findings, |findings|);
    SemanticOnlyResolves(c, f, p, now, findings);
    TimeOnlyFails(c, g, p, now, later);
    hide RuleResults, Unresolved, Refined;
    var i :| 0 <= i < |d.rules| && d.rules[i].result == Fail;
    assert Evaluated(c, g, p, now).rules[i].result == Fail;
  }

  /** The semantic step turns the first rule's PASS into a FAIL. */
  ghost predicate Overturns(c: Config, f: Facts, p: Policy, now: Now, findings: seq<Finding>) {
    |p.rules| == 2 &&
    var d := Evaluated(c, f, p, now);
    var g := Refined(c, f, d.rules, findings, |findings|);
    RuleResults(c, f, p, now, 1) == [RuleResult(p.rules[0].id, p.rules[0].key, Pass)]
    && RuleResults(c, g, p, now, 1) == [RuleResult(p.rules[0].id, p.rules[0].key, Fail)]
  }

  /**
   The database forbids two rules of one set with the same key, and SemanticOnlyResolves rests on that.  This
   is one sufficient example of what the constraint prevents, not an exact condition: with two relevance
   rules, one passed on the title and one in review, a negative finding turns the decided one over.
   */
  lemma UniqueKeysMatter(c: Config, f: Facts, p: Policy, now: Now, x: Finding)
    requires |p.rules| == 2 && p.rules[0].key == "relevant_field" == p.rules[1].key
    requires p.rules[0].operator == "RELEVANT_TO" && p.rules[0].applies == "ALL" == p.rules[1].applies
    requires f.relevant == None && RelevantValue(c, f, p.rules[0].expected) == Some(true)
    requires ValueOf(c, f, p, now, p.rules[1]) == None
    requires x.field == "relevant" && x.value == "NOT_SUPPORTED" && Counts(c, f, [x], 0)
    ensures Overturns(c, f, p, now, [x])
  {
    hide Contains, OnlySpace, Counts, Unresolved;
    var d := Evaluated(c, f, p, now);
    var results := RuleResults(c, f, p, now, 2);
    assert results == RuleResults(c, f, p, now, 1) + [RuleResult(p.rules[1].id, "relevant_field", Review)];
    assert d.rules[|d.rules| - 1].result == Review && InReview(d.rules, "relevant_field");
    var g := f.(relevant := Some(false));
    assert Refined(c, f, d.rules, [x], 0) == f && Refined(c, f, d.rules, [x], 1) == g;
    assert ValueOf(c, f, p, now, p.rules[0]) == Some(true) && ValueOf(c, g, p, now, p.rules[0]) == Some(false);
    assert RuleResults(c, f, p, now, 0) == [] == RuleResults(c, g, p, now, 0);
    assert RuleResults(c, f, p, now, 1) == [RuleResult(p.rules[0].id, p.rules[0].key, Pass)];
    assert RuleResults(c, g, p, now, 1) == [RuleResult(p.rules[0].id, p.rules[0].key, Fail)];
  }
}
