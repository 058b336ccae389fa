/**
 The qualification worker: evidence is stored, a model may be asked once, and the decision is made
 again at the time of publication.  A crash may fall between any two of these steps.
 */
module QualificationWorker {
  import opened Wrappers
  import opened Qualification

  datatype JobStatus = NewJob | Active | Passed | Aborted | NeedsReview

  /** The durable snapshot of one qualification. */
  datatype Data = Data(facts: Facts, policy: Policy, at: Now, started: bool, completed: bool)

  datatype Error = WrongState | NoSnapshot | JobNotActive

  /** The job status that an outcome is published as. */
  function Published(v: Verdict): JobStatus {
    match v
    case Pass => Passed
    case Fail => Aborted
    case Review => NeedsReview
  }

  predicate Done(s: JobStatus) {
    s in {Passed, Aborted, NeedsReview}
  }

  class QualificationWorker {
    const config: Config
    var status: JobStatus
    var data: Option<Data>
    var asked: nat            // model requests made
    var applications: nat     // applications created for the job

    ghost predicate Valid()
      reads this
    {
      && asked <= 1 && (asked == 1 ==> data.Some? && data.value.started)
      && applications == (if status == Passed then 1 else 0)
      && (Done(status) ==> data.Some?)
      && (status == Passed ==> Given(data.value.facts.company) && Given(data.value.facts.title))
    }

    constructor (config: Config)
      ensures this.config == config && Valid() && status == NewJob && data == None && asked == 0 && applications == 0
    {
      this.config := config;
      status, data, asked, applications := NewJob, None, 0, 0;
    }

    /** `_start` and the first `_store`; a stored snapshot is reused. */
    method Start(facts: Facts, policy: Policy, now: Now) returns (r: Result<(), Error>)
      requires Valid()
      modifies this`status, this`data
      ensures Valid()
      ensures old(data).Some? ==> r.Success? && data == old(data) && status == old(status)
      ensures old(data).None? && r.Success? ==> data == Some(Data(facts, policy, now, false, false)) && status == Active
      ensures r.Failure? ==> data == old(data) && status == old(status)
      ensures r.Failure? <==> old(data).None? && old(status) in {Passed, Aborted, NeedsReview}
    {
      if data.Some? {
        return Success(());
      }
      if status == NewJob {
        status := Active;
      } else if status != Active {
        return Failure(JobNotActive);
      }
      data := Some(Data(facts, policy, now, false, false));
      return Success(());
    }

    /**
     The semantic step of `_execute`.  The mark is stored before the request is made, so that a request
     that a crash interrupts is not made again; the original unknowns then stay in review.
     */
    method Semantic(gateway: bool, output: Option<seq<Finding>>, crash: bool) returns (r: Result<(), Error>)
      requires Valid()
      modifies this`data, this`asked
      ensures Valid()
      ensures old(data).Some? ==>
        && data.Some? && data.value.policy == old(data).value.policy && data.value.at == old(data).value.at
        && var d := old(data).value;
           (UniqueKeys(d.policy) ==>
              Keeps(Evaluated(config, d.facts, d.policy, d.at).rules,
                Evaluated(config, data.value.facts, d.policy, d.at).rules))
      ensures old(data).Some? && old(data).value.started ==> data == old(data) && asked == old(asked)
      ensures old(data).Some? ==>
        var d := old(data).value;
        var wanted := gateway && !d.started && SemanticNeeded(Evaluated(config, d.facts, d.policy, d.at), d.facts);
        && asked == old(asked) + (if wanted then 1 else 0)
        && (!wanted ==> data == old(data))
        && (wanted && crash ==> data == Some(d.(started := true)))
        && (wanted && !crash ==> data == Some(d.(started := true, completed := true, facts :=
              if output.None? then d.facts
              else Refined(config, d.facts, Evaluated(config, d.facts, d.policy, d.at).rules, output.value,
                           |output.value|))))
      ensures old(data).None? ==> data == None
    {
      hide Evaluated, Refined, Keeps;
      if data.None? {
        return Failure(NoSnapshot);
      }
      var d := data.value;
      KeepsItself(Evaluated(config, d.facts, d.policy, d.at).rules);
      var decision := Evaluate(config, d.facts, d.policy, d.at);
      if !gateway || !SemanticNeeded(decision, d.facts) || d.started {
        return Success(());
      }
      data := Some(d.(started := true));
      asked := asked + 1;
      if crash {
        return Success(());
      }
      var facts := SemanticCheck(config, d.facts, decision, output);
      if UniqueKeys(d.policy) && output.Some? {
        SemanticOnlyResolves(config, d.facts, d.policy, d.at, output.value);
      }
      data := Some(d.(facts := facts, started := true, completed := true));
      IdentityKept(config, d.facts, facts);
      return Success(());
    }

    /**
     `_publish`: the facts are evaluated again at the current time and the job leaves ACTIVE for good.  An
     application is created exactly for a job that passes, and it then has a company and a title.
     */
    method Publish(now: Now) returns (r: Result<(), Error>)
      requires Valid()
      modifies this`status, this`applications
      ensures Valid()
      ensures data.None? ==> r.Failure? && status == old(status)
      ensures data.Some? && Done(old(status)) ==>
        r.Success? && status == old(status) && applications == old(applications)
      ensures data.Some? && old(status) == NewJob ==> r == Failure(WrongState) && status == NewJob
      ensures data.Some? && old(status) == Active ==>
        var d := data.value;
        && status == Published(Evaluated(config, d.facts, d.policy, now).outcome) && r.Success?
        && (status == Passed <==> Evaluated(config, d.facts, d.policy, now).outcome == Pass)
        && (status == Aborted <==> Evaluated(config, d.facts, d.policy, now).outcome == Fail)
        && applications == old(applications) + (if status == Passed then 1 else 0)
        && (Later(d.at, now) ==>
          status == Published(Evaluated(config, d.facts, d.policy, d.at).outcome) || status == Aborted)
    {
      hide Evaluated;
      if data.None? {
        return Failure(NoSnapshot);
      }
      if Done(status) {
        return Success(());
      }
      if status != Active {
        return Failure(WrongState);
      }
      var d := data.value;
      var decision := Evaluate(config, d.facts, d.policy, now);
      if Later(d.at, now) {
        TimeOnlyFails(config, d.facts, d.policy, d.at, now);
      }
      status := Published(decision.outcome);
      if status == Passed {
        assert Given(d.facts.company) && Given(d.facts.title);
        applications := applications + 1;
      }
      return Success(());
    }
  }

  lemma KeepsItself(rules: seq<RuleResult>)
    ensures Keeps(rules, rules)
  {
  }

  lemma IdentityKept(c: Config, f: Facts, g: Facts)
    requires g == f.(relevant := g.relevant, cpt := g.cpt, authorization := g.authorization)
    ensures g.company == f.company && g.title == f.title
  {
  }
}
