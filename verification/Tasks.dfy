/** The runs of accepted tasks, interleaved, and everything the handler tells the outside. */
module TaskRuns {
  import opened Common

  datatype JobStatus = Preparing | InProgress | Completed | Failed

  datatype ExecutionType = Script | Docker | Other

  /** JobParams["session_id"]: absent or not a non-empty string, not a UUID, or a session. */
  datatype SessionParam = Missing | Malformed | Session(id: string)

  datatype Task = Task(job: string, kind: ExecutionType, session: SessionParam)

  /** What the daemon was started with. */
  datatype Config = Config(reporter: bool, scriptExecutor: bool, dockerExecutor: bool, billing: bool)

  /** What an executor reports. */
  datatype Outcome = Outcome(error: bool, exitCode: int)

  datatype Reason = JobFinished | JobFailed

  datatype Effect = Report(job: string, status: JobStatus) | EndSession(job: string, session: string, reason: Reason)

  function FinalStatus(c: Config, t: Task, executed: Outcome): JobStatus {
    var r := match t.kind
      case Script => if c.scriptExecutor then executed else Outcome(true, -1)
      case Docker => if c.dockerExecutor then executed else Outcome(true, -1)
      case Other => Outcome(true, -1);
    if r.error || r.exitCode != 0 then Failed else Completed
  }

  /** A run succeeds if there is an executor for its kind, and that reports no error and exit code 0. */
  predicate Succeeds(c: Config, t: Task, executed: Outcome) {
    && ((t.kind.Script? && c.scriptExecutor) || (t.kind.Docker? && c.dockerExecutor))
    && !executed.error && executed.exitCode == 0
  }

  predicate Terminal(status: JobStatus) { status.Failed? || status.Completed? }

  function Reported(c: Config, job: string, status: JobStatus): seq<Effect> {
    if c.reporter then [Report(job, status)] else []
  }

  /** The end-of-session call for a run whose final status was just reported. */
  function Ended(c: Config, t: Task, final: JobStatus): seq<Effect> {
    if c.billing && t.session.Session? then
      [EndSession(t.job, t.session.id, if final.Failed? then JobFailed else JobFinished)]
    else []
  }

  // ----- The interleaving machine -----

  /** Where an accepted run stands. */
  datatype Phase =
    | Started
    | Aborted                      // no workspace
    | Running
    | Closing(final: JobStatus)    // final status reported, session not ended yet
    | Done(final: JobStatus)

  datatype Job = Job(task: Task, phase: Phase)

  datatype State = State(jobs: map<string, Job>, rejections: map<string, nat>, active: set<string>, log: seq<Effect>)

  datatype Event =
    | Offer(task: Task, healthy: bool)
    | Prepare(job: string, workspace: bool)
    | Execute(job: string, executed: Outcome)
    | Bill(job: string)

  const Start := State(map[], map[], {}, [])

  function Rejections(s: State, job: string): nat { if job in s.rejections then s.rejections[job] else 0 }

  /** `reportTaskStatus` without a reporter returns before it touches the active jobs. */
  function Dropped(c: Config, active: set<string>, job: string): set<string> {
    if c.reporter then active - {job} else active
  }

  // Job ids are offered again only after a rejection; a step that does not apply changes nothing.

  function AfterOffer(s: State, t: Task, healthy: bool, c: Config): State {
    if t.job in s.jobs then s
    else if !healthy then
      s.(rejections := s.rejections[t.job := Rejections(s, t.job) + 1],
         active := Dropped(c, s.active, t.job), log := s.log + Reported(c, t.job, Failed))
    else
      s.(jobs := s.jobs[t.job := Job(t, Started)], active := s.active + {t.job},
         log := s.log + Reported(c, t.job, Preparing))
  }

  function AfterPrepare(s: State, job: string, workspace: bool, c: Config): State {
    if job !in s.jobs || !s.jobs[job].phase.Started? then s
    else if workspace then
      s.(jobs := s.jobs[job := s.jobs[job].(phase := Running)], log := s.log + Reported(c, job, InProgress))
    else
      s.(jobs := s.jobs[job := s.jobs[job].(phase := Aborted)],
         active := Dropped(c, s.active, job), log := s.log + Reported(c, job, Failed))
  }

  function AfterExecute(s: State, job: string, executed: Outcome, c: Config): State {
    if job !in s.jobs || !s.jobs[job].phase.Running? then s
    else
      var final := FinalStatus(c, s.jobs[job].task, executed);
      s.(jobs := s.jobs[job := s.jobs[job].(phase := Closing(final))],
         active := Dropped(c, s.active, job), log := s.log + Reported(c, job, final))
  }

  function AfterBill(s: State, job: string, c: Config): State {
    if job !in s.jobs || !s.jobs[job].phase.Closing? then s
    else
      var final := s.jobs[job].phase.final;
      s.(jobs := s.jobs[job := s.jobs[job].(phase := Done(final))], log := s.log + Ended(c, s.jobs[job].task, final))
  }

  function Step(s: State, e: Event, c: Config): State {
    match e
    case Offer(t, healthy) => AfterOffer(s, t, healthy, c)
    case Prepare(job, workspace) => AfterPrepare(s, job, workspace, c)
    case Execute(job, executed) => AfterExecute(s, job, executed, c)
    case Bill(job) => AfterBill(s, job, c)
  }

  function Run(events: seq<Event>, c: Config): State {
    if events == [] then Start else Step(Run(events[..|events| - 1], c), events[|events| - 1], c)
  }

  // ----- The life of one job -----

  /** All effects that concern a job, in order. */
  function About(log: seq<Effect>, job: string): seq<Effect> {
    if log == [] then []
    else
      var e := log[|log| - 1];
      About(log[..|log| - 1], job) + (if e.job == job then [e] else [])
  }

  function Repeat(e: Effect, n: nat): seq<Effect> { if n == 0 then [] else Repeat(e, n - 1) + [e] }

  /** The statuses an accepted run has reported, given where it stands. */
  function Statuses(p: Phase): seq<JobStatus> {
    match p
    case Started => [Preparing]
    case Aborted => [Preparing, Failed]
    case Running => [Preparing, InProgress]
    case Closing(final) => [Preparing, InProgress, final]
    case Done(final) => [Preparing, InProgress, final]
  }

  function Reports(c: Config, job: string, statuses: seq<JobStatus>): seq<Effect> {
    if c.reporter then seq(|statuses|, i requires 0 <= i < |statuses| => Report(job, statuses[i])) else []
  }

  /** What has been said about an accepted run, given where it stands. */
  function Story(c: Config, j: Job): seq<Effect> {
    Reports(c, j.task.job, Statuses(j.phase)) + (if j.phase.Done? then Ended(c, j.task, j.phase.final) else [])
  }

  function Refusals(c: Config, job: string, n: nat): seq<Effect> {
    if c.reporter then Repeat(Report(job, Failed), n) else []
  }

  /** A job's effects are its rejections followed by the story of its one run, as far as it got. */
  ghost predicate Told(s: State, c: Config, job: string) {
    && (job in s.jobs ==> s.jobs[job].task.job == job)
    && (job in s.jobs && (s.jobs[job].phase.Closing? || s.jobs[job].phase.Done?) ==> Terminal(s.jobs[job].phase.final))
    && About(s.log, job) == Refusals(c, job, Rejections(s, job)) + Tale(s, c, job)
  }

  function Tale(s: State, c: Config, job: string): seq<Effect> { if job in s.jobs then Story(c, s.jobs[job]) else [] }

  lemma AboutAppend(log: seq<Effect>, more: seq<Effect>, job: string)
    requires |more| <= 1
    ensures About(log + more, job) == About(log, job) + (if more != [] && more[0].job == job then more else [])
  {
    if more == [] {
      assert log + more == log;
    } else {
      assert (log + more)[..|log|] == log;
    }
  }

  lemma AcceptTells(s: State, t: Task, c: Config, job: string)
    requires Told(s, c, job)
    ensures Told(AfterOffer(s, t, true, c), c, job)
  {
    if t.job !in s.jobs {
      assert Reports(c, t.job, [Preparing]) == Reported(c, t.job, Preparing);
      AdvanceTells(s, AfterOffer(s, t, true, c), c, Reported(c, t.job, Preparing), job);
    }
  }

  lemma RefuseTells(s: State, t: Task, c: Config, job: string)
    requires Told(s, c, job)
    ensures Told(AfterOffer(s, t, false, c), c, job)
  {
    if t.job !in s.jobs {
      AboutAppend(s.log, Reported(c, t.job, Failed), job);
      if t.job == job {
        var n := Rejections(s, job);
        assert Refusals(c, job, n + 1) == Refusals(c, job, n) + Reported(c, job, Failed);
        assert Tale(s, c, job) == [];
      }
    }
  }

  /** One run moves on by one effect at most; no other job hears of it. */
  lemma AdvanceTells(s: State, t: State, c: Config, more: seq<Effect>, job: string)
    requires About(s.log, job) == Refusals(c, job, Rejections(s, job)) + Tale(s, c, job)
    requires t.log == s.log + more && |more| <= 1 && Rejections(t, job) == Rejections(s, job)
    requires Tale(t, c, job) == Tale(s, c, job) + (if more != [] && more[0].job == job then more else [])
    ensures About(t.log, job) == Refusals(c, job, Rejections(t, job)) + Tale(t, c, job)
  {
    AboutAppend(s.log, more, job);
  }

  lemma ReportsGrow(c: Config, job: string, statuses: seq<JobStatus>, status: JobStatus)
    ensures Reports(c, job, statuses + [status]) == Reports(c, job, statuses) + Reported(c, job, status)
  {
  }

  lemma PrepareTells(s: State, j: string, workspace: bool, c: Config, job: string)
    requires Told(s, c, job) && Told(s, c, j)
    ensures Told(AfterPrepare(s, j, workspace, c), c, job)
  {
    if j in s.jobs && s.jobs[j].phase.Started? {
      var next := if workspace then InProgress else Failed;
      ReportsGrow(c, j, Statuses(s.jobs[j].phase), next);
      AdvanceTells(s, AfterPrepare(s, j, workspace, c), c, Reported(c, j, next), job);
    }
  }

  lemma ExecuteTells(s: State, j: string, executed: Outcome, c: Config, job: string)
    requires Told(s, c, job) && Told(s, c, j)
    ensures Told(AfterExecute(s, j, executed, c), c, job)
  {
    if j in s.jobs && s.jobs[j].phase.Running? {
      var final := FinalStatus(c, s.jobs[j].task, executed);
      ReportsGrow(c, j, Statuses(s.jobs[j].phase), final);
      AdvanceTells(s, AfterExecute(s, j, executed, c), c, Reported(c, j, final), job);
    }
  }

  lemma BillTells(s: State, j: string, c: Config, job: string)
    requires Told(s, c, job) && Told(s, c, j)
    ensures Told(AfterBill(s, j, c), c, job)
  {
    if j in s.jobs && s.jobs[j].phase.Closing? {
      AdvanceTells(s, AfterBill(s, j, c), c, Ended(c, s.jobs[j].task, s.jobs[j].phase.final), job);
    }
  }

  /** In every interleaving, every job tells its own story in order. */
  lemma {:induction false} JobLifecycle(events: seq<Event>, c: Config, job: string)
    ensures Told(Run(events, c), c, job)
  {
    if events != [] {
      var before, e := events[..|events| - 1], events[|events| - 1];
      var s := Run(before, c);
      JobLifecycle(before, c, job);
      JobLifecycle(before, c, if e.Offer? then e.task.job else e.job);
      match e
      case Offer(t, healthy) =>
        if healthy {
          AcceptTells(s, t, c, job);
        } else {
          RefuseTells(s, t, c, job);
        }
      case Prepare(j, workspace) => PrepareTells(s, j, workspace, c, job);
      case Execute(j, executed) => ExecuteTells(s, j, executed, c, job);
      case Bill(j) => BillTells(s, j, c, job);
    }
  }

  // ----- What the outcome of the execution decides -----

  /** An execution reports Completed exactly if the task's kind has an executor, which reported neither an
      error nor a non-zero exit code, and Failed in every other case. */
  lemma ExecutionReports(s: State, job: string, executed: Outcome, c: Config)
    requires job in s.jobs && s.jobs[job].phase.Running? && c.reporter
    ensures var t := s.jobs[job].task;
      var good := ((t.kind == Script && c.scriptExecutor) || (t.kind == Docker && c.dockerExecutor))
               && !executed.error && executed.exitCode == 0;
      Step(s, Execute(job, executed), c).log == s.log + [Report(job, if good then Completed else Failed)]
  {
  }

  /** The outcome of the execution that found the job running, if there was one. */
  function ExecutedWith(events: seq<Event>, c: Config, job: string): Option<Outcome> {
    if events == [] then None
    else
      var before, e := events[..|events| - 1], events[|events| - 1];
      var s := Run(before, c);
      if e.Execute? && e.job == job && job in s.jobs && s.jobs[job].phase.Running? then Some(e.executed)
      else ExecutedWith(before, c, job)
  }

  predicate Finished(s: State, job: string) {
    job in s.jobs && (s.jobs[job].phase.Closing? || s.jobs[job].phase.Done?)
  }

  /** What has been said of a job agrees with the outcome of its execution. */
  ghost predicate Truthful(s: State, outcome: Option<Outcome>, c: Config, job: string) {
    && (outcome.Some? <==> Finished(s, job))
    && (outcome.Some? ==>
          var good := Succeeds(c, s.jobs[job].task, outcome.value);
          && s.jobs[job].phase.final == (if good then Completed else Failed)
          && (c.reporter ==> Report(job, if good then Completed else Failed) in s.log))
    && (forall e :: e in s.log && e.job == job ==> TrueOf(e, s, outcome, c, job))
  }

  /** A report of completion, or the end of a session, is about an execution, and says how it went. */
  ghost predicate TrueOf(e: Effect, s: State, outcome: Option<Outcome>, c: Config, job: string) {
    && (e == Report(job, Completed) ==> outcome.Some? && job in s.jobs && Succeeds(c, s.jobs[job].task, outcome.value))
    && (e.EndSession? ==>
          && outcome.Some? && job in s.jobs && c.billing && s.jobs[job].task.session == Session(e.session)
          && (e.reason == JobFinished <==> Succeeds(c, s.jobs[job].task, outcome.value)))
  }

  ghost predicate Named(s: State) { forall j :: j in s.jobs ==> s.jobs[j].task.job == j }

  lemma StepNames(s: State, e: Event, c: Config)
    requires Named(s)
    ensures Named(Step(s, e, c))
  {
  }

  /** A step that neither executes nor starts the job leaves what is said of it true, if what it adds is. */
  lemma StillTruthful(s: State, t: State, outcome: Option<Outcome>, c: Config, job: string, more: seq<Effect>)
    requires Truthful(s, outcome, c, job) && t.log == s.log + more
    requires Finished(t, job) <==> Finished(s, job)
    requires job in s.jobs ==> job in t.jobs && t.jobs[job].task == s.jobs[job].task
    requires Finished(s, job) ==> t.jobs[job].phase.final == s.jobs[job].phase.final
    requires forall e :: e in more && e.job == job ==> TrueOf(e, t, outcome, c, job)
    ensures Truthful(t, outcome, c, job)
  {
    forall e | e in t.log && e.job == job
      ensures TrueOf(e, t, outcome, c, job)
    {
      assert e in s.log ==> TrueOf(e, s, outcome, c, job);
    }
  }

  lemma ExecutionIsTruthful(s: State, o: Outcome, outcome: Option<Outcome>, c: Config, job: string)
    requires Truthful(s, outcome, c, job) && job in s.jobs && s.jobs[job].phase.Running?
    ensures Truthful(AfterExecute(s, job, o, c), Some(o), c, job)
  {
    var t := AfterExecute(s, job, o, c);
    forall e | e in t.log && e.job == job
      ensures TrueOf(e, t, Some(o), c, job)
    {
      assert e in s.log ==> TrueOf(e, s, outcome, c, job);
    }
  }

  lemma BillIsTruthful(s: State, j: string, outcome: Option<Outcome>, c: Config, job: string)
    requires Truthful(s, outcome, c, job) && Named(s) && j in s.jobs && s.jobs[j].phase.Closing?
    ensures Truthful(AfterBill(s, j, c), outcome, c, job)
  {
    StillTruthful(s, AfterBill(s, j, c), outcome, c, job, Ended(c, s.jobs[j].task, s.jobs[j].phase.final));
  }

  lemma StepIsTruthful(s: State, e: Event, outcome: Option<Outcome>, c: Config, job: string)
    requires Truthful(s, outcome, c, job) && Named(s)
    ensures var now := if e.Execute? && e.job == job && job in s.jobs && s.jobs[job].phase.Running?
                       then Some(e.executed) else outcome;
      Truthful(Step(s, e, c), now, c, job)
  {
    var t := Step(s, e, c);
    match e
    case Offer(task, healthy) =>
      StillTruthful(s, t, outcome, c, job,
                    if task.job in s.jobs then [] else Reported(c, task.job, if healthy then Preparing else Failed));
    case Prepare(j, workspace) =>
      var applies := j in s.jobs && s.jobs[j].phase.Started?;
      StillTruthful(s, t, outcome, c, job,
                    if applies then Reported(c, j, if workspace then InProgress else Failed) else []);
    case Execute(j, o) =>
      if j in s.jobs && s.jobs[j].phase.Running? {
        if j == job {
          ExecutionIsTruthful(s, o, outcome, c, job);
        } else {
          StillTruthful(s, t, outcome, c, job, Reported(c, j, FinalStatus(c, s.jobs[j].task, o)));
        }
      }
    case Bill(j) =>
      if j in s.jobs && s.jobs[j].phase.Closing? {
        BillIsTruthful(s, j, outcome, c, job);
      }
  }

  lemma {:induction false} JobsAreNamed(events: seq<Event>, c: Config)
    ensures Named(Run(events, c))
  {
    if events != [] {
      JobsAreNamed(events[..|events| - 1], c);
      StepNames(Run(events[..|events| - 1], c), events[|events| - 1], c);
    }
  }

  /**
   In every interleaving: a job is reported Completed, and its session ended as finished, only if its
   execution succeeded; if it did not, and in no other case once executed, it is Failed and its session
   ended as failed.
   */
  lemma {:induction false} RunsAreTruthful(events: seq<Event>, c: Config, job: string)
    ensures Truthful(Run(events, c), ExecutedWith(events, c, job), c, job)
  {
    if events != [] {
      var before := events[..|events| - 1];
      RunsAreTruthful(before, c, job);
      JobsAreNamed(before, c);
      StepIsTruthful(Run(before, c), events[|events| - 1], ExecutedWith(before, c, job), c, job);
    }
  }

  predicate Unfinished(p: Phase) { p.Started? || p.Running? }

  /** The active jobs are the accepted ones without a terminal report; without a reporter,
      nothing is ever removed. */
  lemma {:induction false} ActiveJobs(events: seq<Event>, c: Config)
    ensures var s := Run(events, c);
      s.active == set job | job in s.jobs && (Unfinished(s.jobs[job].phase) || !c.reporter)
  {
    if events != [] {
      ActiveJobs(events[..|events| - 1], c);
    }
  }

  // ----- Billing -----

  /** End-of-session calls among some effects. */
  function Ends(effects: seq<Effect>): nat {
    if effects == [] then 0
    else Ends(effects[..|effects| - 1]) + (if effects[|effects| - 1].EndSession? then 1 else 0)
  }

  lemma {:induction false} EndsAppend(a: seq<Effect>, b: seq<Effect>)
    ensures Ends(a + b) == Ends(a) + Ends(b)
  {
    if b == [] {
      assert a + b == a;
    } else {
      EndsAppend(a, b[..|b| - 1]);
      assert (a + b)[..|a + b| - 1] == a + b[..|b| - 1];
    }
  }

  lemma {:induction false} ReportsEndNothing(effects: seq<Effect>)
    requires forall e :: e in effects ==> e.Report?
    ensures Ends(effects) == 0
  {
    if effects != [] {
      assert effects[|effects| - 1] in effects;
      ReportsEndNothing(effects[..|effects| - 1]);
    }
  }

  lemma {:induction false} RepeatIsAllOne(e: Effect, n: nat)
    ensures forall x :: x in Repeat(e, n) ==> x == e
  {
    if n > 0 {
      RepeatIsAllOne(e, n - 1);
    }
  }

  lemma StoryEnds(c: Config, j: Job)
    ensures Ends(Story(c, j)) == if j.phase.Done? && Billable(c, j.task) then 1 else 0
  {
    var reports := Reports(c, j.task.job, Statuses(j.phase));
    ReportsEndNothing(reports);
    EndsAppend(reports, if j.phase.Done? then Ended(c, j.task, j.phase.final) else []);
  }

  predicate Billable(c: Config, t: Task) { c.billing && t.session.Session? }

  /** Exactly one end-of-session call for a billable run that is done, and none in any other case. */
  lemma BillingClosesOnce(events: seq<Event>, c: Config, job: string)
    ensures var s := Run(events, c);
      Ends(About(s.log, job)) ==
        if job in s.jobs && s.jobs[job].phase.Done? && Billable(c, s.jobs[job].task) then 1 else 0
  {
    JobLifecycle(events, c, job);
    var s := Run(events, c);
    RepeatIsAllOne(Report(job, Failed), Rejections(s, job));
    ReportsEndNothing(Refusals(c, job, Rejections(s, job)));
    EndsAppend(Refusals(c, job, Rejections(s, job)), if job in s.jobs then Story(c, s.jobs[job]) else []);
    if job in s.jobs {
      StoryEnds(c, s.jobs[job]);
    }
  }

  ghost predicate IsAborted(s: State, job: string) { job in s.jobs && s.jobs[job].phase.Aborted? }

  lemma {:induction false} AbortedStays(events: seq<Event>, more: seq<Event>, c: Config, job: string)
    requires IsAborted(Run(events, c), job)
    ensures IsAborted(Run(events + more, c), job)
  {
    if more == [] {
      assert events + more == events;
    } else {
      var all, before := events + more, more[..|more| - 1];
      assert all[..|all| - 1] == events + before;
      AbortedStays(events, before, c, job);
    }
  }

  /** "Any terminal outcome" leaves one out: a run without a workspace has reported Failed, and whatever
      happens next that is all that is ever said of it; its session is never ended. */
  lemma AbortedLeavesSessionOpen(events: seq<Event>, more: seq<Event>, c: Config, job: string)
    requires c.reporter && IsAborted(Run(events, c), job)
    ensures var s := Run(events + more, c);
      && IsAborted(s, job) && Ends(About(s.log, job)) == 0
      && About(s.log, job) == Refusals(c, job, Rejections(s, job)) + [Report(job, Preparing), Report(job, Failed)]
  {
    AbortedStays(events, more, c, job);
    JobLifecycle(events + more, c, job);
    BillingClosesOnce(events + more, c, job);
    var s := Run(events + more, c);
    assert Story(c, s.jobs[job]) == [Report(job, Preparing), Report(job, Failed)];
  }

  /** It happens to every new job, billable ones included, for which no workspace can be made. */
  lemma NoWorkspaceAborts(events: seq<Event>, c: Config, t: Task)
    requires t.job !in Run(events, c).jobs && Billable(c, t)
    ensures var s := Run(events + [Offer(t, true)] + [Prepare(t.job, false)], c);
      IsAborted(s, t.job) && s.jobs[t.job].task == t
  {
    var offered := events + [Offer(t, true)];
    assert offered[..|events|] == events;
    assert (offered + [Prepare(t.job, false)])[..|offered|] == offered;
  }
}

/** The handler's methods, in the order of their statements. */
module TaskHandler {
  import opened Common
  import opened TaskRuns

  class Handler {
    const config: Config
    var activeJobs: map<string, Task>
    var log: seq<Effect>

    constructor (config: Config)
      ensures this.config == config && activeJobs == map[] && log == []
    {
      this.config := config;
      activeJobs, log := map[], [];
    }

    /** `published` is whether publishing the update succeeds; the update counts as reported either way. */
    method ReportTaskStatus(job: string, status: JobStatus, published: bool) returns (ok: bool)
      modifies this`activeJobs, this`log
      ensures log == old(log) + Reported(config, job, status)
      ensures activeJobs.Keys ==
        if Terminal(status) then Dropped(config, old(activeJobs.Keys), job) else old(activeJobs.Keys)
      ensures forall j :: j in activeJobs ==> j in old(activeJobs) && activeJobs[j] == old(activeJobs)[j]
      ensures ok <==> config.reporter && published
    {
      if !config.reporter {
        return false;
      }
      if status == Failed || status == Completed {
        activeJobs := map j | j in activeJobs && j != job :: activeJobs[j];
      }
      log := log + [Report(job, status)];
      return published;
    }

    /** Reports and looks no further. */
    method Notify(job: string, status: JobStatus)
      modifies this`activeJobs, this`log
      ensures log == old(log) + Reported(config, job, status)
      ensures activeJobs.Keys ==
        if Terminal(status) then Dropped(config, old(activeJobs.Keys), job) else old(activeJobs.Keys)
      ensures forall j :: j in activeJobs ==> j in old(activeJobs) && activeJobs[j] == old(activeJobs)[j]
    {
      var published: bool := *;
      var _ := ReportTaskStatus(job, status, published);
    }

    /** Refuses the task while the provider is offline; otherwise the run begins. */
    method HandleTask(task: Task, healthy: bool) returns (accepted: bool)
      modifies this`activeJobs, this`log
      ensures accepted <==> healthy
      ensures log == old(log) + Reported(config, task.job, if healthy then Preparing else Failed)
      ensures healthy ==> activeJobs == old(activeJobs)[task.job := task]
      ensures !healthy ==> activeJobs.Keys == Dropped(config, old(activeJobs.Keys), task.job)
    {
      if !healthy {
        Notify(task.job, Failed);
        return false;
      }
      activeJobs := activeJobs[task.job := task];
      Notify(task.job, Preparing);
      return true;
    }

    /** One whole run, with the answers its environment gives. */
    method RunTask(task: Task, workspace: bool, executed: Outcome)
      modifies this`activeJobs, this`log
      ensures log == old(log) + RunEffects(config, task, workspace, executed)
      ensures activeJobs.Keys == Dropped(config, old(activeJobs.Keys), task.job)
    {
      if !workspace {
        Notify(task.job, Failed);
        return;
      }
      Notify(task.job, InProgress);
      var result := Outcome(false, 0);
      match task.kind {
        case Script =>
          if !config.scriptExecutor {
            result := Outcome(true, -1);
          } else {
            result := executed;
          }
        case Docker =>
          if !config.dockerExecutor {
            result := Outcome(true, -1);
          } else {
            result := executed;
          }
        case Other =>
          result := Outcome(true, -1);
      }
      var finalStatus := Completed;
      if result.error {
        finalStatus := Failed;
      } else if result.exitCode != 0 {
        finalStatus := Failed;
      }
      Notify(task.job, finalStatus);
      EndBillingSession(task, finalStatus);
    }

    method EndBillingSession(task: Task, finalStatus: JobStatus)
      modifies this`log
      ensures log == old(log) + Ended(config, task, finalStatus)
    {
      if !config.billing || task.session.Missing? {
        return;
      }
      if task.session.Malformed? {
        return;
      }
      var reason := JobFinished;
      if finalStatus == Failed {
        reason := JobFailed;
      }
      log := log + [EndSession(task.job, task.session.id, reason)];
    }
  }

  function RunEffects(c: Config, t: Task, workspace: bool, executed: Outcome): seq<Effect> {
    if !workspace then Reported(c, t.job, Failed)
    else
      var final := if Succeeds(c, t, executed) then Completed else Failed;
      Reported(c, t.job, InProgress) + Reported(c, t.job, final) + Ended(c, t, final)
  }

  /** A run alone is the machine's three steps one after the other. */
  lemma RunTaskIsSteps(s: State, c: Config, t: Task, workspace: bool, executed: Outcome)
    requires t.job in s.jobs && s.jobs[t.job] == Job(t, Started)
    ensures var u := Step(Step(Step(s, Prepare(t.job, workspace), c), Execute(t.job, executed), c), Bill(t.job), c);
      && u.log == s.log + RunEffects(c, t, workspace, executed)
      && u.active == Dropped(c, s.active, t.job)
  {
  }
}

/** The health monitor that gates acceptance. */
module GpuHealth {
  import opened Common

  class HealthMonitor {
    const interval: int
    const failureThreshold: int
    var healthy: bool
    var consecutiveFails: int
    var lastGPUCount: int
    /** Whether each check so far failed. */
    ghost var history: seq<bool>

    ghost predicate Valid() reads this {
      && failureThreshold >= 1
      && consecutiveFails == TrailingFailures(history)
      && (healthy <==> consecutiveFails < failureThreshold)
    }

    constructor (interval: int, failureThreshold: int)
      ensures Valid() && history == []
      ensures this.interval == (if interval <= 0 then 30 else interval)
      ensures this.failureThreshold == (if failureThreshold <= 0 then 3 else failureThreshold)
    {
      this.interval := if interval <= 0 then 30 else interval;
      this.failureThreshold := if failureThreshold <= 0 then 3 else failureThreshold;
      healthy, consecutiveFails, lastGPUCount := true, 0, 0;
      history := [];
    }

    /** A check fails when detection errs or finds no GPU. */
    method Check(error: bool, gpus: nat)
      requires Valid()
      modifies this
      ensures Valid() && history == old(history) + [error || gpus == 0]
      ensures lastGPUCount == if error || gpus == 0 then old(lastGPUCount) else gpus
    {
      history := history + [error || gpus == 0];
      assert history[..|history| - 1] == old(history);
      if error || gpus == 0 {
        consecutiveFails := consecutiveFails + 1;
        if healthy && consecutiveFails >= failureThreshold {
          healthy := false;
        }
        return;
      }
      lastGPUCount := gpus;
      healthy := true;
      consecutiveFails := 0;
    }

    /** Offline exactly when the last `failureThreshold` checks all failed. */
    method Healthy() returns (r: bool)
      requires Valid()
      ensures !r <==> LastAllFailed(history, failureThreshold)
    {
      TrailingMeansLast(history, failureThreshold);
      r := healthy;
    }
  }

  function TrailingFailures(history: seq<bool>): nat {
    if history == [] || !history[|history| - 1] then 0 else TrailingFailures(history[..|history| - 1]) + 1
  }

  ghost predicate LastAllFailed(history: seq<bool>, n: int) {
    n <= |history| && forall i :: |history| - n <= i < |history| && 0 <= i ==> history[i]
  }

  lemma {:induction false} TrailingMeansLast(history: seq<bool>, n: int)
    requires n >= 1
    ensures n <= TrailingFailures(history) <==> LastAllFailed(history, n)
  {
    if history != [] && history[|history| - 1] && n > 1 {
      var before := history[..|history| - 1];
      TrailingMeansLast(before, n - 1);
      assert LastAllFailed(history, n) ==> LastAllFailed(before, n - 1);
      assert LastAllFailed(before, n - 1) ==> LastAllFailed(history, n);
    }
  }
}
