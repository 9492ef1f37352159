/** Renewal jobs: the transition table, optimistic compare-and-set over
    (state, version), and recovery after a restart. */
module Jobs {
  import opened Common

  type JobId = string
  type CertificateId = string

  datatype State =
    | Draft
    | AwaitingDns
    | Validating
    | Issuing
    | AwaitingExternalCa
    | Issued
    | DeploymentPending
    | Deployed
    | CleanupRequired
    | Cancelled
    | Failed

  datatype Issuer = Acme | LocalCa | ExternalCa

  datatype Environment = Staging | Production

  datatype DnsProvider = Manual | Cloudflare

  datatype Job = Job(
    issuer: Issuer,
    environment: Environment,
    dns: DnsProvider,
    identifiers: seq<string>,
    state: State,
    version: nat,
    certificate: Option<CertificateId>)

  /** A `state_changed` event. */
  datatype Change = Change(from: State, to: State)

  /** `ALLOWED_TRANSITIONS`. */
  function Allowed(s: State): set<State> {
    match s
    case Draft => {AwaitingDns, AwaitingExternalCa, Issuing, Issued, Cancelled, Failed}
    case AwaitingDns => {Validating, Cancelled, CleanupRequired, Failed}
    case Validating => {Issuing, CleanupRequired, Failed}
    case Issuing => {Issued, CleanupRequired, Failed}
    case AwaitingExternalCa => {Issued, Cancelled, Failed}
    case Issued => {DeploymentPending, Failed}
    case DeploymentPending => {Deployed, Failed}
    case CleanupRequired => {Issued, Cancelled, Failed}
    case Deployed => {}
    case Cancelled => {}
    case Failed => {}
  }

  /** The table read by target: where each state is entered from. */
  lemma EnteredFrom(from: State, to: State)
    ensures to in Allowed(from) <==>
            match to
            case Draft => false
            case AwaitingDns => from == Draft
            case AwaitingExternalCa => from == Draft
            case Validating => from == AwaitingDns
            case Issuing => from == Draft || from == Validating
            case Issued => from in {Draft, Issuing, AwaitingExternalCa, CleanupRequired}
            case DeploymentPending => from == Issued
            case Deployed => from == DeploymentPending
            case CleanupRequired => from in {AwaitingDns, Validating, Issuing}
            case Cancelled => from in {Draft, AwaitingDns, AwaitingExternalCa, CleanupRequired}
            case Failed => from !in {Deployed, Cancelled, Failed}
  {
  }

  // ---- Paths through the table ----

  /** The changes lead from one state to another along allowed transitions. */
  predicate IsPath(from: State, changes: seq<Change>, to: State)
    decreases |changes|
  {
    if changes == [] then from == to
    else
      && changes[0].from == from && changes[0].to in Allowed(from)
      && IsPath(changes[0].to, changes[1..], to)
  }

  function Rank(s: State): nat {
    match s
    case Draft => 7
    case AwaitingDns => 6
    case Validating => 5
    case Issuing => 4
    case CleanupRequired => 3
    case AwaitingExternalCa => 3
    case Issued => 2
    case DeploymentPending => 1
    case Deployed => 0
    case Cancelled => 0
    case Failed => 0
  }

  lemma {:induction false} PathSpendsRank(from: State, changes: seq<Change>, to: State)
    requires IsPath(from, changes, to)
    ensures |changes| + Rank(to) <= Rank(from)
    decreases |changes|
  {
    if changes != [] {
      PathSpendsRank(changes[0].to, changes[1..], to);
    }
  }

  lemma {:induction false} PathExtends(from: State, changes: seq<Change>, middle: State, to: State)
    requires IsPath(from, changes, middle) && to in Allowed(middle)
    ensures IsPath(from, changes + [Change(middle, to)], to)
    decreases |changes|
  {
    if changes != [] {
      PathExtends(changes[0].to, changes[1..], middle, to);
      assert (changes + [Change(middle, to)])[1..] == changes[1..] + [Change(middle, to)];
    }
  }

  /** The bound of seven steps is reached. */
  lemma SevenStepsReached() returns (changes: seq<Change>)
    ensures IsPath(Draft, changes, Deployed) && |changes| == 7
  {
    var states := [Draft, AwaitingDns, Validating, Issuing, CleanupRequired, Issued, DeploymentPending];
    changes := [];
    for i := 0 to 6
      invariant |changes| == i && IsPath(Draft, changes, states[i])
    {
      PathExtends(Draft, changes, states[i], states[i + 1]);
      changes := changes + [Change(states[i], states[i + 1])];
    }
    PathExtends(Draft, changes, DeploymentPending, Deployed);
    changes := changes + [Change(DeploymentPending, Deployed)];
  }

  /** What the tables do not record of a job: how many writes left no event, and
      the version each successful write had expected. */
  datatype Trace = Trace(loops: nat, won: seq<nat>)

  /** The history of a job explains its state and version. */
  ghost predicate Explained(job: Job, changes: seq<Change>, trace: Trace) {
    && IsPath(Draft, changes, job.state)
    && job.version == |changes| + trace.loops
    && |trace.won| == job.version
    && forall k | 0 <= k < |trace.won| :: trace.won[k] == k
  }

  ghost predicate AllExplained(jobs: map<JobId, Job>, events: map<JobId, seq<Change>>, traces: map<JobId, Trace>) {
    && jobs.Keys == events.Keys == traces.Keys
    && forall id | id in jobs :: Explained(jobs[id], events[id], traces[id])
  }

  function Stepped(trace: Trace, version: nat): Trace {
    trace.(won := trace.won + [version])
  }

  function Looped(trace: Trace, version: nat): Trace {
    Trace(trace.loops + 1, trace.won + [version])
  }

  lemma StepExplained(job: Job, changes: seq<Change>, trace: Trace, to: State, certificate: Option<CertificateId>)
    requires Explained(job, changes, trace) && to in Allowed(job.state)
    ensures Explained(Moved(job, to, certificate), changes + [Change(job.state, to)], Stepped(trace, job.version))
  {
    PathExtends(Draft, changes, job.state, to);
  }

  lemma RewriteExplained(job: Job, changes: seq<Change>, trace: Trace)
    requires Explained(job, changes, trace)
    ensures Explained(Moved(job, job.state, None), changes, Looped(trace, job.version))
  {
  }

  // ---- The table ----

  /** The `renewal_jobs` and `events` tables. `traces` is
      kept for the proofs only. */
  class JobTable {
    var jobs: map<JobId, Job>
    var events: map<JobId, seq<Change>>
    var certificates: set<CertificateId>
    ghost var traces: map<JobId, Trace>

    constructor ()
      ensures Valid() && jobs == map[] && events == map[] && certificates == {} && traces == map[]
    {
      jobs, events, certificates, traces := map[], map[], {}, map[];
    }

    ghost predicate Valid()
      reads this
    {
      AllExplained(jobs, events, traces)
    }

    function Contents(): Tables
      reads this
    {
      Tables(jobs, events, certificates)
    }

    method CreateJob(id: JobId, issuer: Issuer, environment: Environment, dns: DnsProvider, identifiers: seq<string>)
      returns (ok: bool)
      requires Valid()
      modifies this
      ensures Valid() && certificates == old(certificates)
      ensures ok <==> id !in old(jobs)
      ensures jobs == if ok then old(jobs)[id := Job(issuer, environment, dns, identifiers, Draft, 0, None)] else old(jobs)
      ensures events == if ok then old(events)[id := []] else old(events)
      ensures traces == if ok then old(traces)[id := Trace(0, [])] else old(traces)
    {
      if id in jobs {
        return false;
      }
      jobs := jobs[id := Job(issuer, environment, dns, identifiers, Draft, 0, None)];
      events := events[id := []];
      traces := traces[id := Trace(0, [])];
      ok := true;
    }

    /** `transition_job`, called with a transition of the table: the update and its
        event are one transaction; a stale caller changes nothing. */
    method TransitionJob(id: JobId, expectedState: State, expectedVersion: nat, newState: State,
                         certificate: Option<CertificateId>)
      returns (ok: bool)
      requires Valid() && newState in Allowed(expectedState)
      modifies this
      ensures Valid() && certificates == old(certificates)
      ensures ok <==> IsCurrent(old(jobs), id, expectedState, expectedVersion)
      ensures jobs == if ok then old(jobs)[id := Moved(old(jobs)[id], newState, certificate)] else old(jobs)
      ensures events == if ok then old(events)[id := old(events)[id] + [Change(expectedState, newState)]] else old(events)
      ensures traces == if ok then old(traces)[id := Stepped(old(traces)[id], expectedVersion)] else old(traces)
    {
      if !IsCurrent(jobs, id, expectedState, expectedVersion) {
        return false;
      }
      StepExplained(jobs[id], events[id], traces[id], newState, certificate);
      jobs := jobs[id := Moved(jobs[id], newState, certificate)];
      events := events[id := events[id] + [Change(expectedState, newState)]];
      traces := traces[id := Stepped(traces[id], expectedVersion)];
      ok := true;
    }

    /** `compare_and_set_job`, as its one caller uses it: a rewrite of a
        deployment-pending job in place, without an event. */
    method CompareAndSetPending(id: JobId, expectedVersion: nat) returns (ok: bool)
      requires Valid()
      modifies this
      ensures Valid() && certificates == old(certificates)
      ensures ok <==> IsCurrent(old(jobs), id, DeploymentPending, expectedVersion)
      ensures jobs == if ok then old(jobs)[id := Moved(old(jobs)[id], DeploymentPending, None)] else old(jobs)
      ensures events == old(events)
      ensures traces == if ok then old(traces)[id := Looped(old(traces)[id], expectedVersion)] else old(traces)
    {
      if !IsCurrent(jobs, id, DeploymentPending, expectedVersion) {
        return false;
      }
      RewriteExplained(jobs[id], events[id], traces[id]);
      jobs := jobs[id := Moved(jobs[id], DeploymentPending, None)];
      traces := traces[id := Looped(traces[id], expectedVersion)];
      ok := true;
    }

    /** `complete_job_with_certificate`: certificate row, job update and event in
        one transaction, called with a state from which `issued` is allowed. */
    method CompleteJobWithCertificate(id: JobId, expectedState: State, expectedVersion: nat, certificate: CertificateId)
      returns (ok: bool)
      requires Valid() && Issued in Allowed(expectedState)
      modifies this
      ensures Valid()
      ensures ok <==> IsCurrent(old(jobs), id, expectedState, expectedVersion) && certificate !in old(certificates)
      ensures certificates == if ok then old(certificates) + {certificate} else old(certificates)
      ensures jobs == if ok then old(jobs)[id := Moved(old(jobs)[id], Issued, Some(certificate))] else old(jobs)
      ensures events == if ok then old(events)[id := old(events)[id] + [Change(expectedState, Issued)]] else old(events)
      ensures traces == if ok then old(traces)[id := Stepped(old(traces)[id], expectedVersion)] else old(traces)
    {
      if certificate in certificates {
        return false;
      }
      ok := TransitionJob(id, expectedState, expectedVersion, Issued, Some(certificate));
      if ok {
        certificates := certificates + {certificate};
      }
    }

    method DeleteJob(id: JobId)
      requires Valid()
      modifies this
      ensures Valid() && certificates == old(certificates)
      ensures jobs == old(jobs) - {id} && events == old(events) - {id}
      ensures traces == old(traces) - {id}
    {
      jobs, events, traces := jobs - {id}, events - {id}, traces - {id};
    }
  }

  /** A row after a successful write. */
  function Moved(job: Job, newState: State, certificate: Option<CertificateId>): Job {
    job.(state := newState, version := job.version + 1,
         certificate := if certificate.Some? then certificate else job.certificate)
  }

  // ---- Many clients ----

  /** What a client may ask for. The expected state and version are whatever the
      client last saw, so they may be stale by any amount. */
  datatype Request =
    | Create(id: JobId, issuer: Issuer, environment: Environment, dns: DnsProvider, identifiers: seq<string>)
    | Transition(id: JobId, expectedState: State, expectedVersion: nat, newState: State)
    | Rewrite(id: JobId, expectedVersion: nat)
    | Complete(id: JobId, expectedState: State, expectedVersion: nat, certificate: CertificateId)
    | Delete(id: JobId)

  /** The row matched by `WHERE id = ? AND state = ? AND version = ?`. */
  predicate IsCurrent(jobs: map<JobId, Job>, id: JobId, state: State, version: nat) {
    id in jobs && jobs[id].state == state && jobs[id].version == version
  }

  datatype Tables = Tables(jobs: map<JobId, Job>, events: map<JobId, seq<Change>>, certificates: set<CertificateId>)

  function Written(t: Tables, id: JobId, newState: State, certificate: Option<CertificateId>): Tables
    requires id in t.jobs && id in t.events
  {
    t.(jobs := t.jobs[id := Moved(t.jobs[id], newState, certificate)],
       events := t.events[id := t.events[id] + [Change(t.jobs[id].state, newState)]],
       certificates := t.certificates + if certificate.Some? then {certificate.value} else {})
  }

  /** What one request makes of the tables. */
  function After(t: Tables, request: Request): Tables
    requires t.jobs.Keys == t.events.Keys
  {
    match request
    case Create(id, issuer, environment, dns, identifiers) =>
      if id in t.jobs then t
      else t.(jobs := t.jobs[id := Job(issuer, environment, dns, identifiers, Draft, 0, None)], events := t.events[id := []])
    case Transition(id, expectedState, expectedVersion, newState) =>
      if newState in Allowed(expectedState) && IsCurrent(t.jobs, id, expectedState, expectedVersion)
      then Written(t, id, newState, None) else t
    case Rewrite(id, expectedVersion) =>
      if IsCurrent(t.jobs, id, DeploymentPending, expectedVersion)
      then t.(jobs := t.jobs[id := Moved(t.jobs[id], DeploymentPending, None)]) else t
    case Complete(id, expectedState, expectedVersion, certificate) =>
      if Issued in Allowed(expectedState) && IsCurrent(t.jobs, id, expectedState, expectedVersion)
         && certificate !in t.certificates
      then Written(t, id, Issued, Some(certificate)) else t
    case Delete(id) =>
      t.(jobs := t.jobs - {id}, events := t.events - {id})
  }

  function Replay(requests: seq<Request>): (t: Tables)
    ensures t.jobs.Keys == t.events.Keys
  {
    if requests == [] then Tables(map[], map[], {})
    else After(Replay(requests[..|requests| - 1]), requests[|requests| - 1])
  }

  /** One request against the table. A transition outside the table is refused by
      `validate_transition` before any row is read. */
  method Serve(table: JobTable, request: Request) returns (ok: bool)
    requires table.Valid()
    modifies table
    ensures table.Valid() && table.Contents() == After(old(table.Contents()), request)
  {
    ok := false;
    match request {
      case Create(id, issuer, environment, dns, identifiers) =>
        ok := table.CreateJob(id, issuer, environment, dns, identifiers);
      case Transition(id, expectedState, expectedVersion, newState) =>
        if newState in Allowed(expectedState) {
          ok := table.TransitionJob(id, expectedState, expectedVersion, newState, None);
        }
      case Rewrite(id, expectedVersion) =>
        ok := table.CompareAndSetPending(id, expectedVersion);
      case Complete(id, expectedState, expectedVersion, certificate) =>
        if Issued in Allowed(expectedState) {
          ok := table.CompleteJobWithCertificate(id, expectedState, expectedVersion, certificate);
        }
      case Delete(id) =>
        table.DeleteJob(id);
        ok := true;
    }
  }

  /** For any interleaving of requests, every job's events form a path of at most
      seven allowed steps from draft to its state, its version counts the events
      and the rewrites in place, and no version was overwritten twice. */
  method ServeAll(requests: seq<Request>) returns (table: JobTable)
    ensures table.Contents() == Replay(requests)
    ensures table.jobs.Keys == table.events.Keys == table.traces.Keys
    ensures forall id | id in table.jobs ::
              && IsPath(Draft, table.events[id], table.jobs[id].state)
              && |table.events[id]| + Rank(table.jobs[id].state) <= 7
              && table.jobs[id].version == |table.events[id]| + table.traces[id].loops
              && (forall i, j | 0 <= i < j < |table.traces[id].won| :: table.traces[id].won[i] != table.traces[id].won[j])
  {
    table := new JobTable();
    for i := 0 to |requests|
      invariant table.Valid() && fresh(table)
      invariant table.Contents() == Replay(requests[..i])
    {
      assert requests[..i + 1][..i] == requests[..i];
      var ok := Serve(table, requests[i]);
    }
    assert requests[..|requests|] == requests;
    forall id | id in table.jobs ensures |table.events[id]| + Rank(table.jobs[id].state) <= 7 {
      assert Explained(table.jobs[id], table.events[id], table.traces[id]);
      PathSpendsRank(Draft, table.events[id], table.jobs[id].state);
    }
  }

  // ---- Deployment outcomes ----

  /** `_job_for_certificate`. */
  predicate Deployable(jobs: map<JobId, Job>, id: JobId, certificate: CertificateId) {
    && id in jobs && jobs[id].certificate == Some(certificate)
    && (jobs[id].state == Issued || jobs[id].state == DeploymentPending)
  }

  /** `_mark_verified` for a job identifier. */
  method MarkVerified(table: JobTable, id: JobId, certificate: CertificateId) returns (ok: bool)
    requires table.Valid()
    modifies table
    ensures table.Valid()
    ensures ok <==> Deployable(old(table.jobs), id, certificate)
    ensures ok <==>
              && id in old(table.jobs) && old(table.jobs)[id].certificate == Some(certificate)
              && old(table.jobs)[id].state in {Issued, DeploymentPending}
    ensures !ok ==> table.jobs == old(table.jobs) && table.events == old(table.events)
    ensures ok && old(table.jobs)[id].state == DeploymentPending ==>
              && table.jobs == old(table.jobs)[id := Moved(old(table.jobs)[id], Deployed, None)]
              && table.events == old(table.events)[id := old(table.events)[id] + [Change(DeploymentPending, Deployed)]]
    ensures ok && old(table.jobs)[id].state == Issued ==>
              && table.jobs == old(table.jobs)[id := Moved(Moved(old(table.jobs)[id], DeploymentPending, None), Deployed, None)]
              && table.events == old(table.events)[id :=
                   old(table.events)[id] + [Change(Issued, DeploymentPending)] + [Change(DeploymentPending, Deployed)]]
  {
    if !Deployable(table.jobs, id, certificate) {
      return false;
    }
    var job := table.jobs[id];
    ghost var jobs, events := table.jobs, table.events;
    if job.state == Issued {
      ok := table.TransitionJob(id, Issued, job.version, DeploymentPending, None);
      job := table.jobs[id];
    }
    ok := table.TransitionJob(id, DeploymentPending, job.version, Deployed, None);
    if jobs[id].state == Issued {
      UpdateTwice(jobs, id, job, table.jobs[id]);
      UpdateTwice(events, id, events[id] + [Change(Issued, DeploymentPending)], table.events[id]);
    }
  }

  /** `_update_job`: the first failure leaves an event, a repeated one only a version. */
  method UpdateJob(table: JobTable, id: JobId, certificate: CertificateId) returns (ok: bool)
    requires table.Valid()
    modifies table
    ensures table.Valid()
    ensures ok <==> Deployable(old(table.jobs), id, certificate)
    ensures ok <==>
              && id in old(table.jobs) && old(table.jobs)[id].certificate == Some(certificate)
              && old(table.jobs)[id].state in {Issued, DeploymentPending}
    ensures !ok ==> table.jobs == old(table.jobs) && table.events == old(table.events)
    ensures ok ==> table.jobs == old(table.jobs)[id := Moved(old(table.jobs)[id], DeploymentPending, None)]
    ensures ok ==> table.events == if old(table.jobs)[id].state == Issued
                                   then old(table.events)[id := old(table.events)[id] + [Change(Issued, DeploymentPending)]]
                                   else old(table.events)
  {
    if !Deployable(table.jobs, id, certificate) {
      return false;
    }
    var job := table.jobs[id];
    if job.state == Issued {
      ok := table.TransitionJob(id, Issued, job.version, DeploymentPending, None);
    } else {
      ok := table.CompareAndSetPending(id, job.version);
    }
  }

  // ---- Recovery after a restart ----

  /** The statuses of an order in section 7.1.6 of RFC 8555. */
  datatype OrderStatus = Pending | Ready | Processing | Valid | Invalid

  /** `reconcile`. */
  function Reconcile(status: OrderStatus): State {
    match status
    case Invalid => Failed
    case Ready => Issuing
    case Processing => Issuing
    case Valid => Issuing
    case Pending => AwaitingDns
  }

  predicate NeedsRecovery(job: Job) {
    job.issuer == Acme && (job.state == Validating || job.state == Issuing)
  }

  /** The statuses, by job state, from which recovery goes through. */
  predicate Recovers(job: Job, answer: Option<OrderStatus>) {
    NeedsRecovery(job) ==>
      answer.Some? && if job.state == Validating then answer.value != Pending else answer.value == Invalid
  }

  lemma RecoversIffAllowed(job: Job, answer: Option<OrderStatus>)
    requires NeedsRecovery(job)
    ensures Recovers(job, answer) <==> answer.Some? && Reconcile(answer.value) in Allowed(job.state)
  {
  }

  function RecoveredJob(job: Job, answer: Option<OrderStatus>): Job {
    if NeedsRecovery(job) && answer.Some? then Moved(job, Reconcile(answer.value), None) else job
  }

  /** What recovery makes of a job, from the status of its order: an invalid order fails
      it, and one that got further than pending lets a validating job go on to issuing. */
  lemma RecoveryComes(job: Job, answer: Option<OrderStatus>)
    requires Recovers(job, answer)
    ensures var active := job.issuer == Acme && (job.state == Validating || job.state == Issuing);
            RecoveredJob(job, answer) ==
            if active && answer == Some(Invalid) then job.(state := Failed, version := job.version + 1)
            else if active then job.(state := Issuing, version := job.version + 1)
            else job
    ensures job.issuer == Acme && job.state == Issuing ==> answer == Some(Invalid)
    ensures job.issuer == Acme && job.state == Validating ==> answer.Some? && answer != Some(Pending)
  {
  }

  ghost function RecoveredJobs(
    jobs: map<JobId, Job>, handled: seq<JobId>, answers: map<JobId, Option<OrderStatus>>): map<JobId, Job>
    requires jobs.Keys <= answers.Keys
  {
    map id | id in jobs :: if id in handled then RecoveredJob(jobs[id], answers[id]) else jobs[id]
  }

  /** The body of the recovery loop for one listed job. */
  method RecoverJob(table: JobTable, id: JobId, answer: Option<OrderStatus>) returns (ok: bool)
    requires table.Valid() && id in table.jobs
    modifies table
    ensures table.Valid()
    ensures ok <==> Recovers(old(table.jobs)[id], answer)
    ensures table.jobs == if ok then old(table.jobs)[id := RecoveredJob(old(table.jobs)[id], answer)] else old(table.jobs)
  {
    var job := table.jobs[id];
    assert table.jobs[id := job] == table.jobs;
    if job.state == AwaitingDns || job.state == AwaitingExternalCa {
      return true;
    }
    if !(job.state == Validating || job.state == Issuing) || job.issuer != Acme {
      return true;
    }
    RecoversIffAllowed(job, answer);
    if answer.None? {
      return false;
    }
    var target := Reconcile(answer.value);
    if target !in Allowed(job.state) {
      return false;
    }
    ok := table.TransitionJob(id, job.state, job.version, target, None);
  }

  /** `recover_interrupted_jobs`, with the certificate authority's answers fixed
      beforehand; no answer stands for a request that raises. Recovery changes the
      jobs up to the first that does not go through, and completes exactly when
      there is none. */
  method RecoverInterruptedJobs(
    table: JobTable, listed: seq<JobId>, answers: map<JobId, Option<OrderStatus>>) returns (completed: bool, handled: nat)
    requires table.Valid()
    requires forall i | 0 <= i < |listed| :: listed[i] in table.jobs
    requires forall i, j | 0 <= i < j < |listed| :: listed[i] != listed[j]
    requires table.jobs.Keys <= answers.Keys
    modifies table
    ensures table.Valid()
    ensures completed <==> forall i | 0 <= i < |listed| :: Recovers(old(table.jobs)[listed[i]], answers[listed[i]])
    ensures handled <= |listed| && (completed <==> handled == |listed|)
    ensures forall i | 0 <= i < handled :: Recovers(old(table.jobs)[listed[i]], answers[listed[i]])
    ensures table.jobs == RecoveredJobs(old(table.jobs), listed[..handled], answers)
  {
    ghost var start := table.jobs;
    handled := 0;
    completed := true;
    assert table.jobs == RecoveredJobs(start, listed[..0], answers);
    while handled < |listed|
      invariant table.Valid() && handled <= |listed|
      invariant forall i | 0 <= i < handled :: Recovers(start[listed[i]], answers[listed[i]])
      invariant table.jobs == RecoveredJobs(start, listed[..handled], answers)
    {
      var id := listed[handled];
      assert table.jobs[id] == start[id];
      completed := RecoverJob(table, id, answers[id]);
      if !completed {
        return;
      }
      OneMoreHandled(start, listed, handled, answers);
      handled := handled + 1;
    }
  }

  lemma OneMoreHandled(
    jobs: map<JobId, Job>, listed: seq<JobId>, handled: nat, answers: map<JobId, Option<OrderStatus>>)
    requires handled < |listed| && listed[handled] in jobs && jobs.Keys <= answers.Keys
    requires forall i | 0 <= i < handled :: listed[i] != listed[handled]
    ensures var id := listed[handled];
            RecoveredJobs(jobs, listed[..handled + 1], answers)
            == RecoveredJobs(jobs, listed[..handled], answers)[id := RecoveredJob(jobs[id], answers[id])]
  {
    assert listed[..handled + 1] == listed[..handled] + [listed[handled]];
  }
}
