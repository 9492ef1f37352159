/** What the ACME orchestrator does to the outside world, call by call, and what the
    record of it proves. */
module AcmeLog {
  import opened Common
  import opened Identifiers
  import opened Jobs

  datatype TxtRecord = TxtRecord(fqdn: string, value: string)

  /** What the DNS provider's cleanup comes to. `Raises` also stands for an error
      between the cleanup and the transition that follows it. */
  datatype Cleanup = Clean | Errors | Raises

  /** Only Cloudflare reports errors, one for a record it could not delete. The manual
      provider leaves the records to their owner and reports none. */
  predicate CanReport(dns: DnsProvider, records: seq<TxtRecord>) {
    dns == Cloudflare && records != []
  }

  /** How the provider answers for these records when deleting them comes to `answer`. */
  function Reported(dns: DnsProvider, records: seq<TxtRecord>, answer: Cleanup): Cleanup {
    if answer.Errors? && !CanReport(dns, records) then Clean else answer
  }

  /** How far the certificate authority gets: an error while validating, an error
      while issuing or storing, or a stored certificate. */
  datatype Authority = FailsValidating | FailsIssuing | Delivers(certificate: CertificateId)

  datatype Completion = Completion(authority: Authority, cleanup: Cleanup)

  /** What starting an order meets: account and key ready, order created, records presented. */
  datatype Setup = Setup(prepared: bool, ordered: bool, presented: Option<seq<TxtRecord>>)

  datatype Visibility = Expired(renewed: Setup) | Invisible | Visible(completion: Completion) | Unreadable

  /** A call of the orchestrator, with all that it meets outside. */
  datatype Call =
    | NewJob(id: JobId, issuer: Issuer, environment: Environment, dns: DnsProvider, identifiers: seq<string>)
    | Start(id: JobId, setup: Setup, completion: Completion)
    | Continue(id: JobId, seen: Visibility)
    | CancelJob(id: JobId, cleanup: Cleanup)
    | Retry(id: JobId, cleanup: Cleanup)
    | Recover(id: JobId, answer: Option<OrderStatus>)
    | Delete(id: JobId)

  /** What deleting records comes to in a call, should the provider be asked to clean up. */
  function ProviderAnswer(call: Call): Option<Cleanup> {
    match call
    case Start(_, _, completion) => Some(completion.cleanup)
    case Continue(_, Visible(completion)) => Some(completion.cleanup)
    case CancelJob(_, cleanup) => Some(cleanup)
    case Retry(_, cleanup) => Some(cleanup)
    case _ => None
  }

  /** One thing done in the call with the given number: an order asked for, records
      cleaned up with what the provider answered, or a state entered. A state is
      entered with the records and the cleanup target then stored for the job. */
  datatype Entry =
    | OrderCreated(call: nat, id: JobId, environment: Environment, identifiers: seq<string>)
    | CleanedUp(call: nat, id: JobId, dns: DnsProvider, records: seq<TxtRecord>, answer: Cleanup)
    | Entered(call: nat, id: JobId, environment: Environment, identifiers: seq<string>, to: State,
              stored: seq<TxtRecord>, certificate: Option<CertificateId>, target: Option<State>)

  predicate IsFinal(s: State) {
    s == Issued || s == Cancelled || s == CleanupRequired
  }

  /** A cleanup of all that is stored for the job that enters a state, in the same call, answered so. */
  predicate IsCleanup(c: Entry, e: Entry, answer: Cleanup)
    requires e.Entered?
  {
    c.CleanedUp? && c.call == e.call && c.id == e.id && c.records == e.stored && c.answer == answer
  }

  /** Just before entry `j`, in the same call, the records stored for its job were cleaned up so. */
  predicate CleanedBefore(log: seq<Entry>, j: nat, answer: Cleanup)
    requires j < |log| && log[j].Entered?
  {
    j > 0 && IsCleanup(log[j - 1], log[j], answer)
  }

  /** The provider was asked in a call that meets an answer, and answered what that comes to. */
  predicate AnsweredSo(e: Entry, calls: seq<Call>)
    requires e.CleanedUp? && e.call < |calls|
  {
    && ProviderAnswer(calls[e.call]).Some?
    && e.answer == Reported(e.dns, e.records, ProviderAnswer(calls[e.call]).value)
  }

  /** A retry of the cleanup of the job, which saved no target of cancelled. */
  predicate RetriesFor(e: Entry, calls: seq<Call>)
    requires e.Entered? && e.call < |calls|
  {
    e.target != Some(Cancelled) && calls[e.call].Retry? && calls[e.call].id == e.id
  }

  /** A cleanup had the answer its call met. Issued and cancelled are entered only with
      nothing stored or right after a clean cleanup of all that is stored, cleanup
      required only right after one with errors. A job is issued without a certificate
      only by a clean retry, when no target of cancelled was saved. */
  predicate SoundEntry(log: seq<Entry>, calls: seq<Call>, j: nat)
    requires j < |log|
  {
    var e := log[j];
    && e.call < |calls|
    && (e.CleanedUp? ==> AnsweredSo(e, calls))
    && (e.Entered? ==>
          && (e.to == Issued || e.to == Cancelled ==> e.stored == [] || CleanedBefore(log, j, Clean))
          && (e.to == CleanupRequired ==> CleanedBefore(log, j, Errors))
          && (e.to == Issued && e.certificate.None? ==> RetriesFor(e, calls) && CleanedBefore(log, j, Clean)))
  }

  ghost predicate LogSound(log: seq<Entry>, calls: seq<Call>) {
    forall j | 0 <= j < |log| :: SoundEntry(log, calls, j)
  }

  predicate StagingIssued(e: Entry) {
    e.Entered? && e.environment == Staging && e.to == Issued
  }

  ghost predicate ProofsBacked(log: seq<Entry>, proofs: set<seq<string>>) {
    forall k | k in proofs :: exists j :: 0 <= j < |log| && StagingIssued(log[j]) && ProofKey(log[j].identifiers) == k
  }

  /** Every production order follows an issued staging job for the same names. */
  ghost predicate OrdersBacked(log: seq<Entry>) {
    forall i | 0 <= i < |log| && log[i].OrderCreated? && log[i].environment == Production ::
      exists j :: 0 <= j < i && StagingIssued(log[j]) && SameNames(log[j].identifiers, log[i].identifiers)
  }

  predicate IsEntry(e: Entry, id: JobId, job: Job) {
    e.Entered? && e.id == id && e.to == job.state && e.certificate == job.certificate
  }

  /** The log explains where each ACME job stands. */
  ghost predicate Recorded(log: seq<Entry>, jobs: map<JobId, Job>) {
    forall id | id in jobs && jobs[id].issuer == Acme && IsFinal(jobs[id].state) ::
      exists j :: 0 <= j < |log| && IsEntry(log[j], id, jobs[id])
  }

  /** A job that was issued stays as it was issued. */
  ghost predicate IssuedStays(log: seq<Entry>, jobs: map<JobId, Job>) {
    forall j | 0 <= j < |log| && log[j].Entered? && log[j].to == Issued && log[j].id in jobs ::
      IsEntry(log[j], log[j].id, jobs[log[j].id])
  }

  /** A production job waiting for DNS has its proof. */
  ghost predicate WaitingProved(jobs: map<JobId, Job>, proofs: set<seq<string>>) {
    forall id | id in jobs && jobs[id].issuer == Acme && jobs[id].environment == Production
                && jobs[id].state == AwaitingDns ::
      ProofKey(jobs[id].identifiers) in proofs
  }

  /** Only issued and cancelled are saved as targets. */
  predicate TargetsKept(targets: map<JobId, State>) {
    forall id | id in targets :: targets[id] == Issued || targets[id] == Cancelled
  }

  ghost predicate AllUsed(used: set<JobId>, log: seq<Entry>, jobs: map<JobId, Job>, targets: map<JobId, State>) {
    jobs.Keys <= used && targets.Keys <= used && forall j | 0 <= j < |log| :: log[j].id in used
  }

  ghost predicate LogInOrder(log: seq<Entry>, calls: seq<Call>, proofs: set<seq<string>>) {
    LogSound(log, calls) && OrdersBacked(log) && ProofsBacked(log, proofs)
  }

  ghost predicate JobsInOrder(log: seq<Entry>, jobs: map<JobId, Job>, proofs: set<seq<string>>,
                              targets: map<JobId, State>, used: set<JobId>)
  {
    && Recorded(log, jobs) && IssuedStays(log, jobs) && WaitingProved(jobs, proofs)
    && TargetsKept(targets) && AllUsed(used, log, jobs, targets)
  }

  /** The proofs after a job was issued: a staging job leaves one. */
  function Proved(proofs: set<seq<string>>, job: Job): set<seq<string>> {
    if job.environment == Staging then proofs + {ProofKey(job.identifiers)} else proofs
  }

  // ---- One entry more ----

  /** The last entry says that the records stored for the job of `e` were just cleaned up so. */
  predicate JustCleaned(log: seq<Entry>, e: Entry, answer: Cleanup)
    requires e.Entered?
  {
    log != [] && IsCleanup(log[|log| - 1], e, answer)
  }

  /** An entry that may come next. */
  predicate MayFollow(log: seq<Entry>, calls: seq<Call>, e: Entry) {
    && e.call < |calls|
    && (e.CleanedUp? ==> AnsweredSo(e, calls))
    && (e.Entered? ==>
          && (e.to == Issued || e.to == Cancelled ==> e.stored == [] || JustCleaned(log, e, Clean))
          && (e.to == CleanupRequired ==> JustCleaned(log, e, Errors))
          && (e.to == Issued && e.certificate.None? ==> RetriesFor(e, calls) && JustCleaned(log, e, Clean)))
  }

  lemma SoundOneMore(log: seq<Entry>, calls: seq<Call>, e: Entry)
    requires LogSound(log, calls) && MayFollow(log, calls, e)
    ensures LogSound(log + [e], calls)
  {
    var longer := log + [e];
    assert longer[|log|] == e && (log != [] ==> longer[|log| - 1] == log[|log| - 1]);
    assert SoundEntry(longer, calls, |log|);
    forall j | 0 <= j < |log| ensures SoundEntry(longer, calls, j) {
      assert SoundEntry(log, calls, j);
    }
  }

  lemma OneMoreCall(log: seq<Entry>, calls: seq<Call>, call: Call)
    requires LogSound(log, calls)
    ensures LogSound(log, calls + [call])
  {
    forall j | 0 <= j < |log| ensures SoundEntry(log, calls + [call], j) {
      assert SoundEntry(log, calls, j);
    }
  }

  /** An order whose key has a stored proof is backed. */
  lemma OrderBacked(log: seq<Entry>, proofs: set<seq<string>>, e: Entry)
    requires OrdersBacked(log) && ProofsBacked(log, proofs)
    requires e.OrderCreated? && e.environment == Production ==> ProofKey(e.identifiers) in proofs
    ensures OrdersBacked(log + [e])
  {
    var longer := log + [e];
    forall i | 0 <= i < |longer| && longer[i].OrderCreated? && longer[i].environment == Production
      ensures exists j :: 0 <= j < i && StagingIssued(longer[j]) && SameNames(longer[j].identifiers, longer[i].identifiers)
    {
      if i < |log| {
        var j :| 0 <= j < i && StagingIssued(log[j]) && SameNames(log[j].identifiers, log[i].identifiers);
        assert longer[j] == log[j];
      } else {
        var j :| 0 <= j < |log| && StagingIssued(log[j]) && ProofKey(log[j].identifiers) == ProofKey(e.identifiers);
        EqualKeysSameNames(log[j].identifiers, e.identifiers);
        assert longer[j] == log[j];
      }
    }
  }

  lemma ProofsStayBacked(log: seq<Entry>, proofs: set<seq<string>>, e: Entry)
    requires ProofsBacked(log, proofs)
    ensures ProofsBacked(log + [e], proofs)
  {
    var longer := log + [e];
    forall k | k in proofs
      ensures exists j :: 0 <= j < |longer| && StagingIssued(longer[j]) && ProofKey(longer[j].identifiers) == k
    {
      var j :| 0 <= j < |log| && StagingIssued(log[j]) && ProofKey(log[j].identifiers) == k;
      assert longer[j] == log[j];
    }
  }

  lemma LogOneMore(log: seq<Entry>, calls: seq<Call>, proofs: set<seq<string>>, e: Entry)
    requires LogInOrder(log, calls, proofs) && MayFollow(log, calls, e)
    requires e.OrderCreated? && e.environment == Production ==> ProofKey(e.identifiers) in proofs
    ensures LogInOrder(log + [e], calls, proofs)
  {
    SoundOneMore(log, calls, e);
    OrderBacked(log, proofs, e);
    ProofsStayBacked(log, proofs, e);
  }

  /** An entry that enters no state leaves the jobs explained. */
  lemma JobsStayInOrder(log: seq<Entry>, jobs: map<JobId, Job>, proofs: set<seq<string>>,
                        targets: map<JobId, State>, used: set<JobId>, e: Entry)
    requires JobsInOrder(log, jobs, proofs, targets, used) && !e.Entered? && e.id in used
    ensures JobsInOrder(log + [e], jobs, proofs, targets, used)
  {
    var longer := log + [e];
    forall id | id in jobs && jobs[id].issuer == Acme && IsFinal(jobs[id].state)
      ensures exists j :: 0 <= j < |longer| && IsEntry(longer[j], id, jobs[id])
    {
      var j :| 0 <= j < |log| && IsEntry(log[j], id, jobs[id]);
      assert longer[j] == log[j];
    }
  }

  lemma StaysRecorded(log: seq<Entry>, jobs: map<JobId, Job>, e: Entry, id: JobId, job: Job)
    requires Recorded(log, jobs) && IsEntry(e, id, job)
    ensures Recorded(log + [e], jobs[id := job])
  {
    var longer, after := log + [e], jobs[id := job];
    forall k | k in after && after[k].issuer == Acme && IsFinal(after[k].state)
      ensures exists j :: 0 <= j < |longer| && IsEntry(longer[j], k, after[k])
    {
      if k == id {
        assert longer[|log|] == e;
      } else {
        var j :| 0 <= j < |log| && IsEntry(log[j], k, jobs[k]);
        assert longer[j] == log[j];
      }
    }
  }

  /** Entering a state from one other than issued, with the entry that says so. */
  lemma EntryKeepsJobs(log: seq<Entry>, jobs: map<JobId, Job>, proofs: set<seq<string>>, targets: map<JobId, State>,
                       used: set<JobId>, e: Entry, job: Job, saved: Option<State>)
    requires JobsInOrder(log, jobs, proofs, targets, used)
    requires e.id in jobs && IsEntry(e, e.id, job) && IsFinal(job.state) && jobs[e.id].state != Issued
    requires saved == None || saved == Some(Cancelled) || saved == Some(Issued)
    ensures JobsInOrder(log + [e], jobs[e.id := job], proofs, Saved(targets, e.id, saved), used)
  {
    StaysRecorded(log, jobs, e, e.id, job);
  }

  /** The targets after one may have been saved. */
  function Saved(targets: map<JobId, State>, id: JobId, saved: Option<State>): map<JobId, State> {
    if saved.Some? then targets[id := saved.value] else targets
  }

  /** A step to a state that the log does not enter. */
  lemma StepKeepsJobs(log: seq<Entry>, jobs: map<JobId, Job>, proofs: set<seq<string>>, targets: map<JobId, State>,
                      used: set<JobId>, id: JobId, job: Job)
    requires JobsInOrder(log, jobs, proofs, targets, used) && id in used
    requires !IsFinal(job.state) && (id in jobs ==> jobs[id].state != Issued && job.certificate == jobs[id].certificate)
    requires id !in jobs ==> id !in targets && forall j | 0 <= j < |log| :: log[j].id != id
    requires job.state == AwaitingDns && job.issuer == Acme && job.environment == Production ==>
               ProofKey(job.identifiers) in proofs
    ensures JobsInOrder(log, jobs[id := job], proofs, targets, used)
  {
  }

  lemma RemovalKeepsJobs(log: seq<Entry>, jobs: map<JobId, Job>, proofs: set<seq<string>>, targets: map<JobId, State>,
                         used: set<JobId>, id: JobId)
    requires JobsInOrder(log, jobs, proofs, targets, used)
    ensures JobsInOrder(log, jobs - {id}, proofs, targets, used)
  {
  }

  lemma RecoveryKeepsJobs(log: seq<Entry>, jobs: map<JobId, Job>, proofs: set<seq<string>>, targets: map<JobId, State>,
                          used: set<JobId>, id: JobId, answer: Option<OrderStatus>)
    requires JobsInOrder(log, jobs, proofs, targets, used) && id in jobs && Recovers(jobs[id], answer)
    ensures JobsInOrder(log, jobs[id := RecoveredJob(jobs[id], answer)], proofs, targets, used)
  {
    if NeedsRecovery(jobs[id]) {
      StepKeepsJobs(log, jobs, proofs, targets, used, id, RecoveredJob(jobs[id], answer));
    } else {
      assert jobs[id := jobs[id]] == jobs;
    }
  }

  /** A target may be saved for any job. */
  lemma TargetKeepsJobs(log: seq<Entry>, jobs: map<JobId, Job>, proofs: set<seq<string>>, targets: map<JobId, State>,
                        used: set<JobId>, id: JobId, target: State)
    requires JobsInOrder(log, jobs, proofs, targets, used) && id in used && (target == Issued || target == Cancelled)
    ensures JobsInOrder(log, jobs, proofs, targets[id := target], used)
  {
  }

  /** Storing the proof of the job issued last. */
  lemma ProofKeeps(log: seq<Entry>, calls: seq<Call>, jobs: map<JobId, Job>, proofs: set<seq<string>>,
                   targets: map<JobId, State>, used: set<JobId>, job: Job)
    requires LogInOrder(log, calls, proofs) && JobsInOrder(log, jobs, proofs, targets, used)
    requires log != [] && log[|log| - 1].Entered? && log[|log| - 1].to == Issued
    requires log[|log| - 1].environment == job.environment && log[|log| - 1].identifiers == job.identifiers
    ensures LogInOrder(log, calls, Proved(proofs, job)) && JobsInOrder(log, jobs, Proved(proofs, job), targets, used)
  {
  }

  // ---- Issued without a certificate ----

  /** A clean retry that issued the job with no certificate and no target of cancelled saved. */
  predicate RetriedEmpty(log: seq<Entry>, calls: seq<Call>, j: nat, id: JobId)
    requires j < |log| && log[j].call < |calls|
  {
    && log[j].Entered? && log[j].id == id && log[j].to == Issued && log[j].certificate.None?
    && RetriesFor(log[j], calls) && CleanedBefore(log, j, Clean)
  }

  /** An issued job has no certificate exactly when such a retry issued it. */
  lemma EmptyIffRetried(log: seq<Entry>, calls: seq<Call>, jobs: map<JobId, Job>, id: JobId)
    requires LogSound(log, calls) && Recorded(log, jobs) && IssuedStays(log, jobs)
    requires id in jobs && jobs[id].issuer == Acme
    ensures jobs[id].state == Issued && jobs[id].certificate.None? <==>
            exists j :: 0 <= j < |log| && log[j].call < |calls| && RetriedEmpty(log, calls, j, id)
  {
    if jobs[id].state == Issued && jobs[id].certificate.None? {
      var j :| 0 <= j < |log| && IsEntry(log[j], id, jobs[id]);
      assert SoundEntry(log, calls, j);
      assert RetriedEmpty(log, calls, j, id);
    }
  }
}
