/** examples/automation-runner: the job map in memory, the state file, the queue, two workers, and what
    each critical section, write and restart does to them. */
module Runner {
  import opened Domain

  const MAX_JOBS := 500
  const MAX_DELIVERIES := 3

  type JobId = string
  type WorkerNo = nat

  datatype Channel = NoChannel | Webhook | Native

  /** The instructions of a job; the fingerprint is their hash. */
  datatype Task = Task(text: string, channel: Channel)

  const NO_TASK := Task("", NoChannel)

  datatype RunnerStatus = JQueued | JRunning | JSucceeded | JFailed

  datatype DeliveryStatus = DPending | DSending | DSent | DFailed | DUnknown

  datatype Delivery = Delivery(status: DeliveryStatus, attempts: nat, lastError: string)

  datatype Report = Report(text: string, delivery: Option<Delivery>)

  datatype Job = Job(id: JobId, statusUrl: string, status: RunnerStatus, result: Option<Report>, request: Task,
    fingerprint: string)

  /** A file entry: the job's public fields with the request and fingerprint beside them. */
  datatype StoredJob = StoredJob(job: Job, request: Task, fingerprint: string)

  // ---------------------------------------------------------------- the state file

  function Store(job: Job): StoredJob {
    StoredJob(job.(request := NO_TASK, fingerprint := ""), job.request, job.fingerprint)
  }

  function Entry(stored: StoredJob): Job {
    stored.job.(request := stored.request, fingerprint := stored.fingerprint)
  }

  function FileOf(jobs: map<JobId, Job>): map<JobId, StoredJob> {
    map id | id in jobs :: Store(jobs[id])
  }

  function Load(file: map<JobId, StoredJob>): Option<map<JobId, Job>> {
    if |file| > MAX_JOBS then None
    else if exists id | id in file :: id != file[id].job.id || file[id].fingerprint == "" then None
    else Some(map id | id in file :: Entry(file[id]))
  }

  predicate WellKept(jobs: map<JobId, Job>) {
    && |jobs| <= MAX_JOBS
    && (forall id | id in jobs :: jobs[id].id == id && jobs[id].fingerprint != "")
  }

  /** Reading back what was written gives the same job map, requests and fingerprints included. */
  lemma LoadAfterPersist(jobs: map<JobId, Job>)
    requires WellKept(jobs)
    ensures Load(FileOf(jobs)) == Some(jobs)
  {
    assert FileOf(jobs).Keys == jobs.Keys;
    SameSize(FileOf(jobs), jobs);
    assert (map id | id in FileOf(jobs) :: Entry(FileOf(jobs)[id])) == jobs;
  }

  lemma SameSize<K, U, V>(a: map<K, U>, b: map<K, V>)
    requires a.Keys == b.Keys
    ensures |a| == |b|
  {
    assert |a| == |a.Keys| && |b| == |b.Keys|;
  }

  // ---------------------------------------------------------------- state and steps

  /** What a notification provider or endpoint did with one send. */
  datatype Send = Delivered | RateLimited | Rejected4xx | Rejected5xx | TransportFailed | Undecodable

  /** Where a worker is inside execute. */
  datatype Pc = Beginning | Reporting | Deciding | Sending | Concluding(outcome: Send) | Finishing

  datatype Work = Work(id: JobId, pc: Pc)

  datatype State = State(
    jobs: map<JobId, Job>,
    file: map<JobId, StoredJob>,
    queue: seq<JobId>,
    handing: set<JobId>,             // recorded by a handler that has yet to enqueue it
    working: map<WorkerNo, Work>,
    closed: bool,
    acked: set<JobId>,               // history: acknowledged acceptances
    sends: map<JobId, seq<Send>>)    // history: every notification that left the process

  /** persistLocked with the caller's rollback: the new map, or the old one in memory with either file. */
  function Persisted(s: State, jobs: map<JobId, Job>, write: Write): State {
    match write
    case Confirmed => s.(jobs := jobs, file := FileOf(jobs))
    case FailedBefore => s
    case FailedAfterRename => s.(file := FileOf(jobs))
  }

  datatype Reply = Accepted | Existing | Conflicting | AtCapacity | ShuttingDown | NotRecorded

  function SubmitReply(s: State, id: JobId, task: Task, fingerprint: string, write: Write): Reply {
    if s.closed then ShuttingDown
    else if id in s.jobs then
      if s.jobs[id].fingerprint != fingerprint then Conflicting else Existing
    else if |s.jobs| >= MAX_JOBS then AtCapacity
    else if write == Confirmed then Accepted
    else NotRecorded
  }

  function Submit(s: State, id: JobId, url: string, task: Task, fingerprint: string, write: Write): State {
    var reply := SubmitReply(s, id, task, fingerprint, write);
    if reply == Existing then s.(acked := s.acked + {id})
    else if reply == Accepted then
      Persisted(s, s.jobs[id := Job(id, url, JQueued, None, task, fingerprint)], write).(handing := s.handing + {id},
        acked := s.acked + {id})
    else if reply == NotRecorded then Persisted(s, s.jobs[id := Job(id, url, JQueued, None, task, fingerprint)], write)
    else s
  }

  /** The channel send blocks while the channel is full. */
  function Enqueue(s: State, id: JobId): State {
    if id in s.handing && |s.queue| < MAX_JOBS then s.(queue := s.queue + [id], handing := s.handing - {id}) else s
  }

  function Take(s: State, worker: WorkerNo): State {
    if s.queue == [] || worker in s.working then s
    else s.(queue := s.queue[1..], working := s.working[worker := Work(s.queue[0], Beginning)])
  }

  function Left(s: State, worker: WorkerNo): State { s.(working := s.working - {worker}) }

  /** update: a closed runner refuses, a failed write ends the worker's turn, a recorded change moves it on. */
  function Updated(s: State, worker: WorkerNo, job: Job, write: Write, next: Option<Pc>): State
    requires worker in s.working
  {
    var id := s.working[worker].id;
    if s.closed || id !in s.jobs then Left(s, worker)
    else
      var t := Persisted(s, s.jobs[id := job], write);
      if write == Confirmed && next.Some? then t.(working := s.working[worker := Work(id, next.value)])
        else Left(t, worker)
  }

  predicate Open(d: Delivery) { d.status == DPending || d.status == DSending }

  /** Where execute goes once the report exists. */
  function AfterReport(report: Report): Pc {
    if report.delivery.Some? && Open(report.delivery.value) then Deciding else Finishing
  }

  function Begin(s: State, worker: WorkerNo, write: Write): State
    requires worker in s.working
  {
    var id := s.working[worker].id;
    if id !in s.jobs || (s.jobs[id].status != JQueued && s.jobs[id].status != JRunning) then Left(s, worker)
    else
      var job := s.jobs[id].(status := JRunning);
      Updated(s, worker, job, write, Some(if job.result.None? then Reporting else AfterReport(job.result.value)))
  }

  /** The source was read, or could not be. */
  function MakeReport(s: State, worker: WorkerNo, text: Option<string>, write: Write): State
    requires worker in s.working
  {
    var id := s.working[worker].id;
    if id !in s.jobs then Left(s, worker)
    else if text.None? then Updated(s, worker, s.jobs[id].(status := JFailed), write, None)
    else
      var report := Report(text.value, if s.jobs[id].request.channel == NoChannel then None
        else Some(Delivery(DPending, 0, "")));
      Updated(s, worker, s.jobs[id].(result := Some(report)), write, Some(AfterReport(report)))
  }

  function WithDelivery(job: Job, d: Delivery): Job
    requires job.result.Some?
  {
    job.(result := Some(job.result.value.(delivery := Some(d))))
  }

  predicate HasDelivery(job: Job) { job.result.Some? && job.result.value.delivery.Some? }

  function DeliveryOf(job: Job): Delivery
    requires HasDelivery(job)
  {
    job.result.value.delivery.value
  }

  const RESTARTED := "runner restarted during send; investigate provider before resending"
  const UNCONFIRMED := "delivery remained unconfirmed after the maximum number of attempts"

  /** The head of the deliver loop. */
  function Decide(s: State, worker: WorkerNo, write: Write): State
    requires worker in s.working
  {
    var id := s.working[worker].id;
    if id !in s.jobs || !HasDelivery(s.jobs[id]) then Left(s, worker)
    else
      var job := s.jobs[id];
      var d := DeliveryOf(job);
      if job.request.channel == Native && d.status == DSending then
        Updated(s, worker, WithDelivery(job, d.(status := DUnknown, lastError := RESTARTED)), write, Some(Finishing))
      else if d.attempts >= MAX_DELIVERIES then
        Updated(s, worker, WithDelivery(job, d.(status := DFailed, lastError := if d.lastError == "" then UNCONFIRMED
          else d.lastError)), write, Some(Finishing))
      else
        Updated(s, worker, WithDelivery(job, d.(status := if job.request.channel == Native then DSending else DPending,
          attempts := d.attempts + 1)),
                write, Some(Sending))
  }

  function SendsOf(s: State, id: JobId): seq<Send> {
    if id in s.sends then s.sends[id] else []
  }

  /** The notification leaves the process and its outcome comes back. */
  function SendOut(s: State, worker: WorkerNo, outcome: Send): State
    requires worker in s.working
  {
    var id := s.working[worker].id;
    s.(sends := s.sends[id := SendsOf(s, id) + [outcome]], working := s.working[worker := Work(id,
      Concluding(outcome))])
  }

  /** The provider answered, but whether it accepted the message is not known. */
  predicate Unconfirmed(outcome: Send) {
    outcome == TransportFailed || outcome == Rejected5xx || outcome == Undecodable
  }

  /** What one outcome makes of a delivery: on a native channel only a rate limit is tried again,
      elsewhere every failure is. */
  function StatusAfter(channel: Channel, outcome: Send): DeliveryStatus {
    if outcome == Delivered || (channel != Native && outcome == Undecodable) then DSent
    else if channel == Native && Unconfirmed(outcome) then DUnknown
    else if channel == Native && outcome != RateLimited then DFailed
    else DPending
  }

  function Answered(d: Delivery, channel: Channel, outcome: Send): Delivery {
    d.(status := StatusAfter(channel, outcome), lastError := if StatusAfter(channel, outcome) == DSent then ""
      else "not delivered")
  }

  /** The tail of the deliver loop, after one send. */
  function Conclude(s: State, worker: WorkerNo, write: Write): State
    requires worker in s.working && s.working[worker].pc.Concluding?
  {
    var id := s.working[worker].id;
    if id !in s.jobs || !HasDelivery(s.jobs[id]) then Left(s, worker)
    else
      var job := s.jobs[id];
      var d := Answered(DeliveryOf(job), job.request.channel, s.working[worker].pc.outcome);
      Updated(s, worker, WithDelivery(job, d), write, Some(if d.status == DPending then Deciding else Finishing))
  }

  function Finish(s: State, worker: WorkerNo, write: Write): State
    requires worker in s.working
  {
    var id := s.working[worker].id;
    if id !in s.jobs then Left(s, worker) else Updated(s, worker, s.jobs[id].(status := JSucceeded), write, None)
  }

  predicate Resumable(job: Job) { job.status == JQueued || job.status == JRunning }

  /** `order` enumerates the resumable jobs in some map order. */
  predicate ResumeOrder(jobs: map<JobId, Job>, order: seq<JobId>) {
    && (forall i, j | 0 <= i < j < |order| :: order[i] != order[j])
    && (forall id | id in order :: id in jobs && Resumable(jobs[id]))
    && (forall id | id in jobs && Resumable(jobs[id]) :: id in order)
  }

  /** A crash or a shutdown, then newRunner on the same directory. A file it cannot load stops the start. */
  function Restart(s: State, order: seq<JobId>): State {
    match Load(s.file)
    case None => s.(closed := true, working := map[], queue := [], handing := {})
    case Some(jobs) =>
      if ResumeOrder(jobs, order) then s.(jobs := jobs, queue := order, handing := {}, working := map[],
        closed := false)
      else s
  }

  datatype Move =
    | Submitting(id: JobId, url: string, task: Task, fingerprint: string, write: Write)
    | Enqueuing(id: JobId)
    | Taking(worker: WorkerNo)
    | Begins(worker: WorkerNo, write: Write)
    | Reports(worker: WorkerNo, text: Option<string>, write: Write)
    | Decides(worker: WorkerNo, write: Write)
    | Sends(worker: WorkerNo, outcome: Send)
    | Concludes(worker: WorkerNo, write: Write)
    | Finishes(worker: WorkerNo, write: Write)
    | Leaves(worker: WorkerNo)             // the context ended while it was waiting or sending
    | Closing
    | Restarting(order: seq<JobId>)

  predicate At(s: State, worker: WorkerNo, pc: Pc) { worker in s.working && s.working[worker].pc == pc }

  predicate Can(s: State, m: Move) {
    match m
    case Submitting(_, _, _, fingerprint, _) => fingerprint != ""
    case Enqueuing(id) => id in s.handing
    case Taking(worker) => worker !in s.working && s.queue != []
    case Begins(worker, _) => At(s, worker, Beginning)
    case Reports(worker, _, _) => At(s, worker, Reporting)
    case Decides(worker, _) => At(s, worker, Deciding)
    case Sends(worker, _) => At(s, worker, Sending)
    case Concludes(worker, _) => worker in s.working && s.working[worker].pc.Concluding?
    case Finishes(worker, _) => At(s, worker, Finishing)
    case Leaves(worker) => worker in s.working
    case Closing => true
    case Restarting(_) => true
  }

  function Moved(s: State, m: Move): State
    requires Can(s, m)
  {
    match m
    case Submitting(id, url, task, fingerprint, write) => Submit(s, id, url, task, fingerprint, write)
    case Enqueuing(id) => Enqueue(s, id)
    case Taking(worker) => Take(s, worker)
    case Begins(worker, write) => Begin(s, worker, write)
    case Reports(worker, text, write) => MakeReport(s, worker, text, write)
    case Decides(worker, write) => Decide(s, worker, write)
    case Sends(worker, outcome) => SendOut(s, worker, outcome)
    case Concludes(worker, write) => Conclude(s, worker, write)
    case Finishes(worker, write) => Finish(s, worker, write)
    case Leaves(worker) => Left(s, worker)
    case Closing => s.(closed := true)
    case Restarting(order) => Restart(s, order)
  }

  function FirstStart(): State { State(map[], map[], [], {}, map[], false, {}, map[]) }

  ghost predicate Life(states: seq<State>, moves: seq<Move>) {
    && |states| == |moves| + 1
    && states[0] == FirstStart()
    && forall i {:trigger moves[i]} | 0 <= i < |moves| ::
          Can(states[i], moves[i]) && states[i + 1] == Moved(states[i], moves[i])
  }
}
