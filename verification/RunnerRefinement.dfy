/** The job runner of module Runner is the runner the remote-job protocol assumes. */
module RunnerRefinement {
  import opened Domain
  import opened RemoteJob
  import P = RemoteProtocol
  import opened Runner
  import opened RunnerProofs

  type Slots = map<(string, Key), P.RunnerJob>

  /** Job ids are hashes of keys and fingerprints are hashes of instructions; both are taken as injective. */
  ghost predicate Hashing(idOf: Key -> JobId, printOf: Request -> string) {
    && (forall a, b {:trigger idOf(a), idOf(b)} :: idOf(a) == idOf(b) ==> a == b)
    && (forall a, b {:trigger printOf(a), printOf(b)} :: printOf(a) == printOf(b) ==> a == b)
    && (forall r :: printOf(r) != "")
  }

  /** One slot: settled when its job is in memory, and the file holds nothing that has no slot. */
  predicate SlotIs(jobs: map<JobId, Job>, file: map<JobId, StoredJob>, slots: Slots, slot: (string, Key), id: JobId,
                   printOf: Request -> string) {
    && (id in jobs <==> slot in slots && slots[slot].settled)
    && (id in file ==> slot in slots)
    && (id in jobs ==> slots[slot].id == id && jobs[id].fingerprint == printOf(slots[slot].instructions))
    && (id in file ==> slots[slot].id == id && file[id].fingerprint == printOf(slots[slot].instructions))
  }

  ghost predicate Represents(s: State, url: string, slots: Slots, idOf: Key -> JobId, printOf: Request -> string) {
    forall key: Key {:trigger idOf(key)} :: SlotIs(s.jobs, s.file, slots, (url, key), idOf(key), printOf)
  }

  /** A full runner's refusal looks to the protocol like a write that never happened. */
  function WriteSeen(s: State, id: JobId, write: Write): Write {
    if id !in s.jobs && |s.jobs| >= MAX_JOBS then FailedBefore else write
  }

  lemma FileKeeps(jobs: map<JobId, Job>)
    ensures FileOf(jobs).Keys == jobs.Keys && forall id | id in jobs ::
              FileOf(jobs)[id].fingerprint == jobs[id].fingerprint
  {
  }

  /** Handling a request is the protocol's step: same slots, an acknowledgement exactly when the protocol
      gives one, a conflict exactly when the protocol records one. */
  lemma SubmitRefines(s: State, system: P.System, post: P.Post, address: string, task: Task, write: Write,
                      idOf: Key -> JobId, printOf: Request -> string)
    requires Hashing(idOf, printOf) && Represents(s, post.url, system.runner, idOf, printOf) && Durable(s) && !s.closed
    ensures
      var id := idOf(post.key);
      var t := Submit(s, id, address, task, printOf(post.request), write);
      var reply := SubmitReply(s, id, task, printOf(post.request), write);
      var next := P.Handled(system, post, id, WriteSeen(s, id, write));
      && Represents(t, post.url, next.runner, idOf, printOf)
      && (reply == Accepted || reply == Existing ==> P.Ack(post.url, post.key, id) in next.acks)
      && (reply == Conflicting <==> (post.url, post.key) in system.runner && system.runner[(post.url, post.key)].settled
                                    && system.runner[(post.url, post.key)].instructions != post.request)
      && next.conflicts == system.conflicts + (if reply == Conflicting then {post} else {})
  {
    hide FileOf, Load, SlotIs;
    var id := idOf(post.key);
    var t := Submit(s, id, address, task, printOf(post.request), write);
    var next := P.Handled(system, post, id, WriteSeen(s, id, write));
    assert SlotIs(s.jobs, s.file, system.runner, (post.url, post.key), id, printOf);
    SubmitReplies(s, system, post, task, write, id, printOf);
    forall key: Key ensures SlotIs(t.jobs, t.file, next.runner, (post.url, key), idOf(key), printOf) {
      assert SlotIs(s.jobs, s.file, system.runner, (post.url, key), idOf(key), printOf);
      SubmitSlot(s, system, post, address, task, write, id, key, idOf(key), printOf);
    }
  }

  lemma SubmitReplies(s: State, system: P.System, post: P.Post, task: Task, write: Write, id: JobId,
                      printOf: Request -> string)
    requires SlotIs(s.jobs, s.file, system.runner, (post.url, post.key), id, printOf) && !s.closed
    requires forall a, b {:trigger printOf(a), printOf(b)} :: printOf(a) == printOf(b) ==> a == b
    ensures
      var reply := SubmitReply(s, id, task, printOf(post.request), write);
      var next := P.Handled(system, post, id, WriteSeen(s, id, write));
      && (reply == Accepted || reply == Existing ==> P.Ack(post.url, post.key, id) in next.acks)
      && (reply == Conflicting <==> (post.url, post.key) in system.runner && system.runner[(post.url, post.key)].settled
                                    && system.runner[(post.url, post.key)].instructions != post.request)
      && next.conflicts == system.conflicts + (if reply == Conflicting then {post} else {})
  {
  }

  lemma SubmitSlot(s: State, system: P.System, post: P.Post, address: string, task: Task, write: Write, id: JobId,
                   key: Key, other: JobId, printOf: Request -> string)
    requires !s.closed && s.jobs.Keys <= s.file.Keys && (key == post.key <==> other == id)
    requires SlotIs(s.jobs, s.file, system.runner, (post.url, post.key), id, printOf)
    requires SlotIs(s.jobs, s.file, system.runner, (post.url, key), other, printOf)
    ensures
      var t := Submit(s, id, address, task, printOf(post.request), write);
      SlotIs(t.jobs, t.file, P.Handled(system, post, id, WriteSeen(s, id, write)).runner, (post.url, key), other,
        printOf)
  {
    hide SlotIs, Persisted;
    var t := Submit(s, id, address, task, printOf(post.request), write);
    var slots := P.Handled(system, post, id, WriteSeen(s, id, write)).runner;
    assert SettledIffPresent(s, system.runner, (post.url, post.key), id) by {
      assert SlotIs(s.jobs, s.file, system.runner, (post.url, post.key), id, printOf);
      PresentSlot(s, system.runner, (post.url, post.key), id, printOf);
    }
    if id in s.jobs || |s.jobs| >= MAX_JOBS {
      assert slots == system.runner && t.jobs == s.jobs && t.file == s.file;
    } else {
      var job := Job(id, address, JQueued, None, task, printOf(post.request));
      RecordedSlot(s, t, system.runner, slots, (post.url, post.key), (post.url, key), id, other, job, post.request,
        write, printOf);
    }
  }

  predicate SettledIffPresent(s: State, slots: Slots, slot: (string, Key), id: JobId) {
    id in s.jobs <==> slot in slots && slots[slot].settled
  }

  lemma PresentSlot(s: State, slots: Slots, slot: (string, Key), id: JobId, printOf: Request -> string)
    requires SlotIs(s.jobs, s.file, slots, slot, id, printOf)
    ensures SettledIffPresent(s, slots, slot, id)
  {
  }

  lemma RecordedSlot(s: State, t: State, before: Slots, after: Slots, mine: (string, Key), slot: (string, Key),
                     id: JobId, other: JobId,
                     job: Job, request: Request, write: Write, printOf: Request -> string)
    requires id !in s.jobs && s.jobs.Keys <= s.file.Keys && job.fingerprint == printOf(request) && (slot == mine <==>
               other == id)
    requires SlotIs(s.jobs, s.file, before, slot, other, printOf)
    requires t.jobs == Persisted(s, s.jobs[id := job], write).jobs
             && t.file == Persisted(s, s.jobs[id := job], write).file
    requires after == if write == FailedBefore then before else before[mine := P.RunnerJob(id, request,
             write == Confirmed)]
    ensures SlotIs(t.jobs, t.file, after, slot, other, printOf)
  {
    FileKeeps(s.jobs[id := job]);
    hide FileOf;
  }

  /** Progress of a job, however its write ends, is invisible to the protocol. */
  lemma UpdateRefines(s: State, url: string, slots: Slots, worker: WorkerNo, job: Job, write: Write, next: Option<Pc>,
                      idOf: Key -> JobId, printOf: Request -> string)
    requires worker in s.working && Represents(s, url, slots, idOf, printOf)
    requires var id := s.working[worker].id; id in s.jobs ==> job.fingerprint == s.jobs[id].fingerprint
    ensures Represents(Updated(s, worker, job, write, next), url, slots, idOf, printOf)
  {
    var id := s.working[worker].id;
    if id in s.jobs { FileKeeps(s.jobs[id := job]); }
    hide FileOf;
  }

  /** The slots that a restart does not find in the file. */
  function Lost(s: State, url: string, slots: Slots, idOf: Key -> JobId): set<(string, Key)> {
    set slot | slot in slots && slot.0 == url && idOf(slot.1) !in s.file
  }

  /** A restart is the protocol's: unsettled slots missing from the file are forgotten, all others are settled. */
  lemma RestartRefines(s: State, url: string, slots: Slots, order: seq<JobId>, idOf: Key -> JobId,
                       printOf: Request -> string)
    requires Represents(s, url, slots, idOf, printOf) && Durable(s) && ResumeOrder(Load(s.file).value, order)
    ensures forall slot | slot in Lost(s, url, slots, idOf) :: !slots[slot].settled
    ensures Represents(Restart(s, order), url, P.Restarted(slots - Lost(s, url, slots, idOf), url), idOf, printOf)
  {
    hide Load, SlotIs, ResumeOrder;
    LoadedFacts(s.file);
    forall slot | slot in Lost(s, url, slots, idOf) ensures !slots[slot].settled {
      assert SlotIs(s.jobs, s.file, slots, (url, slot.1), idOf(slot.1), printOf);
      UnsettledSlot(s, slots, slot, idOf(slot.1), printOf);
    }
    var after := P.Restarted(slots - Lost(s, url, slots, idOf), url);
    var t := Restart(s, order);
    forall key: Key ensures SlotIs(t.jobs, t.file, after, (url, key), idOf(key), printOf) {
      assert SlotIs(s.jobs, s.file, slots, (url, key), idOf(key), printOf);
      assert (url, key) in after <==> (url, key) in slots && idOf(key) in s.file;
      RestartSlot(s, slots, after, (url, key), idOf(key), printOf);
    }
  }

  lemma UnsettledSlot(s: State, slots: Slots, slot: (string, Key), id: JobId, printOf: Request -> string)
    requires Durable(s) && slot in slots && id !in s.file && SlotIs(s.jobs, s.file, slots, slot, id, printOf)
    ensures !slots[slot].settled
  {
    hide Load;
  }

  lemma RestartSlot(s: State, slots: Slots, after: Slots, slot: (string, Key), id: JobId, printOf: Request -> string)
    requires Durable(s) && SlotIs(s.jobs, s.file, slots, slot, id, printOf)
    requires slot in after <==> slot in slots && id in s.file
    requires slot in after ==> after[slot] == slots[slot].(settled := true)
    ensures SlotIs(Load(s.file).value, s.file, after, slot, id, printOf)
  {
    LoadedFacts(s.file);
    hide Load;
  }
}
