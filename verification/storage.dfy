/**
 The in-memory store shared by the request boundary and the dispatcher:
 one map from job id to job and one from user id to user. Every operation is
 a pure function from the old store to its answer or to the new store.
 */
module Storage {
  import opened Wrappers
  import opened Models

  datatype Store = Store(jobs: map<string, Job>, users: map<string, User>)

  /** The data the store starts with; `now` stands for the clock reading taken at start-up. */
  function Initial(now: Timestamp): (s: Store)
    ensures s.jobs.Keys == {"test_job"} && s.users.Keys == {"user_1", "user_2"}
    ensures s.jobs["test_job"] == Job(now, Success)
  {
    Store(
      map["test_job" := Job(now, Success)],
      map[
        "user_1" := User(None, Some("+79001234567"), Some("ivan@gmail.com"), "Ivan"),
        "user_2" := User(Some("987654321"), None, None, "Divan")])
  }

  function GetUser(s: Store, userId: string): (r: Option<User>)
    ensures r.Some? <==> userId in s.users
    ensures r.Some? ==> r.value == s.users[userId]
  {
    if userId in s.users then Some(s.users[userId]) else None
  }

  /** Membership test; agrees with a lookup that finds the user. */
  function UserExists(s: Store, userId: string): (r: bool)
    ensures r <==> GetUser(s, userId).Some?
  {
    userId in s.users
  }

  function GetJob(s: Store, jobId: string): (r: Option<Job>)
    ensures jobId !in s.jobs ==> r == None
    ensures jobId in s.jobs ==> r == Some(s.jobs[jobId])
  {
    if jobId in s.jobs then Some(s.jobs[jobId]) else None
  }

  /** Stores `job` under `jobId`, silently replacing any job already there. */
  function CreateJob(s: Store, jobId: string, job: Job): (r: Store)
    ensures GetJob(r, jobId) == Some(job)
    ensures forall other :: other != jobId ==> GetJob(r, other) == GetJob(s, other)
    ensures r.jobs.Keys == s.jobs.Keys + {jobId}
    ensures r.users == s.users
  {
    s.(jobs := s.jobs[jobId := job])
  }

  /**
   Overwrites the status of a known job and keeps its creation time; an
   unknown id is ignored. The current status is not consulted.
   */
  function UpdateJobStatus(s: Store, jobId: string, status: JobStatus): (r: Store)
    ensures jobId !in s.jobs ==> r == s
    ensures jobId in s.jobs ==> GetJob(r, jobId) == Some(Job(s.jobs[jobId].createdAt, status))
    ensures forall other :: other != jobId ==> GetJob(r, other) == GetJob(s, other)
    ensures r.jobs.Keys == s.jobs.Keys
    ensures r.users == s.users
  {
    if jobId in s.jobs then s.(jobs := s.jobs[jobId := s.jobs[jobId].(status := status)])
    else s
  }

  /**
   Round trip of one job through its lifecycle: created, given a new status,
   read back with its creation time and that status; no other job changes.
   */
  lemma CreateThenGet(s: Store, jobId: string, job: Job, status: JobStatus, other: string)
    ensures GetJob(UpdateJobStatus(CreateJob(s, jobId, job), jobId, status), jobId)
         == Some(Job(job.createdAt, status))
    ensures other != jobId ==>
      GetJob(UpdateJobStatus(CreateJob(s, jobId, job), jobId, status), other) == GetJob(s, other)
  {
  }

  /**
   The store does not protect a terminal status: a second write replaces a
   SUCCESS or FAILED status just as it replaces PENDING. Keeping a job's
   terminal status stable is therefore the callers' duty.
   */
  lemma UpdateIgnoresCurrentStatus(s: Store, jobId: string, first: JobStatus, second: JobStatus)
    requires jobId in s.jobs
    ensures GetJob(UpdateJobStatus(UpdateJobStatus(s, jobId, first), jobId, second), jobId)
         == Some(Job(s.jobs[jobId].createdAt, second))
    ensures UpdateJobStatus(UpdateJobStatus(s, jobId, first), jobId, second) == UpdateJobStatus(s, jobId, second)
  {
  }

  /** Lookups in the initial data: the demo job and the two demo users. */
  lemma InitialData(now: Timestamp)
    ensures GetJob(Initial(now), "test_job") == Some(Job(now, Success))
    ensures UserExists(Initial(now), "user_1") && UserExists(Initial(now), "user_2")
    ensures GetUser(Initial(now), "user_1")
         == Some(User(None, Some("+79001234567"), Some("ivan@gmail.com"), "Ivan"))
    ensures GetUser(Initial(now), "user_2") == Some(User(Some("987654321"), None, None, "Divan"))
    ensures forall id :: id != "test_job" ==> GetJob(Initial(now), id) == None
  {
  }
}
