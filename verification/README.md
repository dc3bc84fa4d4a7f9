# Multi-channel notification dispatch, modelled in Dafny

This project models the dispatch engine of a small notification service. A
request names a user and a message. The engine tries the user's email, phone
(SMS) and Telegram addresses in that fixed order. Each notifier gets a bounded
retry policy, and the first success ends the dispatch. The outcome is recorded
as the status of a job, PENDING → SUCCESS | FAILED, kept in an in-memory store.

Modules, one per source file or group of value types:

- `Wrappers` (`wrappers.dfy`): `Option`.
- `Models` (`models.dfy`): `Address`, `User`, `Message`, `JobStatus`, `Job`,
  and `Present`, which is Python truthiness of an optional string field
  (present and non-empty).
- `Storage` (`storage.dfy`): the store as two maps, with pure lookup and
  update functions and the initial demo data.
- `Notifiers` (`notifiers.dfy`): the three notifier classes, their
  address-kind guard, and the retry policy.
- `NotificationService` (`notification_service.dfy`): the candidate list, the
  fallback loop and the dispatch with its job-status write.

The network is an oracle: a `seq<bool>` from which every real transmission
draws its next outcome. A notifier given an address of the wrong kind fails
without drawing. Every operation returns the oracle that is left, so attempt
counts and "no further attempts after the first success" are exact
statements. A retry run records its verdict, the number of send calls, the
number of failure reports logged, and the remaining oracle.

Two behaviours of the code a reader may not expect:

- The store does not forbid overwrites. `create_job` replaces an existing
  job, and `update_job_status` writes whatever status it is given, even over
  a terminal one (`Storage.UpdateIgnoresCurrentStatus`). A terminal status
  stays stable only because the dispatcher writes it once per call.
- A negative `max_retries` gives exactly one attempt, because `range` of a
  negative count is empty (`Notifiers.RetryBudget`).

## Model

| member | source | states |
|---|---|---|
| Storage.Initial | app/db/storage.py:18-26 | the store starts with exactly one job, `test_job`, in status SUCCESS, and exactly the users `user_1` and `user_2` |
| Storage.InitialData | app/db/storage.py:18-26 | lookups in the initial data: `test_job` is SUCCESS; `user_1` has email and phone and no Telegram; `user_2` has only Telegram; every other job id is not found |
| Storage.GetUser | app/db/storage.py:28-30 | the lookup finds a user iff the id is stored, and then returns that user |
| Storage.UserExists | app/db/storage.py:32-34 | the existence test holds iff `GetUser` finds the user |
| Storage.GetJob | app/db/storage.py:36-38 | an unknown job id yields none, never a placeholder job; a known id yields its job |
| Storage.CreateJob | app/db/storage.py:40-42 | reading the new id back gives the created job; any previous job under that id is replaced; every other job and all users are unchanged |
| Storage.CreateThenGet | app/db/storage.py:40-47 | round trip: create, then a status update, then get returns the job with its creation time and the new status; lookups of other ids are unaffected |
| Storage.UpdateJobStatus | app/db/storage.py:44-47 | an unknown id leaves the store unchanged; a known id gets the new status and keeps its creation time; other jobs, the set of ids and the users are unchanged |
| Storage.UpdateIgnoresCurrentStatus | app/db/storage.py:44-47 | the current status is not checked: a second write replaces a terminal status, and two writes equal the last write alone |
| Notifiers.SendMessage | app/services/notifiers.py:50-96 | a wrong address kind is a failure that draws no network outcome; a matching kind returns exactly the next network outcome and draws one |
| Notifiers.RetryLoopIsRetryRun | app/services/notifiers.py:25-32 | the retry loop from iteration `i` makes at most `max_retries - i` calls, succeeds iff one of them does, stops at the first success, reports each failure, and draws exactly its calls' outcomes |
| Notifiers.SendWithRetryIsRetryRun | app/services/notifiers.py:16-32 | the retry policy succeeds iff one of its first `max_retries + 1` attempts succeeds; it stops right after the first success; on failure it made exactly `max_retries + 1` calls, all failed; there is one failure report per failed call |
| Notifiers.RetryCounts | app/services/notifiers.py:16-32 | at most `max_retries + 1` calls; exactly one with no retries; between one and four with the default of 3; on total failure, `max_retries + 1` calls and as many reports |
| Notifiers.MismatchExhaustsRetries | app/services/notifiers.py:16-32 | a wrong address kind does not fail fast: all allowed calls are made and reported as failures, and no network outcome is drawn |
| NotificationService.Candidates | app/services/notification_service.py:27-40 | a candidate is in the list iff it pairs a present, non-empty contact field with its notifier; the list is in the order email, phone, Telegram, with no duplicates; every notifier accepts its address, so the mismatch path cannot be reached |
| NotificationService.TryCandidatesIsFallbackRun | app/services/notification_service.py:42-47 | candidate `i` gets the retry run of its own notifier and address on the oracle the earlier runs left; every run but the last failed; the loop succeeds iff the last run did, so no candidate after a success is tried; a failed loop tried every candidate |
| NotificationService.SendMultiserviceNotify | app/services/notification_service.py:15-52 | an unknown user fails with no notifier tried and FAILED written; for a known user, the trace is the fallback run over the user's candidates on the oracle (each run the candidate's own retry run, first success stops), success iff some candidate succeeded, and a failure tried all candidates (none is a failure too); with a job id, exactly one terminal status is written, SUCCESS iff the result is true; without a job id, the store is unchanged; users are never changed |
| NotificationService.DispatchAttempts | app/services/notification_service.py:42-47 | a dispatch makes at most 4 calls per present address, and every call draws one network outcome |
| NotificationService.TryCandidatesDrawsPerCall | app/services/notification_service.py:42-43 | when every notifier accepts its address, the oracle left is the input minus exactly as many outcomes as calls were made |
| NotificationService.NoAddressFails | app/services/notification_service.py:27-52 | a user with no present contact field fails without any call, and FAILED is written |
| NotificationService.RequestLifecycle | app/api/routers.py:25-29 | a job created as PENDING at request time ends with its creation time and status SUCCESS or FAILED, matching the dispatch result; every other job is untouched |
| NotificationService.EmailFailsPhoneSucceeds | app/services/notification_service.py:42-47 | with all three addresses, email failing 4 times and then one success: SUCCESS after 4 email calls and 1 SMS call, and Telegram, the third candidate, is never tried |
| NotificationService.EmailOnlyAlwaysFails | app/services/notification_service.py:42-52 | email only, and any oracle whose first four outcomes fail: FAILED after exactly 4 email calls and 4 reports |
| NotificationService.PhoneFailsTelegramSucceeds | app/services/notification_service.py:42-47 | phone and Telegram, phone failing 4 times and then one success: SUCCESS with 4 SMS calls, then 1 Telegram call |
| NotificationService.InitialUsersCandidates | app/db/storage.py:23-26 | the demo user `user_1` is tried by email and then SMS; `user_2` is tried by Telegram only |

## Left out

- The simulated network (`_simulate_network`, app/services/notifiers.py:37-41). It uses random numbers and `asyncio.sleep`, so it becomes the boolean oracle.
- The per-class `fail_rate` and `max_delay` floats. They only parameterise the random simulation.
- An oracle that runs out. A transmission after its end counts as a failure. This keeps every operation total; the source's network never runs out.
- Async execution and the background task that runs the dispatch (app/api/routers.py:28-30). Dispatch is a sequential function.
- HTTP routing, the 404 responses and the health endpoint (app/api/routers.py, app/app.py). Only the PENDING job creation appears, as the first step of `RequestLifecycle`.
- main.py, the root notifiers.py and jobs.py. They are stale variants or unused, and are not part of this model.
- `app/models/__init__.py` and `app/services/__init__.py`. They only re-export names.
- Log messages. Only the number of failure reports of the retry policy is modelled. The success logs and the dispatcher's final error log are not.
- `datetime.now()`. Creation times are an opaque `Timestamp` supplied by the caller.
- Pydantic validation of users and messages. The message is only logged, so the model passes it through untouched.
- In-place mutation of the stored job object. Jobs are values here. The source changes the stored object, which an alias would also see, but its only caller builds a fresh job per request.
