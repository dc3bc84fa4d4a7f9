/**
 The dispatcher: it looks up the user, lines up one notifier per contact
 field the user has, tries them in a fixed order through the retry policy,
 stops at the first success and writes the job's terminal status.
 */
module NotificationService {
  import opened Wrappers
  import opened Models
  import opened Storage
  import opened Notifiers

  /** A notifier paired with the address it is to deliver to. */
  datatype Candidate = Candidate(notifier: Notificator, address: Address)

  /** The fixed priority of the address kinds: email, then phone, then Telegram. */
  function Rank(a: Address): nat
  {
    match a
    case EmailAddress(_) => 0
    case PhoneAddress(_) => 1
    case TelegramAddress(_) => 2
  }

  /** `c` is the candidate built from one present contact field of `u`. */
  predicate IsCandidateOf(u: User, c: Candidate)
  {
    match c.address
    case EmailAddress(e) =>
      c.notifier == EmailNotificator && Present(u.email) && u.email.value == e
    case PhoneAddress(p) =>
      c.notifier == SmsNotificator && Present(u.phoneNumber) && u.phoneNumber.value == p
    case TelegramAddress(t) =>
      c.notifier == TelegramNotificator && Present(u.telegramId) && u.telegramId.value == t
  }

  /**
   The candidate list: exactly one candidate per present contact field, in
   priority order, each pairing a notifier with the address kind it accepts.
   */
  function Candidates(u: User): (r: seq<Candidate>)
    ensures forall c :: c in r <==> IsCandidateOf(u, c)
    ensures forall i, j :: 0 <= i < j < |r| ==> Rank(r[i].address) < Rank(r[j].address)
    ensures forall i :: 0 <= i < |r| ==> Accepts(r[i].notifier, r[i].address)
    ensures |r| <= 3
  {
    (if Present(u.email) then [Candidate(EmailNotificator, EmailAddress(u.email.value))] else [])
    + (if Present(u.phoneNumber) then [Candidate(SmsNotificator, PhoneAddress(u.phoneNumber.value))] else [])
    + (if Present(u.telegramId) then [Candidate(TelegramNotificator, TelegramAddress(u.telegramId.value))] else [])
  }

  /** The result of trying candidates in turn: the verdict, one retry run per candidate tried, and the oracle left. */
  datatype Fallback = Fallback(ok: bool, trace: seq<RetryOutcome>, rest: seq<bool>)

  /** The oracle as the `i`-th retry run of `trace` found it. */
  function OracleBefore(net: seq<bool>, trace: seq<RetryOutcome>, i: nat): seq<bool>
    requires i <= |trace|
  {
    if i == 0 then net else trace[i - 1].rest
  }

  /**
   The loop over the candidate list: each candidate gets a retry run with the
   default retry count on the oracle its predecessor left, and the first
   success ends the loop.
   */
  function TryCandidates(cs: seq<Candidate>, m: Message, net: seq<bool>): Fallback
    decreases |cs|
  {
    if |cs| == 0 then Fallback(false, [], net)
    else
      var head := SendWithRetry(cs[0].notifier, cs[0].address, m, DefaultMaxRetries, net);
      if head.ok then Fallback(true, [head], head.rest)
      else
        var tail := TryCandidates(cs[1..], m, head.rest);
        Fallback(tail.ok, [head] + tail.trace, tail.rest)
  }

  /**
   `r` is a fallback run over `cs` on the oracle `net`: candidate `i` got the
   retry run its own notifier and address produce on the oracle the previous
   runs left; every run but the last failed; the loop succeeded iff the last
   run did; and a failed loop tried every candidate.
   */
  predicate IsFallbackRun(cs: seq<Candidate>, m: Message, net: seq<bool>, r: Fallback)
  {
    && |r.trace| <= |cs|
    && (r.ok <==> |r.trace| > 0 && r.trace[|r.trace| - 1].ok)
    && (forall i :: 0 <= i < |r.trace| - 1 ==> !r.trace[i].ok)
    && (!r.ok ==> |r.trace| == |cs|)
    && (forall i {:trigger r.trace[i], cs[i]} :: 0 <= i < |r.trace| ==>
          r.trace[i] == SendWithRetry(cs[i].notifier, cs[i].address, m, DefaultMaxRetries, OracleBefore(net, r.trace, i)))
    && r.rest == OracleBefore(net, r.trace, |r.trace|)
  }

  /** The result of one dispatch: verdict, new store, statuses written, retry runs, oracle left. */
  datatype Dispatch = Dispatch(
    ok: bool,
    store: Store,
    writes: seq<JobStatus>,
    trace: seq<RetryOutcome>,
    rest: seq<bool>)

  /** Records `status` for the job when a job id was given (a non-empty string); otherwise writes nothing. */
  function WriteStatus(s: Store, jobId: string, status: JobStatus): (Store, seq<JobStatus>)
  {
    if jobId != "" then (UpdateJobStatus(s, jobId, status), [status]) else (s, [])
  }

  /**
   One dispatch for `userId`. An unknown user fails without trying any
   notifier. Otherwise the dispatch is a fallback run over the user's
   candidates: first success stops, and the verdict is that of the last run. Either way,
   with a job id exactly one terminal status is written, SUCCESS iff the
   dispatch succeeded; without one the store is left as it was.
   */
  function SendMultiserviceNotify(s: Store, userId: string, m: Message, jobId: string, net: seq<bool>): (r: Dispatch)
    ensures r.store.users == s.users && r.store.jobs.Keys == s.jobs.Keys
    ensures userId !in s.users ==>
      && !r.ok && r.trace == [] && r.rest == net
      && r.writes == (if jobId != "" then [Failed] else [])
    ensures userId in s.users ==>
      IsFallbackRun(Candidates(s.users[userId]), m, net, Fallback(r.ok, r.trace, r.rest))
    ensures userId in s.users ==>
      && |r.trace| <= |Candidates(s.users[userId])|
      && (r.ok <==> exists i :: 0 <= i < |r.trace| && r.trace[i].ok)
      && (!r.ok ==> |r.trace| == |Candidates(s.users[userId])|)
    ensures jobId == "" ==> r.writes == [] && r.store == s
    ensures jobId != "" ==>
      && |r.writes| == 1
      && r.writes[0] != Pending
      && (r.ok <==> r.writes[0] == Success)
      && r.store == UpdateJobStatus(s, jobId, r.writes[0])
  {
    match GetUser(s, userId)
    case None =>
      var (s', writes) := WriteStatus(s, jobId, Failed);
      Dispatch(false, s', writes, [], net)
    case Some(u) =>
      TryCandidatesIsFallbackRun(Candidates(u), m, net);
      var run := TryCandidates(Candidates(u), m, net);
      if run.ok then
        assert run.trace[|run.trace| - 1].ok;
        var (s', writes) := WriteStatus(s, jobId, Success);
        Dispatch(true, s', writes, run.trace, run.rest)
      else
        var (s', writes) := WriteStatus(s, jobId, Failed);
        Dispatch(false, s', writes, run.trace, run.rest)
  }

  /** Total send calls over a sequence of retry runs. */
  function TotalAttempts(trace: seq<RetryOutcome>): nat
  {
    if |trace| == 0 then 0 else trace[0].attempts + TotalAttempts(trace[1..])
  }

  // ---------------------------------------------------------------------------
  // Proofs

  /** A failed run on the first candidate followed by a fallback run over the rest is a fallback run over all. */
  lemma ConsFallbackRun(cs: seq<Candidate>, m: Message, net: seq<bool>, head: RetryOutcome, tail: Fallback)
    requires |cs| > 0
    requires head == SendWithRetry(cs[0].notifier, cs[0].address, m, DefaultMaxRetries, net)
    requires !head.ok
    requires IsFallbackRun(cs[1..], m, head.rest, tail)
    ensures IsFallbackRun(cs, m, net, Fallback(tail.ok, [head] + tail.trace, tail.rest))
  {
    var trace := [head] + tail.trace;
    var r := Fallback(tail.ok, trace, tail.rest);
    assert forall i {:trigger trace[i], cs[i]} :: 0 <= i < |trace| ==>
      trace[i] == SendWithRetry(cs[i].notifier, cs[i].address, m, DefaultMaxRetries, OracleBefore(net, trace, i))
    by {
      forall i | 0 <= i < |trace|
        ensures trace[i] == SendWithRetry(cs[i].notifier, cs[i].address, m, DefaultMaxRetries, OracleBefore(net, trace, i))
      {
        if i > 0 {
          assert trace[i] == tail.trace[i - 1];
          assert cs[i] == cs[1..][i - 1];
          assert OracleBefore(net, trace, i) == OracleBefore(head.rest, tail.trace, i - 1);
        }
      }
    }
    assert forall i :: 0 <= i < |trace| - 1 ==> !trace[i].ok by {
      forall i | 0 <= i < |trace| - 1
        ensures !trace[i].ok
      {
        if i > 0 {
          assert trace[i] == tail.trace[i - 1];
        }
      }
    }
    assert r.ok <==> |trace| > 0 && trace[|trace| - 1].ok by {
      if |tail.trace| > 0 {
        assert trace[|trace| - 1] == tail.trace[|tail.trace| - 1];
      }
    }
    assert r.rest == OracleBefore(net, trace, |trace|) by {
      if |tail.trace| > 0 {
        assert trace[|trace| - 1] == tail.trace[|tail.trace| - 1];
      }
    }
  }

  /**
   First success stops, fallback only after failure: the candidate loop
   produces a fallback run in the sense above.
   */
  lemma {:induction false} TryCandidatesIsFallbackRun(cs: seq<Candidate>, m: Message, net: seq<bool>)
    ensures IsFallbackRun(cs, m, net, TryCandidates(cs, m, net))
    decreases |cs|
  {
    if |cs| > 0 {
      var head := SendWithRetry(cs[0].notifier, cs[0].address, m, DefaultMaxRetries, net);
      if !head.ok {
        TryCandidatesIsFallbackRun(cs[1..], m, head.rest);
        ConsFallbackRun(cs, m, net, head, TryCandidates(cs[1..], m, head.rest));
      }
    }
  }

  lemma {:induction false} TotalAttemptsBound(trace: seq<RetryOutcome>, bound: nat)
    requires forall i :: 0 <= i < |trace| ==> trace[i].attempts <= bound
    ensures TotalAttempts(trace) <= |trace| * bound
    decreases |trace|
  {
    if |trace| > 0 {
      TotalAttemptsBound(trace[1..], bound);
    }
  }

  /** Splitting off the first run of a trace. */
  lemma TotalAttemptsCons(head: RetryOutcome, tail: seq<RetryOutcome>)
    ensures TotalAttempts([head] + tail) == head.attempts + TotalAttempts(tail)
  {
  }

  /** Every retry run in a fallback run stays within the default budget of four calls. */
  lemma FallbackRunAttempts(cs: seq<Candidate>, m: Message, net: seq<bool>, r: Fallback)
    requires IsFallbackRun(cs, m, net, r)
    ensures TotalAttempts(r.trace) <= RetryBudget(DefaultMaxRetries) * |cs|
  {
    forall i | 0 <= i < |r.trace|
      ensures r.trace[i].attempts <= RetryBudget(DefaultMaxRetries)
    {
      assert r.trace[i] == SendWithRetry(cs[i].notifier, cs[i].address, m, DefaultMaxRetries, OracleBefore(net, r.trace, i));
      SendWithRetryIsRetryRun(cs[i].notifier, cs[i].address, m, DefaultMaxRetries, OracleBefore(net, r.trace, i));
    }
    TotalAttemptsBound(r.trace, RetryBudget(DefaultMaxRetries));
  }

  /** Drawing `j` outcomes and then `k` more is drawing `j + k`. */
  lemma SkipSkip(net: seq<bool>, j: nat, k: nat)
    ensures Skip(Skip(net, j), k) == Skip(net, j + k)
  {
  }

  /**
   When every candidate's notifier accepts its address, every call of the
   loop draws one outcome from the oracle: what is left is the oracle minus
   as many outcomes as calls were made.
   */
  lemma {:induction false} TryCandidatesDrawsPerCall(cs: seq<Candidate>, m: Message, net: seq<bool>)
    requires forall i :: 0 <= i < |cs| ==> Accepts(cs[i].notifier, cs[i].address)
    ensures var r := TryCandidates(cs, m, net);
      r.rest == Skip(net, TotalAttempts(r.trace))
    decreases |cs|
  {
    if |cs| > 0 {
      var head := SendWithRetry(cs[0].notifier, cs[0].address, m, DefaultMaxRetries, net);
      SendWithRetryIsRetryRun(cs[0].notifier, cs[0].address, m, DefaultMaxRetries, net);
      if head.ok {
        TotalAttemptsCons(head, []);
      } else {
        var tail := TryCandidates(cs[1..], m, head.rest);
        TryCandidatesDrawsPerCall(cs[1..], m, head.rest);
        TotalAttemptsCons(head, tail.trace);
        SkipSkip(net, head.attempts, TotalAttempts(tail.trace));
      }
    }
  }

  /**
   A dispatch for a known user makes at most four calls per present contact
   field, and, since the dispatcher only pairs a notifier with an address it
   accepts, every one of those calls draws an outcome from the network.
   */
  lemma DispatchAttempts(s: Store, userId: string, m: Message, jobId: string, net: seq<bool>)
    requires userId in s.users
    ensures var r := SendMultiserviceNotify(s, userId, m, jobId, net);
      && TotalAttempts(r.trace) <= 4 * |Candidates(s.users[userId])|
      && r.rest == Skip(net, TotalAttempts(r.trace))
  {
    var cs := Candidates(s.users[userId]);
    TryCandidatesIsFallbackRun(cs, m, net);
    FallbackRunAttempts(cs, m, net, TryCandidates(cs, m, net));
    TryCandidatesDrawsPerCall(cs, m, net);
  }

  /** A user without any present contact field is a failed dispatch that calls no notifier. */
  lemma NoAddressFails(s: Store, userId: string, m: Message, jobId: string, net: seq<bool>)
    requires userId in s.users
    requires !Present(s.users[userId].email)
    requires !Present(s.users[userId].phoneNumber)
    requires !Present(s.users[userId].telegramId)
    ensures var r := SendMultiserviceNotify(s, userId, m, jobId, net);
      && !r.ok && r.trace == [] && r.rest == net
      && (jobId != "" ==> r.writes == [Failed])
  {
  }

  /**
   The lifecycle of one request: the boundary creates the job as PENDING, and
   the dispatch then leaves it with its creation time and a terminal status,
   SUCCESS iff the dispatch succeeded, while every other job keeps what it had.
   */
  lemma RequestLifecycle(s: Store, userId: string, m: Message, jobId: string, now: Timestamp, net: seq<bool>)
    requires jobId != ""
    ensures var created := CreateJob(s, jobId, Job(now, Pending));
      var r := SendMultiserviceNotify(created, userId, m, jobId, net);
      && GetJob(created, jobId) == Some(Job(now, Pending))
      && GetJob(r.store, jobId) == Some(Job(now, if r.ok then Success else Failed))
      && (forall other :: other != jobId ==> GetJob(r.store, other) == GetJob(s, other))
  {
  }

  /**
   Four failed outcomes exhaust the first candidate's retries; the next
   outcome, a success, ends the loop on the second candidate's first call.
   */
  lemma FailThenSucceed(cs: seq<Candidate>, m: Message, net: seq<bool>, after: seq<bool>)
    requires 2 <= |cs|
    requires Accepts(cs[0].notifier, cs[0].address) && Accepts(cs[1].notifier, cs[1].address)
    requires net == [false, false, false, false] + after && |after| > 0 && after[0]
    ensures var r := TryCandidates(cs, m, net);
      && r.ok && |r.trace| == 2 && r.trace[0].attempts == 4 && r.trace[1].attempts == 1
      && r.rest == after[1..]
  {
  }

  /**
   Email fails every retry and the phone succeeds on its first call: the
   dispatch succeeds through the phone and never tries Telegram.
   */
  lemma EmailFailsPhoneSucceeds(s: Store, userId: string, m: Message, jobId: string, rest: seq<bool>)
    requires userId in s.users
    requires Present(s.users[userId].email)
    requires Present(s.users[userId].phoneNumber)
    requires Present(s.users[userId].telegramId)
    requires jobId != ""
    ensures var r := SendMultiserviceNotify(s, userId, m, jobId, [false, false, false, false, true] + rest);
      && r.ok && r.writes == [Success]
      && |r.trace| == 2 && r.trace[0].attempts == 4 && r.trace[1].attempts == 1
      && Candidates(s.users[userId])[0].notifier == EmailNotificator
      && Candidates(s.users[userId])[1].notifier == SmsNotificator
      && |Candidates(s.users[userId])| == 3
      && r.rest == rest
  {
    var cs := Candidates(s.users[userId]);
    var net := [false, false, false, false, true] + rest;
    assert cs[0].notifier == EmailNotificator && cs[0].address.EmailAddress?;
    assert cs[1].notifier == SmsNotificator && cs[1].address.PhoneAddress?;
    FailThenSucceed(cs, m, net, [true] + rest);
  }

  /**
   Only an email address, and the network fails the first four transmissions,
   whatever comes after: FAILED after exactly four email calls and four reports.
   */
  lemma EmailOnlyAlwaysFails(s: Store, userId: string, m: Message, jobId: string, net: seq<bool>)
    requires userId in s.users
    requires Present(s.users[userId].email)
    requires !Present(s.users[userId].phoneNumber)
    requires !Present(s.users[userId].telegramId)
    requires jobId != ""
    requires forall k :: 0 <= k < 4 ==> !NthOutcome(net, k)
    ensures var r := SendMultiserviceNotify(s, userId, m, jobId, net);
      && !r.ok && r.writes == [Failed]
      && |r.trace| == 1 && r.trace[0].attempts == 4 && r.trace[0].reports == 4
      && Candidates(s.users[userId])[0].notifier == EmailNotificator
  {
    var cs := Candidates(s.users[userId]);
    var c := Candidate(EmailNotificator, EmailAddress(s.users[userId].email.value));
    assert cs == [c];
    SendWithRetryIsRetryRun(c.notifier, c.address, m, DefaultMaxRetries, net);
    assert !Succeeds(c.notifier, c.address, net, 0);
    assert !Succeeds(c.notifier, c.address, net, 1);
    assert !Succeeds(c.notifier, c.address, net, 2);
    assert !Succeeds(c.notifier, c.address, net, 3);
    assert cs[1..] == [];
  }

  /**
   Phone and Telegram only; the phone fails every retry and Telegram succeeds
   on its first call: SUCCESS, with four SMS calls and one Telegram call.
   */
  lemma PhoneFailsTelegramSucceeds(s: Store, userId: string, m: Message, jobId: string)
    requires userId in s.users
    requires !Present(s.users[userId].email)
    requires Present(s.users[userId].phoneNumber)
    requires Present(s.users[userId].telegramId)
    requires jobId != ""
    ensures var r := SendMultiserviceNotify(s, userId, m, jobId, [false, false, false, false, true]);
      && r.ok && r.writes == [Success]
      && |r.trace| == 2 && r.trace[0].attempts == 4 && r.trace[1].attempts == 1
      && Candidates(s.users[userId])[0].notifier == SmsNotificator
      && Candidates(s.users[userId])[1].notifier == TelegramNotificator
  {
    var cs := Candidates(s.users[userId]);
    assert cs[0].notifier == SmsNotificator && cs[0].address.PhoneAddress?;
    assert cs[1].notifier == TelegramNotificator && cs[1].address.TelegramAddress?;
    FailThenSucceed(cs, m, [false, false, false, false, true], [true]);
  }

  /** The demo users: the first is tried by email, then SMS; the second by Telegram only. */
  lemma InitialUsersCandidates(now: Timestamp)
    ensures Candidates(Initial(now).users["user_1"])
         == [Candidate(EmailNotificator, EmailAddress("ivan@gmail.com")),
             Candidate(SmsNotificator, PhoneAddress("+79001234567"))]
    ensures Candidates(Initial(now).users["user_2"])
         == [Candidate(TelegramNotificator, TelegramAddress("987654321"))]
  {
  }
}
