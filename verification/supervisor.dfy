/**
 * The single job slot of bot.py: the globals CURRENT_TASK, CURRENT_OWNER_ID
 * and CURRENT_ORIGIN_CHAT_ID, written by `start_download`, by the `finally`
 * of its `task`, and by `cancel`.
 *
 * Each write is a step function on `Slot`; `JobSlot` is the mutable slot
 * whose methods are proved against those functions. Besides the three
 * globals, a `Slot` records the jobs whose `finally` has not run yet
 * (`live`) and how many tasks were created (`issued`, so every task has a
 * fresh identity). The lemmas prove mutual exclusion for the steps as the
 * bot takes them one at a time, bound the running jobs once `cancel` is
 * used, and exhibit the orders of writes in which the slot is not exclusive.
 */
module Supervisor {
  import opened Wrappers

  type UserId = int
  type ChatId = int
  type JobId = nat

  datatype Slot = Slot(task: Option<JobId>, owner: Option<UserId>, origin: Option<ChatId>,
                       live: set<JobId>, issued: nat)

  /** The slot at start-up: all three globals are None and no task exists. */
  const Idle: Slot := Slot(None, None, None, {}, 0)

  /** Every job that has not finished has an identity handed out before. */
  ghost predicate Fresh(s: Slot)
  {
    forall j :: j in s.live ==> j < s.issued
  }

  // ---------------------------------------------------------------------
  // The writes to the slot, as the code makes them

  /**
   * `start_download` up to its first `await`: when no task is set, the
   * caller becomes owner and its chat the origin; the asyncio task is not set yet.
   */
  function ClaimStep(s: Slot, user: UserId, chat: ChatId): (bool, Slot)
  {
    if s.task.Some? then (false, s)
    else (true, s.(owner := Some(user), origin := Some(chat)))
  }

  /** `CURRENT_TASK = asyncio.create_task(task())`: a new task becomes the current one. */
  function LaunchStep(s: Slot): (JobId, Slot)
  {
    (s.issued, s.(task := Some(s.issued), live := s.live + {s.issued}, issued := s.issued + 1))
  }

  /** `start_download` with nothing run between its busy test and the creation of the asyncio task. */
  function AcquireStep(s: Slot, user: UserId, chat: ChatId): (bool, Slot)
  {
    var (granted, claimed) := ClaimStep(s, user, chat);
    if granted then (true, LaunchStep(claimed).1) else (false, s)
  }

  /** The `finally` of job `job`: all three globals are cleared, whichever job they describe. */
  function FinishStep(s: Slot, job: JobId): Slot
  {
    s.(task := None, owner := None, origin := None, live := s.live - {job})
  }

  /** `cancel`: only the owner of a current task clears task and owner; the origin is kept. */
  function CancelStep(s: Slot, requester: UserId): (bool, Slot)
  {
    if s.task.Some? && s.owner == Some(requester) then (true, s.(task := None, owner := None))
    else (false, s)
  }

  // ---------------------------------------------------------------------
  // Sequences of events, as the event loop may deliver them

  datatype Event =
    | Start(user: UserId, chat: ChatId)   // a `start_download` run to its end
    | Finished(job: JobId)                // the `finally` of a job
    | CancelBy(user: UserId)              // a /cancel command

  /** One event; a job's `finally` runs only once, so finishing a job that is not live does nothing. */
  function Apply(s: Slot, e: Event): Slot
  {
    match e
    case Start(user, chat) => AcquireStep(s, user, chat).1
    case Finished(job) => if job in s.live then FinishStep(s, job) else s
    case CancelBy(user) => CancelStep(s, user).1
  }

  function Run(s: Slot, events: seq<Event>): Slot
    decreases |events|
  {
    if events == [] then s else Run(Apply(s, events[0]), events[1..])
  }

  function CancelCount(events: seq<Event>): nat
    decreases |events|
  {
    if events == [] then 0
    else (if events[0].CancelBy? then 1 else 0) + CancelCount(events[1..])
  }

  /**
   * The slot as a single-slot supervisor should keep it: either empty in all three fields
   * with no job running, or describing the one running job.
   */
  ghost predicate Exclusive(s: Slot)
  {
    Fresh(s) &&
    if s.task.None? then s.live == {} && s.owner.None? && s.origin.None?
    else s.live == {s.task.value} && s.owner.Some? && s.origin.Some?
  }

  /** Starting and finishing jobs one event at a time keeps the slot exclusive. */
  lemma StepKeepsExclusive(s: Slot, e: Event)
    requires Exclusive(s) && !e.CancelBy?
    ensures Exclusive(Apply(s, e))
  {
  }

  /**
   * Mutual exclusion for the sequential steps: without /cancel, at most one
   * job has not finished, and the slot describes it.
   */
  lemma {:induction false} ExclusiveWithoutCancel(s: Slot, events: seq<Event>)
    requires Exclusive(s) && CancelCount(events) == 0
    ensures Exclusive(Run(s, events)) && |Run(s, events).live| <= 1
    decreases |events|
  {
    if events != [] {
      StepKeepsExclusive(s, events[0]);
      ExclusiveWithoutCancel(Apply(s, events[0]), events[1..]);
    } else {
      assert Run(s, events) == s;
      if s.task.Some? {
        assert s.live == {s.task.value};
      }
    }
  }

  ghost predicate WithinBound(s: Slot, cancels: nat)
  {
    Fresh(s) && |s.live| <= (if s.task.Some? then cancels + 1 else cancels)
  }

  /**
   * What the sequential steps do guarantee once /cancel is used: every
   * cancel can leave one more job running, and nothing else can.
   */
  lemma {:induction false} LiveJobsBoundedByCancels(s: Slot, cancels: nat, events: seq<Event>)
    requires WithinBound(s, cancels)
    ensures WithinBound(Run(s, events), cancels + CancelCount(events))
    decreases |events|
  {
    if events != [] {
      var e := events[0];
      var s' := Apply(s, e);
      var c' := cancels + (if e.CancelBy? then 1 else 0);
      match e {
        case Start(user, chat) =>
          if s.task.None? {
            assert s.issued !in s.live;
            assert s'.live == s.live + {s.issued};
          }
        case Finished(job) =>
          if job in s.live {
            assert |s'.live| == |s.live| - 1;
          }
        case CancelBy(user) =>
      }
      assert WithinBound(s', c');
      LiveJobsBoundedByCancels(s', c', events[1..]);
    }
  }

  /** From start-up, the number of jobs running at once is at most one plus the number of cancels. */
  lemma RunningJobsFromIdle(events: seq<Event>)
    ensures |Run(Idle, events).live| <= 1 + CancelCount(events)
  {
    LiveJobsBoundedByCancels(Idle, 0, events);
  }

  // ---------------------------------------------------------------------
  // Orders of the slot writes in which the slot is not kept exclusive
  //
  // A job's `finally` runs only when the cancelled task resumes. These traces
  // need that job to still be unwinding when the next `start_download` runs;
  // `cancel` itself awaits its reply right after `task.cancel()`, which
  // usually lets the cancelled task resume first.

  /**
   * After the owner cancels, the cancelled job has not run its `finally`
   * yet, the origin is still set, and a new download is granted: two jobs run.
   */
  lemma CancelThenRestartRunsTwo()
    ensures Run(Idle, [Start(1, 10), CancelBy(1)]) == Slot(None, None, Some(10), {0}, 1)
    ensures Run(Idle, [Start(1, 10), CancelBy(1), Start(2, 20)]) == Slot(Some(1), Some(2), Some(20), {0, 1}, 2)
  {
  }

  /**
   * The cancelled job's `finally` then clears the slot of the newer job:
   * its owner can no longer cancel it, and a third job is granted beside it.
   */
  lemma StaleFinishClearsNewerJob()
    ensures Run(Idle, [Start(1, 10), CancelBy(1), Start(2, 20), Finished(0)]) == Slot(None, None, None, {1}, 2)
    ensures !CancelStep(Run(Idle, [Start(1, 10), CancelBy(1), Start(2, 20), Finished(0)]), 2).0
    ensures Run(Idle, [Start(1, 10), CancelBy(1), Start(2, 20), Finished(0), Start(3, 30)]).live == {1, 2}
  {
  }

  /**
   * If the busy test (lines 144-149) and the creation of the asyncio task
   * (line 206) were interleaved with another caller's, both callers would be
   * granted and the slot would name the second as owner of both tasks. The
   * `await send_text(...)` between them does not suspend on the one path that
   * reaches it (it fails on the callback update and returns None at once),
   * so bot.py as written does not produce this order.
   */
  lemma InterleavedClaimsBothGranted()
    ensures ClaimStep(Idle, 1, 10).0 && ClaimStep(ClaimStep(Idle, 1, 10).1, 2, 20).0
    ensures LaunchStep(LaunchStep(ClaimStep(ClaimStep(Idle, 1, 10).1, 2, 20).1).1).1
            == Slot(Some(1), Some(2), Some(20), {0, 1}, 2)
  {
  }

  /** Busy tests of `n` callers, all made before any of them creates its task; returns how many passed. */
  function ClaimAll(s: Slot, callers: seq<(UserId, ChatId)>): (nat, Slot)
    decreases |callers|
  {
    if callers == [] then (0, s)
    else
      var (granted, s') := ClaimStep(s, callers[0].0, callers[0].1);
      var (n, s'') := ClaimAll(s', callers[1..]);
      ((if granted then 1 else 0) + n, s'')
  }

  /** With the test and the set split, every one of `n` racing callers is granted, not one. */
  lemma {:induction false} RacingClaimsAllGranted(s: Slot, callers: seq<(UserId, ChatId)>)
    requires s.task.None?
    ensures ClaimAll(s, callers).0 == |callers| && ClaimAll(s, callers).1.task.None?
    decreases |callers|
  {
    if callers != [] {
      RacingClaimsAllGranted(ClaimStep(s, callers[0].0, callers[0].1).1, callers[1..]);
    }
  }

  /** `n` complete `start_download` runs one after another; returns how many were granted. */
  function AcquireAll(s: Slot, callers: seq<(UserId, ChatId)>): (nat, Slot)
    decreases |callers|
  {
    if callers == [] then (0, s)
    else
      var (granted, s') := AcquireStep(s, callers[0].0, callers[0].1);
      var (n, s'') := AcquireAll(s', callers[1..]);
      ((if granted then 1 else 0) + n, s'')
  }

  lemma {:induction false} BusyGrantsNone(s: Slot, callers: seq<(UserId, ChatId)>)
    requires s.task.Some?
    ensures AcquireAll(s, callers) == (0, s)
    decreases |callers|
  {
    if callers != [] {
      BusyGrantsNone(s, callers[1..]);
    }
  }

  /** When each acquisition runs to its end before the next, of `n >= 1` callers on a free slot exactly one is granted. */
  lemma AtomicAcquiresGrantOne(s: Slot, callers: seq<(UserId, ChatId)>)
    requires s.task.None? && |callers| >= 1
    ensures AcquireAll(s, callers).0 == 1
  {
    BusyGrantsNone(AcquireStep(s, callers[0].0, callers[0].1).1, callers[1..]);
  }

  // ---------------------------------------------------------------------
  // The slot as the program holds it

  class JobSlot {
    var task: Option<JobId>
    var owner: Option<UserId>
    var origin: Option<ChatId>
    var issued: nat
    ghost var live: set<JobId>

    ghost function State(): Slot
      reads this
    {
      Slot(task, owner, origin, live, issued)
    }

    ghost predicate Valid()
      reads this
    {
      Fresh(State())
    }

    constructor()
      ensures Valid() && State() == Idle
    {
      task, owner, origin, issued := None, None, None, 0;
      live := {};
    }

    /** Lines 144-149: the busy test, then owner and origin are written. */
    method Claim(user: UserId, chat: ChatId) returns (granted: bool)
      requires Valid()
      modifies this
      ensures Valid() && (granted, State()) == ClaimStep(old(State()), user, chat)
      ensures granted <==> old(task).None?
      ensures granted ==> owner == Some(user) && origin == Some(chat) && task == old(task) && live == old(live)
      ensures !granted ==> State() == old(State())
    {
      granted := task.None?;
      if granted {
        owner, origin := Some(user), Some(chat);
      }
    }

    /** Line 206: the new task becomes the current one. */
    method Launch() returns (job: JobId)
      requires Valid()
      modifies this
      ensures Valid() && (job, State()) == LaunchStep(old(State()))
      ensures job !in old(live) && task == Some(job) && live == old(live) + {job}
      ensures owner == old(owner) && origin == old(origin)
    {
      job := issued;
      task := Some(job);
      live := live + {job};
      issued := issued + 1;
    }

    /** Lines 142-152 and 206 run without interruption: the sequential acquisition. */
    method Acquire(user: UserId, chat: ChatId) returns (job: Option<JobId>)
      requires Valid()
      modifies this
      ensures Valid() && (job.Some?, State()) == AcquireStep(old(State()), user, chat)
      ensures job.Some? <==> old(task).None?
      ensures job.None? ==> State() == old(State())
      ensures job.Some? ==> task == job && owner == Some(user) && origin == Some(chat)
                            && job.value !in old(live) && live == old(live) + {job.value}
    {
      var granted := Claim(user, chat);
      if granted {
        var j := Launch();
        job := Some(j);
      } else {
        job := None;
      }
    }

    /** Lines 201-204: the `finally` of job `job` clears all three globals, whatever they describe. */
    method Finish(job: JobId)
      requires Valid() && job in live
      modifies this
      ensures Valid() && State() == FinishStep(old(State()), job)
      ensures task.None? && owner.None? && origin.None? && live == old(live) - {job}
    {
      task, owner, origin := None, None, None;
      live := live - {job};
    }

    /** Lines 237-240: only the owner of a current task clears task and owner; the origin stays. */
    method Cancel(requester: UserId) returns (cancelled: bool)
      requires Valid()
      modifies this
      ensures Valid() && (cancelled, State()) == CancelStep(old(State()), requester)
      ensures cancelled <==> old(task).Some? && old(owner) == Some(requester)
      ensures cancelled ==> task.None? && owner.None? && origin == old(origin) && live == old(live)
      ensures !cancelled ==> State() == old(State())
    {
      cancelled := task.Some? && owner == Some(requester);
      if cancelled {
        task, owner := None, None;
      }
    }
  }
}
