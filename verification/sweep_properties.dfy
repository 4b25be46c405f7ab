/** What the daily sweep guarantees: every snapshot item is handled exactly
    once, in windows that run in list order, each followed by a sleep; the
    phase-specific dispatch rules; and the sequencing, authorisation and error
    handling of the endpoint. */
module SweepProperties {
  import opened Wrappers
  import opened Seqs
  import opened Batching
  import opened InternalRequest
  import opened DailyCron

  // ---------------------------------------------------------------------------
  // Windows and the batch loop

  lemma {:induction false} DispatchesAppend<T>(a: seq<T>, b: seq<T>, run: T -> ItemRun)
    ensures Dispatches(a + b, run) == Dispatches(a, run) + Dispatches(b, run)
  {
    if a == [] {
      assert a + b == b;
    } else {
      assert (a + b)[0] == a[0];
      assert (a + b)[1..] == a[1..] + b;
      DispatchesAppend(a[1..], b, run);
    }
  }

  /** `allSettled` never lets one item abort its window: fulfilled plus
      rejected is the window's size */
  lemma {:induction false} WindowSettlesEveryItem<T>(batch: seq<T>, run: T -> ItemRun)
    ensures WindowEvent(batch, run).fulfilled + WindowEvent(batch, run).rejected == |batch|
  {
    if batch != [] {
      WindowSettlesEveryItem(batch[1..], run);
    }
  }

  /** The trace observers add up over concatenated traces */
  lemma {:induction false} ObserversAppend(a: seq<Event>, b: seq<Event>)
    ensures DispatchedIn(a + b) == DispatchedIn(a) + DispatchedIn(b)
    ensures SleepsIn(a + b) == SleepsIn(a) + SleepsIn(b)
    ensures SettledIn(a + b) == SettledIn(a) + SettledIn(b)
  {
    if a == [] {
      assert a + b == b;
    } else {
      assert (a + b)[0] == a[0];
      assert (a + b)[1..] == a[1..] + b;
      ObserversAppend(a[1..], b);
    }
  }

  /** Window k of the loop is event 2k and the sleep after it is event 2k+1 */
  lemma {:induction false} StepsLayout<T>(ws: seq<seq<T>>, run: T -> ItemRun)
    ensures |Steps(ws, run)| == 2 * |ws|
    ensures forall k :: 0 <= k < |ws| ==>
      Steps(ws, run)[2 * k] == WindowEvent(ws[k], run) && Steps(ws, run)[2 * k + 1] == Sleep
  {
    if ws != [] {
      var rest := Steps(ws[1..], run);
      StepsLayout(ws[1..], run);
      var ev := [WindowEvent(ws[0], run), Sleep] + rest;
      assert Steps(ws, run) == ev;
      forall k | 0 <= k < |ws|
        ensures ev[2 * k] == WindowEvent(ws[k], run) && ev[2 * k + 1] == Sleep
      {
        if k > 0 {
          assert ev[2 * k] == rest[2 * (k - 1)];
          assert ev[2 * k + 1] == rest[2 * (k - 1) + 1];
          assert ws[k] == ws[1..][k - 1];
        }
      }
    }
  }

  /** Over all windows: one sleep per window, and the calls made and items
      settled are those of the windows' items put together */
  lemma {:induction false} StepsTotals<T>(ws: seq<seq<T>>, run: T -> ItemRun)
    ensures SleepsIn(Steps(ws, run)) == |ws|
    ensures DispatchedIn(Steps(ws, run)) == Dispatches(Flatten(ws), run)
    ensures SettledIn(Steps(ws, run)) == |Flatten(ws)|
  {
    if ws != [] {
      var head := [WindowEvent(ws[0], run), Sleep];
      StepsTotals(ws[1..], run);
      WindowSettlesEveryItem(ws[0], run);
      DispatchesAppend(ws[0], Flatten(ws[1..]), run);
      assert Steps(ws, run) == head + Steps(ws[1..], run);
      ObserversAppend(head, Steps(ws[1..], run));
      assert head[1..] == [Sleep] && [Sleep][1..] == [];
    }
  }

  /** The loop of a phase: one window per ceil(N / w), each followed by a sleep,
      every item dispatched and settled exactly once; an empty list gives an
      empty trace */
  lemma BatchLoopShape<T>(items: seq<T>, w: nat, run: T -> ItemRun)
    requires w >= 1
    ensures var ev, ws := BatchLoop(items, w, run), Windows(items, w);
      && |ev| == 2 * |ws|
      && (forall k :: 0 <= k < |ws| ==> ev[2 * k] == WindowEvent(ws[k], run) && ev[2 * k + 1] == Sleep)
      && SleepsIn(ev) == |ws|
      && |items| <= SleepsIn(ev) * w
      && (SleepsIn(ev) == 0 || (SleepsIn(ev) - 1) * w < |items|)
      && DispatchedIn(ev) == Dispatches(items, run)
      && SettledIn(ev) == |items|
      && (items == [] ==> ev == [])
  {
    StepsLayout(Windows(items, w), run);
    StepsTotals(Windows(items, w), run);
  }

  /** Every event of a loop is a window or a sleep; when no item can reject, no
      window reports a rejection */
  lemma BatchLoopEvents<T>(items: seq<T>, w: nat, run: T -> ItemRun)
    requires w >= 1
    ensures forall i :: 0 <= i < |BatchLoop(items, w, run)| ==>
      BatchLoop(items, w, run)[i].Window? || BatchLoop(items, w, run)[i].Sleep?
    ensures (forall x :: run(x).fulfilled) ==>
      forall i :: 0 <= i < |BatchLoop(items, w, run)| && BatchLoop(items, w, run)[i].Window? ==>
        BatchLoop(items, w, run)[i].rejected == 0
  {
    var ev, ws := BatchLoop(items, w, run), Windows(items, w);
    StepsLayout(ws, run);
    forall i | 0 <= i < |ev|
      ensures ev[i].Window? || ev[i].Sleep?
      ensures (forall x :: run(x).fulfilled) && ev[i].Window? ==> ev[i].rejected == 0
    {
      var k := i / 2;
      if i == 2 * k {
        assert ev[i] == WindowEvent(ws[k], run);
        if forall x :: run(x).fulfilled {
          NoneRejected(ws[k], run);
        }
      } else {
        assert i == 2 * k + 1;
      }
    }
  }

  /** Events that are neither windows nor sleeps */
  ghost predicate Quiet(events: seq<Event>) {
    forall i :: 0 <= i < |events| ==> !events[i].Window? && !events[i].Sleep?
  }

  lemma {:induction false} QuietObservesNothing(events: seq<Event>)
    requires Quiet(events)
    ensures DispatchedIn(events) == multiset{} && SleepsIn(events) == 0 && SettledIn(events) == 0
  {
    if events != [] {
      assert Quiet(events[1..]) by {
        forall i | 0 <= i < |events[1..]| ensures !events[1..][i].Window? && !events[1..][i].Sleep? {
          assert events[1..][i] == events[i + 1];
        }
      }
      QuietObservesNothing(events[1..]);
    }
  }

  /** A loop run after fetches, stops and captures: what the trace observes is
      the loop's own calls and sleeps, and every event after the prefix belongs
      to the loop */
  lemma LoopAfterPrefix<T>(head: seq<Event>, items: seq<T>, w: nat, run: T -> ItemRun)
    requires w >= 1 && Quiet(head)
    ensures var ev := head + BatchLoop(items, w, run);
      && DispatchedIn(ev) == Dispatches(items, run)
      && SleepsIn(ev) == |Windows(items, w)|
      && SettledIn(ev) == |items|
      && (forall i :: |head| <= i < |ev| ==> ev[i].Window? || ev[i].Sleep?)
      && ((forall x :: run(x).fulfilled) ==>
            forall i :: |head| <= i < |ev| && ev[i].Window? ==> ev[i].rejected == 0)
  {
    var loop := BatchLoop(items, w, run);
    var ev := head + loop;
    QuietObservesNothing(head);
    ObserversAppend(head, loop);
    BatchLoopShape(items, w, run);
    BatchLoopEvents(items, w, run);
    forall i | |head| <= i < |ev| ensures ev[i] == loop[i - |head|] {
    }
  }

  /** Items that always fulfil never count as rejected */
  lemma {:induction false} NoneRejected<T>(batch: seq<T>, run: T -> ItemRun)
    requires forall x :: run(x).fulfilled
    ensures WindowEvent(batch, run).rejected == 0
  {
    if batch != [] {
      NoneRejected(batch[1..], run);
    }
  }

  /** `BatchLoopShape` worked out for N = 12 and W = `BatchSize`: windows of 5,
      5 and 2, and three sleeps, one after each window including the last */
  lemma TwelveScheduledItems<T>(items: seq<T>, run: T -> ItemRun)
    requires |items| == 12
    ensures var ws := Windows(items, BatchSize);
      |ws| == 3 && |ws[0]| == 5 && |ws[1]| == 5 && |ws[2]| == 2
    ensures SleepsIn(BatchLoop(items, BatchSize, run)) == 3
  {
    var w3 := WindowsFrom(items, 5, 15);
    var w2 := WindowsFrom(items, 5, 10);
    var w1 := WindowsFrom(items, 5, 5);
    assert w3 == [];
    assert w2 == [items[10..12]] + w3;
    assert w1 == [items[5..10]] + w2;
    assert Windows(items, BatchSize) == [items[0..5]] + w1;
    BatchLoopShape(items, BatchSize, run);
  }

  /** When each item makes call `f(x)` exactly if `keep(x)`, the calls are
      `f` over the kept items */
  lemma {:induction false} DispatchesAsFilterMap<T(!new)>(items: seq<T>, run: T -> ItemRun, keep: T -> bool, f: T -> Dispatch)
    requires forall x :: x in items ==> run(x).dispatch == (if keep(x) then Some(f(x)) else None)
    ensures Dispatches(items, run) == multiset(Map(Filter(items, keep), f))
  {
    if items != [] {
      DispatchesAsFilterMap(items[1..], run, keep, f);
      assert items[0] in items;
      if keep(items[0]) {
        assert Filter(items, keep) == [items[0]] + Filter(items[1..], keep);
        assert Map(Filter(items, keep), f) == [f(items[0])] + Map(Filter(items[1..], keep), f);
      }
    }
  }

  /** A map over a duplicate-free list with an injective function holds each
      image once */
  lemma {:induction false} MapMultiplicity<T(!new), U>(s: seq<T>, f: T -> U, x: T)
    requires NoDuplicates(s)
    requires forall a, b :: f(a) == f(b) ==> a == b
    ensures multiset(Map(s, f))[f(x)] == if x in s then 1 else 0
  {
    if s != [] {
      assert Map(s, f) == [f(s[0])] + Map(s[1..], f);
      assert NoDuplicates(s[1..]) by {
        forall i, j | 0 <= i < j < |s[1..]| ensures s[1..][i] != s[1..][j] {
          assert s[1..][i] == s[i + 1] && s[1..][j] == s[j + 1];
        }
      }
      MapMultiplicity(s[1..], f, x);
      if x == s[0] {
        assert x !in s[1..] by {
          forall j | 0 <= j < |s[1..]| ensures s[1..][j] != x {
            assert s[1..][j] == s[j + 1];
          }
        }
      }
    }
  }

  /** Filtering keeps a list free of duplicates */
  lemma {:induction false} FilterNoDuplicates<T(!new)>(s: seq<T>, keep: T -> bool)
    requires NoDuplicates(s)
    ensures NoDuplicates(Filter(s, keep))
  {
    if s != [] {
      assert NoDuplicates(s[1..]) by {
        forall i, j | 0 <= i < j < |s[1..]| ensures s[1..][i] != s[1..][j] {
          assert s[1..][i] == s[i + 1] && s[1..][j] == s[j + 1];
        }
      }
      FilterNoDuplicates(s[1..], keep);
      if keep(s[0]) {
        var r := Filter(s, keep);
        var t := Filter(s[1..], keep);
        assert r == [s[0]] + t;
        assert s[0] !in s[1..] by {
          forall j | 0 <= j < |s[1..]| ensures s[1..][j] != s[0] {
            assert s[1..][j] == s[j + 1];
          }
        }
        forall i, j | 0 <= i < j < |r| ensures r[i] != r[j] {
          if i == 0 {
            assert r[j] == t[j - 1];
            assert r[j] in t;
          } else {
            assert r[i] == t[i - 1] && r[j] == t[j - 1];
          }
        }
      }
    }
  }

  // ---------------------------------------------------------------------------
  // Internal requests built by the sweep

  /** Every path the sweep builds starts with "process-", so it passes the
      guard and is sent to the base URL's internal API */
  lemma ScheduledPathAccepted(env: Env, c: ThreadChat)
    ensures ScheduledItem(env, c)
      == ItemRun(Some(Post(SentTo(env, ScheduledPath(c)))), env.fetchResolves(SentTo(env, ScheduledPath(c))))
  {
    assert ScheduledPath(c)[0] == 'p';
    PlainPathAccepted(env.appUrl, env.internalSecret, ScheduledPath(c));
  }

  lemma QueuePathAccepted(env: Env, u: string)
    ensures PostItem(env, QueuePath(u))
      == ItemRun(Some(Post(SentTo(env, QueuePath(u)))), env.fetchResolves(SentTo(env, QueuePath(u))))
  {
    assert QueuePath(u)[0] == 'p';
    PlainPathAccepted(env.appUrl, env.internalSecret, QueuePath(u));
  }

  /** Different owners get posts to different URLs */
  lemma QueuePostInjective(env: Env, u1: string, u2: string)
    ensures Post(SentTo(env, QueuePath(u1))) == Post(SentTo(env, QueuePath(u2))) ==> u1 == u2
  {
    if Post(SentTo(env, QueuePath(u1))) == Post(SentTo(env, QueuePath(u2))) {
      var k := |env.appUrl| + |InternalPrefix| + |"process-thread-queue/"|;
      assert u1 == SentTo(env, QueuePath(u1)).url[k..];
      assert u2 == SentTo(env, QueuePath(u2)).url[k..];
    }
  }

  // ---------------------------------------------------------------------------
  // Phases

  /** A failed stalled-thread query ends the phase with its error, before any
      stop or hibernation */
  lemma StalledPhaseQueryFails(env: Env)
    requires env.stalled.Failure?
    ensures StalledPhase(env) == PhaseResult([Fetch(StalledQuery)], Some(env.stalled.error))
  {
  }

  /** With no stalled threads the phase returns before stopping anything */
  lemma StalledPhaseEmpty(env: Env)
    requires env.stalled == Success([])
    ensures StalledPhase(env) == PhaseResult([Fetch(StalledQuery)], None)
  {
  }

  /** Otherwise all stalled threads are stopped in one call, before any
      hibernation, and if that call throws nothing is hibernated */
  lemma StalledPhaseStopsFirst(env: Env)
    requires env.stalled.Success? && env.stalled.value != []
    ensures var r, threads := StalledPhase(env), env.stalled.value;
      && |r.events| >= 2
      && r.events[0] == Fetch(StalledQuery)
      && r.events[1] == Stop(Map(threads, (t: StalledThread) => t.id))
      && (env.stopFailure.Some? ==> r == PhaseResult(r.events[..2], env.stopFailure))
      && (env.stopFailure.None? ==>
            r == PhaseResult(r.events[..2] + BatchLoop(threads, WideBatch, HibernateRunner(env)), None))
  {
  }

  /** After a successful stop, exactly the threads with a sandbox are
      hibernated, in windows of 10 that never reject, each followed by a sleep */
  lemma StalledPhaseHibernates(env: Env)
    requires env.stalled.Success? && env.stalled.value != [] && env.stopFailure.None?
    ensures var r, threads := StalledPhase(env), env.stalled.value;
      && r.thrown.None?
      && (forall i :: 2 <= i < |r.events| ==> r.events[i].Window? || r.events[i].Sleep?)
      && (forall i :: 2 <= i < |r.events| && r.events[i].Window? ==> r.events[i].rejected == 0)
      && DispatchedIn(r.events) == multiset(Map(Filter(threads, HasSandbox), HibernateCall))
      && SleepsIn(r.events) == |Windows(threads, WideBatch)|
  {
    var threads := env.stalled.value;
    StalledPhaseStopsFirst(env);
    var r := StalledPhase(env);
    LoopAfterPrefix(r.events[..2], threads, WideBatch, HibernateRunner(env));
    DispatchesAsFilterMap(threads, HibernateRunner(env), HasSandbox, HibernateCall);
  }

  /** Hibernation failures do not escape: the phase is the same whatever the
      hibernation calls do */
  lemma StalledPhaseIgnoresHibernationOutcome(env: Env, outcome: StalledThread -> bool)
    ensures StalledPhase(env) == StalledPhase(env.(hibernateSucceeds := outcome))
  {
    var other := env.(hibernateSucceeds := outcome);
    if env.stalled.Success? {
      StepsAgree(Windows(env.stalled.value, WideBatch), HibernateRunner(env), HibernateRunner(other));
    }
  }

  /** Runs that agree on every item give the same window ... */
  lemma {:induction false} WindowAgree<T>(batch: seq<T>, r1: T -> ItemRun, r2: T -> ItemRun)
    requires forall x :: r1(x) == r2(x)
    ensures WindowEvent(batch, r1) == WindowEvent(batch, r2)
  {
    if batch != [] {
      WindowAgree(batch[1..], r1, r2);
    }
  }

  /** ... and the same loop */
  lemma {:induction false} StepsAgree<T>(ws: seq<seq<T>>, r1: T -> ItemRun, r2: T -> ItemRun)
    requires forall x :: r1(x) == r2(x)
    ensures Steps(ws, r1) == Steps(ws, r2)
  {
    if ws != [] {
      WindowAgree(ws[0], r1, r2);
      StepsAgree(ws[1..], r1, r2);
    }
  }

  // ---------------------------------------------------------------------------
  // The other phases

  /** The scheduled phase posts every due chat once, to its own
      process-scheduled-task path, in windows of 5 each followed by a sleep; a
      failed post is counted and does not stop the phase */
  lemma ScheduledPhaseCalls(env: Env)
    ensures var r := ScheduledPhase(env);
      && |r.events| >= 1 && r.events[0] == Fetch(ScheduledQuery)
      && (env.scheduled.Failure? ==> r == PhaseResult([Fetch(ScheduledQuery)], Some(env.scheduled.error)))
      && (env.scheduled.Success? ==>
            && r.thrown.None?
            && DispatchedIn(r.events) == multiset(Map(env.scheduled.value, (c: ThreadChat) => Post(SentTo(env, ScheduledPath(c)))))
            && SleepsIn(r.events) == |Windows(env.scheduled.value, BatchSize)|
            && SettledIn(r.events) == |env.scheduled.value|)
  {
    if env.scheduled.Success? {
      var chats := env.scheduled.value;
      var run := (c: ThreadChat) => ScheduledItem(env, c);
      var f := (c: ThreadChat) => Post(SentTo(env, ScheduledPath(c)));
      forall c ensures run(c).dispatch == Some(f(c)) {
        ScheduledPathAccepted(env, c);
      }
      LoopAfterPrefix([Fetch(ScheduledQuery)], chats, BatchSize, run);
      DispatchesAsMap(chats, run, f);
    }
  }

  /** When every item makes call `f(x)`, the calls are `f` over the items */
  lemma {:induction false} DispatchesAsMap<T>(items: seq<T>, run: T -> ItemRun, f: T -> Dispatch)
    requires forall x :: run(x).dispatch == Some(f(x))
    ensures Dispatches(items, run) == multiset(Map(items, f))
  {
    if items != [] {
      DispatchesAsMap(items[1..], run, f);
      assert Map(items, f) == [f(items[0])] + Map(items[1..], f);
    }
  }

  /** An owner whose quota lookup succeeded with a value other than zero */
  predicate QuotaLeft(env: Env, u: string) {
    env.remaining(u).Success? && env.remaining(u).value != 0
  }

  /** The rate-limited drain: a capture only for a non-empty list, then one post
      to the owner's queue for exactly the owners with quota left; every owner
      settles, a failed lookup as a rejection */
  lemma RateLimitedDrainCalls(env: Env, users: seq<string>)
    ensures var ev := RateLimitedDrain(env, users);
      && (users == [] ==> ev == [])
      && (users != [] ==> ev[0] == Capture("cron_queue_processing", |users|, "other_rate_limit"))
      && DispatchedIn(ev) == multiset(Map(Filter(users, (u: string) => QuotaLeft(env, u)), (u: string) => Post(SentTo(env, QueuePath(u)))))
      && SleepsIn(ev) == |Windows(users, WideBatch)|
      && SettledIn(ev) == |users|
  {
    var run := (u: string) => RateLimitedItem(env, u);
    var keep := (u: string) => QuotaLeft(env, u);
    var f := (u: string) => Post(SentTo(env, QueuePath(u)));
    forall u | u in users ensures run(u).dispatch == (if keep(u) then Some(f(u)) else None) {
      QueuePathAccepted(env, u);
    }
    LoopAfterPrefix(CaptureIfAny(|users|, "cron_queue_processing", "other_rate_limit"), users, WideBatch, run);
    DispatchesAsFilterMap(users, run, keep, f);
    if users == [] {
      BatchLoopShape(users, WideBatch, run);
    }
  }

  /** The stuck-owner drain: a capture only for a non-empty list, then one post
      to every owner's queue */
  lemma StuckDrainCalls(env: Env, users: seq<string>)
    ensures var ev := StuckDrain(env, users);
      && (users == [] ==> ev == [])
      && (users != [] ==> ev[0] == Capture("cron_queue_stuck_users", |users|, "tasks_concurrency"))
      && DispatchedIn(ev) == multiset(Map(users, (u: string) => Post(SentTo(env, QueuePath(u)))))
      && SleepsIn(ev) == |Windows(users, WideBatch)|
      && SettledIn(ev) == |users|
  {
    var run := (u: string) => StuckItem(env, u);
    var f := (u: string) => Post(SentTo(env, QueuePath(u)));
    forall u ensures run(u).dispatch == Some(f(u)) {
      QueuePathAccepted(env, u);
    }
    LoopAfterPrefix(CaptureIfAny(|users|, "cron_queue_stuck_users", "tasks_concurrency"), users, WideBatch, run);
    DispatchesAsMap(users, run, f);
    if users == [] {
      BatchLoopShape(users, WideBatch, run);
    }
  }

  /** With owners listed once, each owner's queue is posted at most once by the
      rate-limited drain: exactly once if it has quota left */
  lemma RateLimitedOwnerPostedOnce(env: Env, users: seq<string>, u: string)
    requires NoDuplicates(users)
    ensures DispatchedIn(RateLimitedDrain(env, users))[Post(SentTo(env, QueuePath(u)))]
      == if u in users && QuotaLeft(env, u) then 1 else 0
  {
    var keep := (x: string) => QuotaLeft(env, x);
    var f := (x: string) => Post(SentTo(env, QueuePath(x)));
    RateLimitedDrainCalls(env, users);
    FilterNoDuplicates(users, keep);
    forall a, b | f(a) == f(b) ensures a == b {
      QueuePostInjective(env, a, b);
    }
    MapMultiplicity(Filter(users, keep), f, u);
  }

  /** A failed rate-limited-owner query ends the phase with its error, before
      any capture, post or stuck-owner query */
  lemma QueuedPhaseQueryFails(env: Env)
    requires env.rateLimited.Failure?
    ensures QueuedPhase(env) == PhaseResult([Fetch(RateLimitedQuery)], Some(env.rateLimited.error))
  {
  }

  /** Two drains around a fetch: the fetch sits right after the first drain,
      and the trace up to it observes what the first drain does */
  lemma {:induction false} AroundFetch(q1: Query, drain: seq<Event>, q2: Query, rest: seq<Event>)
    ensures var ev, k := [Fetch(q1)] + drain + [Fetch(q2)] + rest, 1 + |drain|;
      && ev[k] == Fetch(q2)
      && DispatchedIn(ev[..k]) == DispatchedIn(drain)
      && SleepsIn(ev[..k]) == SleepsIn(drain)
      && DispatchedIn(ev) == DispatchedIn(drain) + DispatchedIn(rest)
      && SleepsIn(ev) == SleepsIn(drain) + SleepsIn(rest)
  {
    var ev, k := [Fetch(q1)] + drain + [Fetch(q2)] + rest, 1 + |drain|;
    assert ev[..k] == [Fetch(q1)] + drain;
    assert ev == ([Fetch(q1)] + drain) + ([Fetch(q2)] + rest);
    assert Quiet([Fetch(q1)]) && Quiet([Fetch(q2)]);
    QuietObservesNothing([Fetch(q1)]);
    QuietObservesNothing([Fetch(q2)]);
    ObserversAppend([Fetch(q1)], drain);
    ObserversAppend([Fetch(q2)], rest);
    ObserversAppend([Fetch(q1)] + drain, [Fetch(q2)] + rest);
  }

  /** The queue phase drains the rate-limited owners completely before it even
      asks for the stuck ones; a failure of that second query leaves the first
      drain's posts made */
  lemma QueuedPhaseOrder(env: Env)
    requires env.rateLimited.Success?
    ensures var r, users := QueuedPhase(env), env.rateLimited.value;
      var posted := DispatchedIn(RateLimitedDrain(env, users));
      exists k :: 0 <= k < |r.events|
        && r.events[k] == Fetch(StuckQuery)
        && SleepsIn(r.events[..k]) == |Windows(users, WideBatch)|
        && DispatchedIn(r.events[..k]) == posted
        && (env.stuck.Failure? ==> r.thrown == Some(env.stuck.error) && DispatchedIn(r.events) == posted)
        && (env.stuck.Success? ==>
              && r.thrown.None?
              && DispatchedIn(r.events) == posted + DispatchedIn(StuckDrain(env, env.stuck.value))
              && SleepsIn(r.events) == |Windows(users, WideBatch)| + |Windows(env.stuck.value, WideBatch)|)
  {
    var users := env.rateLimited.value;
    var drain := RateLimitedDrain(env, users);
    var rest := if env.stuck.Success? then StuckDrain(env, env.stuck.value) else [];
    var r := QueuedPhase(env);
    assert r.events == [Fetch(RateLimitedQuery)] + drain + [Fetch(StuckQuery)] + rest;
    AroundFetch(RateLimitedQuery, drain, StuckQuery, rest);
    RateLimitedDrainSleeps(env, users);
    if env.stuck.Success? {
      StuckDrainSleeps(env, env.stuck.value);
    }
    var k := 1 + |drain|;
    assert r.events[k] == Fetch(StuckQuery);
  }

  lemma RateLimitedDrainSleeps(env: Env, users: seq<string>)
    ensures SleepsIn(RateLimitedDrain(env, users)) == |Windows(users, WideBatch)|
  {
    RateLimitedDrainCalls(env, users);
  }

  lemma StuckDrainSleeps(env: Env, users: seq<string>)
    ensures SleepsIn(StuckDrain(env, users)) == |Windows(users, WideBatch)|
  {
    StuckDrainCalls(env, users);
  }

  /** The automations phase runs every due automation once, with source
      "automated"; a failed run is counted and does not stop the phase */
  lemma AutomationsPhaseCalls(env: Env)
    ensures var r := AutomationsPhase(env);
      && |r.events| >= 1 && r.events[0] == Fetch(AutomationQuery)
      && (env.automations.Failure? ==> r == PhaseResult([Fetch(AutomationQuery)], Some(env.automations.error)))
      && (env.automations.Success? ==>
            && r.thrown.None?
            && DispatchedIn(r.events) == multiset(Map(env.automations.value, (a: Automation) => RunAutomation(a.id, a.userId, "automated")))
            && SleepsIn(r.events) == |Windows(env.automations.value, BatchSize)|
            && SettledIn(r.events) == |env.automations.value|)
  {
    if env.automations.Success? {
      var run := (a: Automation) => AutomationItem(env, a);
      LoopAfterPrefix([Fetch(AutomationQuery)], env.automations.value, BatchSize, run);
      DispatchesAsMap(env.automations.value, run, (a: Automation) => RunAutomation(a.id, a.userId, "automated"));
    }
  }

  // ---------------------------------------------------------------------------
  // The endpoint

  /** The phases' traces one after another */
  function EventsOf(ps: seq<Phase>, run: Phase -> PhaseResult): seq<Event> {
    if ps == [] then [] else run(ps[0]).events + EventsOf(ps[1..], run)
  }

  /** With no phase throwing, every phase runs, in order */
  lemma {:induction false} RunPhasesAllSucceed(ps: seq<Phase>, run: Phase -> PhaseResult)
    requires forall i :: 0 <= i < |ps| ==> run(ps[i]).thrown.None?
    ensures RunPhases(ps, run) == PhaseResult(EventsOf(ps, run), None)
  {
    if ps != [] {
      RunPhasesAllSucceed(ps[1..], run);
    }
  }

  /** The first phase that throws ends the run with its error: the phases before
      it ran completely, and the phases after it not at all */
  lemma {:induction false} RunPhasesFirstFailure(ps: seq<Phase>, run: Phase -> PhaseResult, k: nat)
    requires k < |ps|
    requires forall i :: 0 <= i < k ==> run(ps[i]).thrown.None?
    requires run(ps[k]).thrown.Some?
    ensures RunPhases(ps, run) == PhaseResult(EventsOf(ps[..k], run) + run(ps[k]).events, run(ps[k]).thrown)
  {
    if k > 0 {
      RunPhasesFirstFailure(ps[1..], run, k - 1);
      assert ps[1..][..k - 1] == ps[..k][1..];
      assert run(ps[0]).thrown.None?;
      assert ps[..k][0] == ps[0];
    } else {
      assert ps[..0] == [];
    }
  }

  /** In production a request without the exact bearer secret is refused before
      any work is done */
  lemma GetUnauthorized(env: Env, authHeader: Option<string>)
    requires env.nodeEnv == "production" && authHeader != Some("Bearer " + env.cronSecret)
    ensures Get(env, authHeader) == Outcome([], Response(401, Text("Unauthorized")))
  {
  }

  /** Outside production no request is refused */
  lemma GetOpenOutsideProduction(env: Env, authHeader: Option<string>)
    requires env.nodeEnv != "production"
    ensures Get(env, authHeader).response.status != 401
  {
  }

  /** The phases in their fixed order: stalled threads, scheduled chats, queues, automations */
  lemma PhaseOrderTrace(run: Phase -> PhaseResult)
    ensures EventsOf(PhaseOrder, run)
      == run(StalledTasks).events + run(ScheduledTasks).events + run(QueuedTasks).events + run(Automations).events
  {
    assert PhaseOrder[1..][1..][1..][1..] == [];
  }

  /** When no phase throws, the four phases run in their fixed order and the
      answer is success */
  lemma GetFullRun(env: Env, authHeader: Option<string>)
    requires Authorized(env, authHeader)
    requires forall p :: Runner(env)(p).thrown.None?
    ensures Get(env, authHeader) == Outcome(EventsOf(PhaseOrder, Runner(env)), Response(200, Json(true, None)))
  {
    RunPhasesAllSucceed(PhaseOrder, Runner(env));
  }

  /** The first phase to throw ends the sweep with a 500 carrying the error's
      message, after the earlier phases' work and the failing phase's own */
  lemma GetStopsAtFirstFailure(env: Env, authHeader: Option<string>, k: nat)
    requires Authorized(env, authHeader)
    requires k < |PhaseOrder|
    requires forall i :: 0 <= i < k ==> RunPhase(env, PhaseOrder[i]).thrown.None?
    requires RunPhase(env, PhaseOrder[k]).thrown.Some?
    ensures var e := RunPhase(env, PhaseOrder[k]).thrown.value;
      Get(env, authHeader) == Outcome(
        EventsOf(PhaseOrder[..k], Runner(env)) + RunPhase(env, PhaseOrder[k]).events,
        Response(500, Json(false, Some(ErrorMessage(e)))))
  {
    RunPhasesFirstFailure(PhaseOrder, Runner(env), k);
  }
}
