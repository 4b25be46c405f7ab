/** The daily sweep of src/app/api/internal/cron/daily/route.ts as a pure
    function from a snapshot of the world to the ordered trace of what the
    sweep does and the HTTP response it returns.

    The database queries, the rate limiter, `stopStalledThreads`, the sandbox
    hibernation call, `runAutomation` and `fetch` are external collaborators:
    their answers are fields of `Env`. A window's items run concurrently; the
    model records a window as one `Window` event holding the multiset of calls
    it made and how many of its items were fulfilled and rejected, so nothing
    is claimed about the order inside a window. `sleep(1000)` is a `Sleep`
    event. */
module DailyCron {
  import opened Wrappers
  import opened Seqs
  import opened Batching
  import opened InternalRequest

  /** `BATCH_SIZE`, the width of the scheduled-task and automation windows */
  const BatchSize: nat := 5
  /** The width of the stalled-thread and queue windows */
  const WideBatch: nat := 10

  datatype StalledThread = StalledThread(id: string, userId: string, codesandboxId: Option<string>, sandboxProvider: string)
  datatype ThreadChat = ThreadChat(userId: string, threadId: string, threadChatId: string)
  datatype Automation = Automation(id: string, userId: string)

  /** A thrown value: an `Error` carries a message, anything else does not */
  datatype Thrown = ErrorObject(message: string) | NonError

  /** A call the sweep makes to a collaborator for one item */
  datatype Dispatch =
    | Hibernate(threadId: string, userId: string, sandboxId: string, sandboxProvider: string)
    | Post(request: Request)
    | RunAutomation(automationId: string, userId: string, source: string)

  datatype Query = StalledQuery | ScheduledQuery | RateLimitedQuery | StuckQuery | AutomationQuery

  datatype Event =
    | Fetch(query: Query)
    | Stop(threadIds: seq<string>)
    | Capture(name: string, count: nat, queueType: string)
    | Window(dispatched: multiset<Dispatch>, fulfilled: nat, rejected: nat)
    | Sleep

  /** What happened to one item of a window: the call it made, if any, and
      whether its promise was fulfilled */
  datatype ItemRun = ItemRun(dispatch: Option<Dispatch>, fulfilled: bool)

  /** Everything the sweep reads from outside */
  datatype Env = Env(
    nodeEnv: string,
    cronSecret: string,
    appUrl: string,
    internalSecret: string,
    stalled: Result<seq<StalledThread>, Thrown>,
    stopFailure: Option<Thrown>,
    scheduled: Result<seq<ThreadChat>, Thrown>,
    rateLimited: Result<seq<string>, Thrown>,
    stuck: Result<seq<string>, Thrown>,
    automations: Result<seq<Automation>, Thrown>,
    remaining: string -> Result<int, Thrown>,
    hibernateSucceeds: StalledThread -> bool,
    fetchResolves: Request -> bool,
    automationSucceeds: Automation -> bool)

  // ---------------------------------------------------------------------------
  // One item

  /** `if (thread.codesandboxId)`: present and not the empty string */
  predicate HasSandbox(t: StalledThread) {
    t.codesandboxId.Some? && t.codesandboxId.value != ""
  }

  function HibernateCall(t: StalledThread): Dispatch {
    Hibernate(t.id, t.userId, t.codesandboxId.GetOr(""), t.sandboxProvider)
  }

  /** A stalled thread's item: hibernate its sandbox if it has one. The call
      sits in a try/catch whose catch ignores the error, so a failed
      hibernation settles fulfilled just like a successful one */
  function HibernateItem(env: Env, t: StalledThread): ItemRun {
    if !HasSandbox(t) then ItemRun(None, true)
    else if env.hibernateSucceeds(t) then ItemRun(Some(HibernateCall(t)), true)
    else ItemRun(Some(HibernateCall(t)), true)
  }

  /** The stalled threads' items of one run */
  function HibernateRunner(env: Env): StalledThread -> ItemRun {
    (t: StalledThread) => HibernateItem(env, t)
  }

  /** One `internalPOST` inside `allSettled`: a refused path rejects without
      sending, an accepted one settles as its fetch does */
  function PostItem(env: Env, path: string): ItemRun {
    match InternalPost(env.appUrl, env.internalSecret, path)
    case Failure(_) => ItemRun(None, false)
    case Success(req) => ItemRun(Some(Post(req)), env.fetchResolves(req))
  }

  /** The request the sweep sends for an accepted internal path */
  function SentTo(env: Env, path: string): Request {
    PostRequest(env.appUrl, env.internalSecret, path)
  }

  function ScheduledPath(c: ThreadChat): string {
    "process-scheduled-task/" + c.userId + "/" + c.threadId + "/" + c.threadChatId
  }

  function QueuePath(userId: string): string {
    "process-thread-queue/" + userId
  }

  function ScheduledItem(env: Env, c: ThreadChat): ItemRun {
    PostItem(env, ScheduledPath(c))
  }

  /** A rate-limited owner: a failed quota lookup rejects, a quota of exactly
      zero skips the owner, anything else posts the owner's queue */
  function RateLimitedItem(env: Env, userId: string): ItemRun {
    match env.remaining(userId)
    case Failure(_) => ItemRun(None, false)
    case Success(n) => if n == 0 then ItemRun(None, true) else PostItem(env, QueuePath(userId))
  }

  /** A concurrency-stuck owner: posted unconditionally */
  function StuckItem(env: Env, userId: string): ItemRun {
    PostItem(env, QueuePath(userId))
  }

  function AutomationItem(env: Env, a: Automation): ItemRun {
    ItemRun(Some(RunAutomation(a.id, a.userId, "automated")), env.automationSucceeds(a))
  }

  // ---------------------------------------------------------------------------
  // Windows and the batch loop

  /** The calls a list of items makes */
  function Dispatches<T>(items: seq<T>, run: T -> ItemRun): multiset<Dispatch> {
    if items == [] then multiset{}
    else
      (match run(items[0]).dispatch
       case Some(d) => multiset{d}
       case None => multiset{})
      + Dispatches(items[1..], run)
  }

  /** One window: every item is started, and `allSettled` waits for all of
      them, counting fulfilled and rejected results separately */
  function WindowEvent<T>(batch: seq<T>, run: T -> ItemRun): Event {
    Window(Dispatches(batch, run),
      Count(batch, (x: T) => run(x).fulfilled),
      Count(batch, (x: T) => !run(x).fulfilled))
  }

  /** Each window followed by a sleep */
  function Steps<T>(ws: seq<seq<T>>, run: T -> ItemRun): seq<Event> {
    if ws == [] then [] else [WindowEvent(ws[0], run), Sleep] + Steps(ws[1..], run)
  }

  /** The `for (i = 0; i < n; i += w)` loop of a phase */
  function BatchLoop<T>(items: seq<T>, w: nat, run: T -> ItemRun): seq<Event>
    requires w >= 1
  {
    Steps(Windows(items, w), run)
  }

  // ---------------------------------------------------------------------------
  // Observers of a trace

  function DispatchedIn(events: seq<Event>): multiset<Dispatch> {
    if events == [] then multiset{}
    else (if events[0].Window? then events[0].dispatched else multiset{}) + DispatchedIn(events[1..])
  }

  function SleepsIn(events: seq<Event>): nat {
    if events == [] then 0 else (if events[0].Sleep? then 1 else 0) + SleepsIn(events[1..])
  }

  /** How many items settled, fulfilled or rejected, across the trace's windows */
  function SettledIn(events: seq<Event>): nat {
    if events == [] then 0
    else (if events[0].Window? then events[0].fulfilled + events[0].rejected else 0) + SettledIn(events[1..])
  }

  // ---------------------------------------------------------------------------
  // The phases

  datatype PhaseResult = PhaseResult(events: seq<Event>, thrown: Option<Thrown>)

  /** `runStalledTasks`: it begins with the query, and only the query and the
      stop call can throw; hibernation never does */
  function StalledPhase(env: Env): (r: PhaseResult)
    ensures r.events != [] && r.events[0] == Fetch(StalledQuery)
    ensures r.thrown.Some? ==>
      (env.stalled.Failure? && r.thrown == Some(env.stalled.error)) || r.thrown == env.stopFailure
    ensures env.stalled.Success? && env.stopFailure.None? ==> r.thrown.None?
  {
    match env.stalled
    case Failure(e) => PhaseResult([Fetch(StalledQuery)], Some(e))
    case Success(threads) =>
      if |threads| == 0 then PhaseResult([Fetch(StalledQuery)], None)
      else
        var stop := Stop(Map(threads, (t: StalledThread) => t.id));
        match env.stopFailure
        case Some(e) => PhaseResult([Fetch(StalledQuery), stop], Some(e))
        case None =>
          PhaseResult([Fetch(StalledQuery), stop]
            + BatchLoop(threads, WideBatch, HibernateRunner(env)), None)
  }

  /** `runScheduledTasks`: it begins with the query and throws exactly when the
      query does; a failed post is settled, not thrown */
  function ScheduledPhase(env: Env): (r: PhaseResult)
    ensures r.events != [] && r.events[0] == Fetch(ScheduledQuery)
    ensures r.thrown.Some? <==> env.scheduled.Failure?
  {
    match env.scheduled
    case Failure(e) => PhaseResult([Fetch(ScheduledQuery)], Some(e))
    case Success(chats) =>
      PhaseResult([Fetch(ScheduledQuery)]
        + BatchLoop(chats, BatchSize, (c: ThreadChat) => ScheduledItem(env, c)), None)
  }

  /** The analytics event emitted before a queue drain, only for a non-empty owner list */
  function CaptureIfAny(owners: nat, name: string, queueType: string): seq<Event> {
    if owners > 0 then [Capture(name, owners, queueType)] else []
  }

  function RateLimitedDrain(env: Env, users: seq<string>): seq<Event> {
    CaptureIfAny(|users|, "cron_queue_processing", "other_rate_limit")
    + BatchLoop(users, WideBatch, (u: string) => RateLimitedItem(env, u))
  }

  function StuckDrain(env: Env, users: seq<string>): seq<Event> {
    CaptureIfAny(|users|, "cron_queue_stuck_users", "tasks_concurrency")
    + BatchLoop(users, WideBatch, (u: string) => StuckItem(env, u))
  }

  /** `runQueuedTasks`: the rate-limited owners, then the concurrency-stuck
      ones. It throws exactly when one of its two queries does; a failed quota
      lookup or post is settled, not thrown */
  function QueuedPhase(env: Env): (r: PhaseResult)
    ensures r.events != [] && r.events[0] == Fetch(RateLimitedQuery)
    ensures r.thrown.Some? <==> env.rateLimited.Failure? || (env.rateLimited.Success? && env.stuck.Failure?)
  {
    match env.rateLimited
    case Failure(e) => PhaseResult([Fetch(RateLimitedQuery)], Some(e))
    case Success(users) =>
      var first := [Fetch(RateLimitedQuery)] + RateLimitedDrain(env, users) + [Fetch(StuckQuery)];
      match env.stuck
      case Failure(e) => PhaseResult(first, Some(e))
      case Success(stuck) => PhaseResult(first + StuckDrain(env, stuck), None)
  }

  /** `runAutomations`: it begins with the query and throws exactly when the
      query does; a failed automation run is counted, not thrown */
  function AutomationsPhase(env: Env): (r: PhaseResult)
    ensures r.events != [] && r.events[0] == Fetch(AutomationQuery)
    ensures r.thrown.Some? <==> env.automations.Failure?
  {
    match env.automations
    case Failure(e) => PhaseResult([Fetch(AutomationQuery)], Some(e))
    case Success(autos) =>
      PhaseResult([Fetch(AutomationQuery)]
        + BatchLoop(autos, BatchSize, (a: Automation) => AutomationItem(env, a)), None)
  }

  // ---------------------------------------------------------------------------
  // The endpoint

  datatype Phase = StalledTasks | ScheduledTasks | QueuedTasks | Automations

  const PhaseOrder: seq<Phase> := [StalledTasks, ScheduledTasks, QueuedTasks, Automations]

  function RunPhase(env: Env, p: Phase): PhaseResult {
    match p
    case StalledTasks => StalledPhase(env)
    case ScheduledTasks => ScheduledPhase(env)
    case QueuedTasks => QueuedPhase(env)
    case Automations => AutomationsPhase(env)
  }

  /** The phases of one request, each run against the same snapshot */
  function Runner(env: Env): Phase -> PhaseResult {
    (p: Phase) => RunPhase(env, p)
  }

  /** `await` each phase in turn; a thrown error leaves the remaining phases
      unrun. The run throws exactly when some phase does, and then it throws
      one of the phases' errors */
  function RunPhases(ps: seq<Phase>, run: Phase -> PhaseResult): (r: PhaseResult)
    ensures r.thrown.None? <==> forall i :: 0 <= i < |ps| ==> run(ps[i]).thrown.None?
    ensures r.thrown.Some? ==> exists i :: 0 <= i < |ps| && run(ps[i]).thrown == r.thrown
  {
    if ps == [] then PhaseResult([], None)
    else
      var first := run(ps[0]);
      if first.thrown.Some? then first
      else
        var rest := RunPhases(ps[1..], run);
        assert forall i :: 0 < i < |ps| ==> ps[i] == ps[1..][i - 1];
        PhaseResult(first.events + rest.events, rest.thrown)
  }

  datatype Body = Text(text: string) | Json(success: bool, error: Option<string>)
  datatype Response = Response(status: int, body: Body)
  datatype Outcome = Outcome(trace: seq<Event>, response: Response)

  /** `error instanceof Error ? error.message : "Unknown error"` */
  function ErrorMessage(t: Thrown): string {
    match t
    case ErrorObject(m) => m
    case NonError => "Unknown error"
  }

  /** The bearer check applies only when NODE_ENV is "production"; a missing
      header never matches */
  predicate Authorized(env: Env, authHeader: Option<string>) {
    env.nodeEnv != "production" || authHeader == Some("Bearer " + env.cronSecret)
  }

  /** `GET`: 401 exactly for an unauthorised request, 200 exactly when it is
      authorised and no phase throws, 500 otherwise; a JSON body reports
      success exactly at 200 */
  function Get(env: Env, authHeader: Option<string>): (o: Outcome)
    ensures o.response.status in {200, 401, 500}
    ensures o.response.status == 401 <==> !Authorized(env, authHeader)
    ensures o.response.status == 200 <==>
      Authorized(env, authHeader) && forall i :: 0 <= i < |PhaseOrder| ==> RunPhase(env, PhaseOrder[i]).thrown.None?
    ensures o.response.body.Json? ==> (o.response.body.success <==> o.response.status == 200)
  {
    if !Authorized(env, authHeader) then Outcome([], Response(401, Text("Unauthorized")))
    else
      var r := RunPhases(PhaseOrder, Runner(env));
      match r.thrown
      case None => Outcome(r.events, Response(200, Json(true, None)))
      case Some(e) => Outcome(r.events, Response(500, Json(false, Some(ErrorMessage(e)))))
  }
}
