/** The editor context bridge (context_update_bridge.cc) against any behaviour of its
    callers, of the pipe and of the model service: a state machine over single steps. */
module ContextBridge {
  import opened Wrappers
  import opened ContextService

  const RECOVERY_ATTEMPTS: nat := 2

  // ---------------------------------------------------------------------------------
  // What is submitted.

  datatype Label = Normal | Private | Password

  /** A captured snapshot with its metadata. `convertible` says that every UTF-16 field of
      it converts to UTF-8; `captured` that the capture reported success. */
  datatype Capture = Capture(before: string, after: string, captured: bool, convertible: bool,
                             session: string, capability: string, revision: nat, security: Label, secure: bool)

  datatype Pending = Pending(sequence: nat, capture: Capture)

  predicate HasSourceIdentity(c: Capture) {
    IsCapability(c.capability) && c.revision > 0 && c.security != Password
  }

  predicate RequiresImmediateCleanup(c: Capture) {
    c.secure || c.security == Password || !c.captured
  }

  /** Anything that may not or cannot be sent as text is sent as a secure focus. */
  predicate IsContextUpdate(c: Capture) {
    !RequiresImmediateCleanup(c) && c.convertible
  }

  predicate IsSessionCharacter(x: char) {
    'a' <= x <= 'z' || 'A' <= x <= 'Z' || '0' <= x <= '9' || x == '-' || x == '_' || x == '.' || x == ':'
  }

  function SessionId(c: Capture): string {
    if c.session == "" || |c.session| > 128 || exists i :: 0 <= i < |c.session| && !IsSessionCharacter(c.session[i])
    then "context-bridge" else c.session
  }

  function BindingOf(c: Capture): Option<Binding> {
    if HasSourceIdentity(c) then Some(Binding(c.capability, c.revision, if c.security == Private then "private" else "normal"))
    else None
  }

  function UpdateOf(p: Pending): Update {
    Update(p.sequence, Some(BridgeRequest(p.sequence)), Some(SessionId(p.capture)), BindingOf(p.capture), p.capture.before, p.capture.after)
  }

  function RequestOf(p: Pending): Request {
    if IsContextUpdate(p.capture) then ContextUpdate(UpdateOf(p))
    else Focus(Some(BridgeRequest(p.sequence)), SessionId(p.capture), true, true)
  }

  function ReceiptRequest(p: Pending): Request {
    ReceiptQuery(p.sequence, BridgeRequest(p.sequence), Some(SessionId(p.capture)), BindingOf(p.capture))
  }

  function HealthRequest(p: Pending): Request {
    Health(Some(BridgeRequest(p.sequence)))
  }

  // ---------------------------------------------------------------------------------
  // What is read back. None stands for a reply that does not parse.

  /** The epoch of an acknowledgement, or of a receipt when one was asked for. */
  function AcknowledgedEpoch(r: Reply, sequence: nat, receipt: bool): Option<nat> {
    if receipt then
      if r.ReceiptAnswer? && r.accepted && r.requestId == Some(BridgeRequest(sequence)) && r.clientEpoch == sequence && r.epoch > 0
      then Some(r.epoch) else None
    else
      if r.Acknowledged? && r.accepted && r.requestId == Some(BridgeRequest(sequence)) && r.clientEpoch == sequence && r.epoch > 0
      then Some(r.epoch) else None
  }

  /** The service has not seen the update. */
  predicate IsMissingReceipt(r: Reply, sequence: nat) {
    r.ReceiptAnswer? && !r.accepted && r.requestId == Some(BridgeRequest(sequence)) && r.clientEpoch == sequence && r.epoch == 0
  }

  predicate IsFocusAcknowledgement(r: Reply, p: Pending) {
    r.FocusAnswer? && r.requestId == Some(BridgeRequest(p.sequence)) && r.sessionId == SessionId(p.capture) && r.secure
  }

  function ReadyEpochOf(r: Reply, sequence: nat): Option<nat> {
    if r.HealthAnswer? && r.requestId == Some(BridgeRequest(sequence)) then Some(r.epoch) else None
  }

  // ---------------------------------------------------------------------------------
  // The bridge under its mutex.

  datatype Result = Idle | Queued | Published | SecureContextCleared | Superseded | TransportError | ProtocolError | ReadinessTimeout

  /** The identity candidate queries use; a capability of "" marks a publication without one. */
  datatype Identity = Identity(epoch: nat, capability: string, revision: nat)

  datatype Bridge = Bridge(next: nat, latest: nat, stopping: bool, cleanup: Option<Pending>, pending: Option<Pending>,
                           published: Option<Identity>, result: Result)

  function NewBridge(): Bridge {
    Bridge(0, 0, false, None, None, None, Idle)
  }

  function Submit(b: Bridge, c: Capture): Bridge {
    if b.stopping then b
    else
      var sequence := b.next + 1;
      var queued := b.(next := sequence, latest := sequence, result := Queued);
      if RequiresImmediateCleanup(c) then queued.(published := None, cleanup := Some(Pending(sequence, c)), pending := None)
      else queued.(pending := Some(Pending(sequence, c)))
  }

  function Invalidate(b: Bridge): Bridge {
    b.(next := b.next + 1, latest := b.next + 1, cleanup := None, pending := None, published := None, result := Superseded)
  }

  function Stop(b: Bridge): Bridge {
    if b.stopping then b
    else b.(stopping := true, next := b.next + 1, latest := b.next + 1, cleanup := None, pending := None, published := None)
  }

  /** What the worker loop takes next, and the bridge without it. */
  function NextUpdate(b: Bridge): Option<Pending> {
    if b.stopping then None else if b.cleanup.Some? then b.cleanup else b.pending
  }

  function Taken(b: Bridge): Bridge {
    if b.stopping then b else if b.cleanup.Some? then b.(cleanup := None) else b.(pending := None)
  }

  function IdentityOf(p: Pending, epoch: nat): Identity {
    if HasSourceIdentity(p.capture) then Identity(epoch, p.capture.capability, p.capture.revision) else Identity(epoch, "", 0)
  }

  predicate MayPublish(b: Bridge, p: Pending) {
    !b.stopping && b.latest == p.sequence
  }

  /** The last locked section of an update. */
  function Publish(b: Bridge, p: Pending, epoch: nat): Bridge {
    if MayPublish(b, p) then b.(published := Some(IdentityOf(p, epoch)), result := Published) else b.(result := Superseded)
  }

  // ---------------------------------------------------------------------------------
  // The worker's position inside one update.

  datatype Phase =
    | Waiting
    | Begun(update: Pending)
    | AwaitUpdate(update: Pending, call: nat, attempts: nat)
    | Retrying(update: Pending, attempts: nat)
    | AwaitReceipt(update: Pending, call: nat, attempts: nat)
    | Missing(update: Pending, reply: Answer, attempts: nat)
    | Replied(update: Pending, reply: Answer, receipt: bool, attempts: nat)
    | Polling(update: Pending, epoch: nat, server: nat, attempts: nat)
    | AwaitHealth(update: Pending, epoch: nat, server: nat, call: nat, attempts: nat)
    | ReadyToPublish(update: Pending, epoch: nat, server: nat)

  /** A reply with the identity of the service process that sent it. */
  datatype Answer = Answer(server: nat, reply: Reply)

  datatype Call = Call(id: nat, request: Request)

  /** Everything: the bridge and its worker, the service lifetimes so far (the last one is
      alive), the calls on their way and the answers that came back. */
  datatype World = World(bridge: Bridge, phase: Phase, services: seq<Service>, calls: set<Call>, answers: map<nat, Answer>,
                         nextCall: nat, submitted: map<nat, Capture>, taken: seq<nat>, publishedBy: nat, lastReset: nat)

  function NewWorld(): World {
    World(NewBridge(), Waiting, [NewService()], {}, map[], 0, map[], [], 0, 0)
  }

  datatype Step =
    | SubmitStep(capture: Capture)
    | InvalidateStep
    | StopStep
    | TakeStep
    | WorkerStep(timeUp: bool)                       // the worker's next own move; timeUp is the shared deadline
    | CallFails(recoverable: bool, timeUp: bool)      // the awaited call ends without a reply
    | Deliver(call: Call, raises: bool)               // the service handles a call, at any time, any number of times
    | OtherClientCall(request: Request, raises: bool)
    | EngineTakes
    | EngineFinishes(ok: bool)
    | Restart

  predicate IsLatest(w: World, p: Pending) {
    w.bridge.latest == p.sequence
  }

  /** Superseded updates are abandoned; secure focus never is. */
  predicate Abandoned(w: World, p: Pending) {
    IsContextUpdate(p.capture) && !IsLatest(w, p)
  }

  function Ends(w: World, result: Result): World {
    w.(phase := Waiting, bridge := w.bridge.(result := result))
  }

  function Send(w: World, request: Request, phase: Phase): World {
    w.(calls := w.calls + {Call(w.nextCall, request)}, nextCall := w.nextCall + 1, phase := phase)
  }

  function Begin(w: World, p: Pending, timeUp: bool): World {
    var w1 := if IsContextUpdate(p.capture) then w else w.(bridge := w.bridge.(published := None));
    if Abandoned(w1, p) then Ends(w1, Superseded)
    else if timeUp then Ends(w1, ReadinessTimeout)
    else Send(w1, RequestOf(p), AwaitUpdate(p, w1.nextCall, RECOVERY_ATTEMPTS))
  }

  /** After a failed update or receipt call: a bounded number of recoveries. */
  function Recover(w: World, p: Pending, attempts: nat, recoverable: bool, timeUp: bool): World {
    if recoverable && attempts > 0 && !w.bridge.stopping && !Abandoned(w, p) && !timeUp then w.(phase := Retrying(p, attempts - 1))
    else Ends(w, if Abandoned(w, p) then Superseded else TransportError)
  }

  function Retry(w: World, p: Pending, attempts: nat, timeUp: bool): World {
    if timeUp then Ends(w, if Abandoned(w, p) then Superseded else TransportError)
    else if IsContextUpdate(p.capture) then Send(w, ReceiptRequest(p), AwaitReceipt(p, w.nextCall, attempts))
    else Send(w, RequestOf(p), AwaitUpdate(p, w.nextCall, attempts))
  }

  function ReadReceipt(w: World, p: Pending, a: Answer, attempts: nat): World {
    if !IsLatest(w, p) then Ends(w, Superseded)
    else if AcknowledgedEpoch(a.reply, p.sequence, true).Some? then w.(phase := Replied(p, a, true, attempts))
    else if IsMissingReceipt(a.reply, p.sequence) then w.(phase := Missing(p, a, attempts))
    else Ends(w, ProtocolError)
  }

  /** The service never saw the update: send it again, unless time is up, in which case the
      receipt is left to be read as if it were the acknowledgement. */
  function Resend(w: World, p: Pending, a: Answer, attempts: nat, timeUp: bool): World {
    if timeUp then w.(phase := Replied(p, a, false, attempts))
    else Send(w, RequestOf(p), AwaitUpdate(p, w.nextCall, attempts))
  }

  function ReadReply(w: World, p: Pending, a: Answer, receipt: bool, attempts: nat): World {
    if Abandoned(w, p) then Ends(w, Superseded)
    else if !IsContextUpdate(p.capture) then
      Ends(w, if IsFocusAcknowledgement(a.reply, p) then SecureContextCleared else ProtocolError)
    else match AcknowledgedEpoch(a.reply, p.sequence, receipt)
      case None => Ends(w, ProtocolError)
      case Some(epoch) => w.(phase := Polling(p, epoch, a.server, attempts))
  }

  function Poll(w: World, p: Pending, epoch: nat, server: nat, attempts: nat, timeUp: bool): World {
    if !IsLatest(w, p) then Ends(w, Superseded)
    else if timeUp then Ends(w, ReadinessTimeout)
    else Send(w, HealthRequest(p), AwaitHealth(p, epoch, server, w.nextCall, attempts))
  }

  function ReadHealth(w: World, p: Pending, epoch: nat, server: nat, a: Answer, attempts: nat, timeUp: bool): World {
    if a.server != server then Ends(w, Superseded)
    else match ReadyEpochOf(a.reply, p.sequence)
      case None => Ends(w, ProtocolError)
      case Some(ready) =>
        if ready == epoch then w.(phase := ReadyToPublish(p, epoch, server))
        else if ready > epoch then Ends(w, Superseded)
        else if timeUp then Ends(w, ReadinessTimeout)
        else w.(phase := Polling(p, epoch, server, attempts))
  }

  function HealthFails(w: World, p: Pending, epoch: nat, server: nat, attempts: nat, recoverable: bool, timeUp: bool): World {
    if recoverable && attempts > 0 && !w.bridge.stopping && IsLatest(w, p) && !timeUp
    then w.(phase := Polling(p, epoch, server, attempts - 1))
    else Ends(w, TransportError)
  }

  function Conclude(w: World, p: Pending, epoch: nat): World {
    w.(phase := Waiting, bridge := Publish(w.bridge, p, epoch),
       publishedBy := if MayPublish(w.bridge, p) then p.sequence else w.publishedBy)
  }

  function Work(w: World, timeUp: bool): World {
    match w.phase
    case Waiting => w
    case Begun(p) => Begin(w, p, timeUp)
    case AwaitUpdate(p, call, attempts) => if call in w.answers then w.(phase := Replied(p, w.answers[call], false, attempts)) else w
    case Retrying(p, attempts) => Retry(w, p, attempts, timeUp)
    case AwaitReceipt(p, call, attempts) => if call in w.answers then ReadReceipt(w, p, w.answers[call], attempts) else w
    case Missing(p, a, attempts) => Resend(w, p, a, attempts, timeUp)
    case Replied(p, a, receipt, attempts) => ReadReply(w, p, a, receipt, attempts)
    case Polling(p, epoch, server, attempts) => Poll(w, p, epoch, server, attempts, timeUp)
    case AwaitHealth(p, epoch, server, call, attempts) =>
      if call in w.answers then ReadHealth(w, p, epoch, server, w.answers[call], attempts, timeUp) else w
    case ReadyToPublish(p, epoch, server) => Conclude(w, p, epoch)
  }

  function Fail(w: World, recoverable: bool, timeUp: bool): World {
    match w.phase
    case AwaitUpdate(p, _, attempts) => Recover(w, p, attempts, recoverable, timeUp)
    case AwaitReceipt(p, _, attempts) => Recover(w, p, attempts, recoverable, timeUp)
    case AwaitHealth(p, epoch, server, _, attempts) => HealthFails(w, p, epoch, server, attempts, recoverable, timeUp)
    case _ => w
  }

  function TakeNext(w: World): World {
    if !w.phase.Waiting? || NextUpdate(w.bridge).None? then w
    else
      var p := NextUpdate(w.bridge).value;
      w.(bridge := Taken(w.bridge), phase := Begun(p), taken := w.taken + [p.sequence])
  }

  predicate FromBridge(r: Request) {
    IdOf(r).Some? && IdOf(r).value.BridgeRequest?
  }

  function Alive(w: World): Service
    requires w.services != []
  {
    w.services[|w.services| - 1]
  }

  function Serve(w: World, s: Service): World
    requires w.services != []
  {
    w.(services := w.services[|w.services| - 1 := s])
  }

  function SubmitTo(w: World, c: Capture): World {
    var b := Submit(w.bridge, c);
    w.(bridge := b, submitted := if w.bridge.stopping then w.submitted else w.submitted[b.next := c],
       lastReset := if !w.bridge.stopping && RequiresImmediateCleanup(c) then b.next else w.lastReset)
  }

  function Apply(w: World, step: Step): World
    requires w.services != []
  {
    match step
    case SubmitStep(c) => SubmitTo(w, c)
    case InvalidateStep => w.(bridge := Invalidate(w.bridge), lastReset := w.bridge.next + 1)
    case StopStep => w.(bridge := Stop(w.bridge), lastReset := if w.bridge.stopping then w.lastReset else w.bridge.next + 1)
    case TakeStep => TakeNext(w)
    case WorkerStep(timeUp) => Work(w, timeUp)
    case CallFails(recoverable, timeUp) => Fail(w, recoverable, timeUp)
    case Deliver(call, raises) =>
      if call !in w.calls then w
      else
        var (s, reply) := Handle(Alive(w), call.request, raises);
        Serve(w, s).(answers := w.answers[call.id := Answer(|w.services| - 1, reply)])
    case OtherClientCall(request, raises) =>
      if FromBridge(request) then w else Serve(w, Handle(Alive(w), request, raises).0)
    case EngineTakes => Serve(w, Act(Alive(w), WorkerTakes))
    case EngineFinishes(ok) => Serve(w, Act(Alive(w), WorkerFinishes(ok)))
    case Restart => w.(services := w.services + [NewService()])
  }

  lemma ServicesStay(w: World, step: Step)
    requires w.services != []
    ensures Apply(w, step).services != []
  {
    hide Handle, Act, Work, Fail, TakeNext, SubmitTo;
    match step
    case WorkerStep(timeUp) => WorkLeavesResets(w, timeUp);
    case CallFails(recoverable, timeUp) => FailLeavesResets(w, recoverable, timeUp);
    case TakeStep => TakeLeavesServices(w);
    case SubmitStep(c) => SubmitLeavesServices(w, c);
    case _ =>
  }

  lemma TakeLeavesServices(w: World)
    ensures TakeNext(w).services == w.services
  {}

  lemma SubmitLeavesServices(w: World, c: Capture)
    ensures SubmitTo(w, c).services == w.services
  {}

  function Run(steps: seq<Step>): (w: World)
    ensures w.services != []
  {
    if steps == [] then NewWorld()
    else
      var w := Run(steps[..|steps| - 1]);
      ServicesStay(w, steps[|steps| - 1]);
      Apply(w, steps[|steps| - 1])
  }

  // ---------------------------------------------------------------------------------
  // What every run keeps: the bridge.

  ghost predicate Submitted(w: World, p: Pending) {
    p.sequence in w.submitted && w.submitted[p.sequence] == p.capture
  }

  /** Sequence numbers are used once; slots hold submitted work newer than all work taken. */
  ghost predicate BridgeInv(w: World) {
    var b := w.bridge;
    && b.latest == b.next && (forall n :: n in w.submitted ==> 0 < n <= b.next)
    && (b.stopping ==> b.cleanup.None? && b.pending.None?)
    && (b.cleanup.Some? ==> Submitted(w, b.cleanup.value) && RequiresImmediateCleanup(b.cleanup.value.capture))
    && (b.pending.Some? ==> Submitted(w, b.pending.value) && !RequiresImmediateCleanup(b.pending.value.capture))
    && (b.cleanup.Some? && b.pending.Some? ==> b.cleanup.value.sequence < b.pending.value.sequence)
    && w.lastReset <= b.next && w.publishedBy <= b.next
    && (b.published.Some? ==> w.publishedBy > w.lastReset)
  }

  ghost predicate TakenInv(w: World) {
    && (forall i, j :: 0 <= i < j < |w.taken| ==> w.taken[i] < w.taken[j])
    && (forall i :: 0 <= i < |w.taken| ==>
                      && w.taken[i] <= w.bridge.next
                      && (w.bridge.cleanup.Some? ==> w.taken[i] < w.bridge.cleanup.value.sequence)
                      && (w.bridge.pending.Some? ==> w.taken[i] < w.bridge.pending.value.sequence))
  }

  // And the services.

  ghost predicate ServicesInv(services: seq<Service>) {
    forall i :: 0 <= i < |services| ==> Inv(services[i])
  }

  /** A service lifetime gave this epoch to this update. */
  ghost predicate AssignedIn(services: seq<Service>, server: nat, epoch: nat, u: Update) {
    server < |services| && Gave(services[server].log, epoch, u)
  }

  /** It has reported a snapshot of these texts ready under this epoch. */
  ghost predicate ReadyIn(services: seq<Service>, server: nat, c: Context) {
    server < |services| && Reported(c) in services[server].log
  }

  /** Lifetimes never lose events. */
  ghost predicate Extends(before: seq<Service>, after: seq<Service>) {
    |before| <= |after| && forall i :: 0 <= i < |before| ==> before[i].log <= after[i].log
  }

  /** Updates under a bridge identifier are the ones submitted under that sequence. */
  ghost predicate Honest(submitted: map<nat, Capture>, u: Update) {
    u.requestId.Some? && u.requestId.value.BridgeRequest? ==>
      var n := u.requestId.value.sequence;
      n in submitted && u == UpdateOf(Pending(n, submitted[n])) && IsContextUpdate(submitted[n])
  }

  ghost predicate LogsHonest(submitted: map<nat, Capture>, services: seq<Service>) {
    forall i, j :: 0 <= i < |services| && 0 <= j < |services[i].log| && services[i].log[j].Assigned? ==>
                     Honest(submitted, services[i].log[j].update)
  }

  ghost predicate CallsHonest(w: World) {
    forall c :: c in w.calls ==> c.id < w.nextCall && FromBridge(c.request) && (c.request.ContextUpdate? ==> Honest(w.submitted, c.request.update))
  }

  /** An accepting reply names an epoch its server gave to an update of that identifier; a
      health reply names a snapshot its server has reported. */
  ghost predicate Truthful(services: seq<Service>, a: Answer) {
    match a.reply
    case Acknowledged(id, accepted, epoch, _) => accepted ==> exists u :: AssignedIn(services, a.server, epoch, u) && u.requestId == id
    case ReceiptAnswer(id, accepted, epoch, _) => accepted ==> exists u :: AssignedIn(services, a.server, epoch, u) && u.requestId == id
    case HealthAnswer(_, epoch) => epoch > 0 ==> exists c :: ReadyIn(services, a.server, c) && c.epoch == epoch
    case _ => true
  }

  ghost predicate AnswersTruthful(w: World) {
    forall id :: id in w.answers ==> Truthful(w.services, w.answers[id])
  }

  ghost predicate PhaseInv(w: World) {
    match w.phase
    case Waiting => true
    case Missing(p, a, _) => Submitted(w, p) && Truthful(w.services, a)
    case Replied(p, a, _, _) => Submitted(w, p) && Truthful(w.services, a)
    case Polling(p, epoch, server, _) => Submitted(w, p) && epoch > 0 && AssignedIn(w.services, server, epoch, UpdateOf(p))
    case AwaitHealth(p, epoch, server, _, _) => Submitted(w, p) && epoch > 0 && AssignedIn(w.services, server, epoch, UpdateOf(p))
    case ReadyToPublish(p, epoch, server) => Submitted(w, p) && Backed(w.services, p, epoch, server)
    case _ => Submitted(w, w.phase.update)
  }

  /** One lifetime gave the epoch to the update and reported exactly its text ready. */
  ghost predicate Backed(services: seq<Service>, p: Pending, epoch: nat, server: nat) {
    && epoch > 0 && AssignedIn(services, server, epoch, UpdateOf(p))
    && ReadyIn(services, server, Context(epoch, p.capture.before, p.capture.after))
  }

  /** The published identity is that of a submitted update, backed by one service lifetime. */
  ghost predicate PublishedInv(w: World) {
    w.bridge.published.Some? ==>
      exists p, server :: Submitted(w, p) && p.sequence == w.publishedBy && Backed(w.services, p, w.bridge.published.value.epoch, server)
                          && w.bridge.published.value == IdentityOf(p, w.bridge.published.value.epoch)
  }

  ghost predicate WorldInv(w: World) {
    && w.services != [] && BridgeInv(w) && TakenInv(w)
    && ServicesInv(w.services) && LogsHonest(w.submitted, w.services) && CallsHonest(w)
    && AnswersTruthful(w) && PhaseInv(w) && PublishedInv(w)
  }

  // ---------------------------------------------------------------------------------
  // Preservation: time only adds to what is known.

  lemma TruthfulStays(before: seq<Service>, after: seq<Service>, a: Answer)
    requires Extends(before, after) && Truthful(before, a)
    ensures Truthful(after, a)
  {
    hide Gave;
    forall epoch, u | AssignedIn(before, a.server, epoch, u) ensures AssignedIn(after, a.server, epoch, u) {
      AssignedStays(before, after, a.server, epoch, u);
    }
    forall c | ReadyIn(before, a.server, c) ensures ReadyIn(after, a.server, c) {
      ReadyStays(before, after, a.server, c);
    }
  }

  lemma AssignedStays(before: seq<Service>, after: seq<Service>, server: nat, epoch: nat, u: Update)
    requires Extends(before, after) && AssignedIn(before, server, epoch, u)
    ensures AssignedIn(after, server, epoch, u)
  {
    GaveStays(before[server].log, after[server].log, epoch, u);
  }

  lemma ReadyStays(before: seq<Service>, after: seq<Service>, server: nat, c: Context)
    requires Extends(before, after) && ReadyIn(before, server, c)
    ensures ReadyIn(after, server, c)
  {
    var i :| 0 <= i < |before[server].log| && before[server].log[i] == Reported(c);
    assert after[server].log[i] == Reported(c);
  }

  lemma BackedStays(before: seq<Service>, after: seq<Service>, p: Pending, epoch: nat, server: nat)
    requires Extends(before, after) && Backed(before, p, epoch, server)
    ensures Backed(after, p, epoch, server)
  {
    AssignedStays(before, after, server, epoch, UpdateOf(p));
    ReadyStays(before, after, server, Context(epoch, p.capture.before, p.capture.after));
  }

  /** What one service step may do to the rest of the world. */
  lemma ServicesMove(w: World, w': World)
    requires WorldInv(w) && Extends(w.services, w'.services)
    requires w' == w.(services := w'.services, answers := w'.answers)
    requires ServicesInv(w'.services) && LogsHonest(w.submitted, w'.services)
    requires forall id :: id in w'.answers ==> Truthful(w'.services, w'.answers[id]) || (id in w.answers && w'.answers[id] == w.answers[id])
    ensures WorldInv(w')
  {
    hide ServicesInv, LogsHonest, Truthful, Backed, AssignedIn, Submitted;
    forall id | id in w'.answers ensures Truthful(w'.services, w'.answers[id]) {
      if id in w.answers && w'.answers[id] == w.answers[id] { TruthfulStays(w.services, w'.services, w.answers[id]); }
    }
    PhaseStays(w, w');
    SameBridge(w, w');
    if w.bridge.published.Some? {
      var p, server :| Submitted(w, p) && p.sequence == w.publishedBy && Backed(w.services, p, w.bridge.published.value.epoch, server)
                       && w.bridge.published.value == IdentityOf(p, w.bridge.published.value.epoch);
      BackedStays(w.services, w'.services, p, w.bridge.published.value.epoch, server);
      assert Submitted(w', p) by { SameSubmitted(w, w', p); }
    }
  }

  lemma SameBridge(w: World, w': World)
    requires BridgeInv(w) && TakenInv(w) && CallsHonest(w)
    requires w' == w.(services := w'.services, answers := w'.answers)
    ensures BridgeInv(w') && TakenInv(w') && CallsHonest(w')
  {
    hide RequiresImmediateCleanup, Honest;
  }

  lemma SameSubmitted(w: World, w': World, p: Pending)
    requires Submitted(w, p) && w.submitted.Keys <= w'.submitted.Keys
    requires forall n :: n in w.submitted ==> w'.submitted[n] == w.submitted[n]
    ensures Submitted(w', p)
  {}

  lemma PhaseStays(w: World, w': World)
    requires PhaseInv(w) && Extends(w.services, w'.services) && w'.phase == w.phase
    requires w.submitted.Keys <= w'.submitted.Keys
    requires forall n :: n in w.submitted ==> w'.submitted[n] == w.submitted[n]
    ensures PhaseInv(w')
  {
    hide Truthful, AssignedIn, ReadyIn, Backed;
    match w.phase
    case Missing(p, a, _) => TruthfulStays(w.services, w'.services, a);
    case Replied(p, a, _, _) => TruthfulStays(w.services, w'.services, a);
    case Polling(p, epoch, server, _) => AssignedStays(w.services, w'.services, server, epoch, UpdateOf(p));
    case AwaitHealth(p, epoch, server, _, _) => AssignedStays(w.services, w'.services, server, epoch, UpdateOf(p));
    case ReadyToPublish(p, epoch, server) => BackedStays(w.services, w'.services, p, epoch, server);
    case _ =>
  }

  // The service side.

  /** Handling a request answers truthfully about the log it leaves behind. */
  lemma HandleTruthful(services: seq<Service>, r: Request, raises: bool)
    requires services != [] && Inv(services[|services| - 1])
    ensures var last := |services| - 1;
            var (s, reply) := Handle(services[last], r, raises);
            Truthful(services[last := s], Answer(last, reply))
  {
    hide RecentOk, FreshLog, Bound, Live, LastRevision, BindingsGenuine, Find, Put;
    var last := |services| - 1;
    var (s, reply) := Handle(services[last], r, raises);
    var after := services[last := s];
    if Valid(r) {
      match r
      case ContextUpdate(u) =>
        if reply.Acknowledged? && reply.accepted {
          AssignedIsGenuine(services[last].log, Assigned(reply.epoch, u, true));
          assert AssignedIn(after, last, reply.epoch, u);
        }
      case ReceiptQuery(_, _, _, _) =>
        if reply.accepted {
          var u := ReceiptWasGiven(services[last]);
          assert AssignedIn(after, last, reply.epoch, u);
        }
      case Health(_) =>
        if reply.epoch > 0 {
          assert s.log[|s.log| - 1] == Reported(services[last].engine.snapshot.value);
          assert ReadyIn(after, last, services[last].engine.snapshot.value);
        }
      case _ =>
    }
  }

  lemma ReceiptWasGiven(s: Service) returns (u: Update)
    requires Inv(s) && s.receipt.Some?
    ensures Gave(s.log, s.receipt.value.epoch, u) && s.receipt == ReceiptOf(u, s.receipt.value.epoch)
    ensures u.requestId == Some(s.receipt.value.requestId)
  {
    LiveIsAssigned(s.log);
    var e := Live(s.log).value;
    u := e.update;
    var i :| 0 <= i < |s.log| && s.log[i] == e;
  }

  lemma HandleHonest(submitted: map<nat, Capture>, s: Service, r: Request, raises: bool)
    requires forall j :: 0 <= j < |s.log| && s.log[j].Assigned? ==> Honest(submitted, s.log[j].update)
    requires r.ContextUpdate? ==> Honest(submitted, r.update)
    ensures var s' := Handle(s, r, raises).0;
            forall j :: 0 <= j < |s'.log| && s'.log[j].Assigned? ==> Honest(submitted, s'.log[j].update)
  {
    hide Honest, Find, Put;
  }

  lemma Served(w: World, s: Service)
    requires WorldInv(w) && Inv(s) && Alive(w).log <= s.log
    requires forall j :: 0 <= j < |s.log| && s.log[j].Assigned? ==> Honest(w.submitted, s.log[j].update)
    ensures var services := Serve(w, s).services;
            Extends(w.services, services) && ServicesInv(services) && LogsHonest(w.submitted, services)
  {
    hide Inv, Honest;
  }

  lemma DeliveryKeeps(w: World, call: Call, raises: bool)
    requires WorldInv(w)
    ensures WorldInv(Apply(w, Deliver(call, raises)))
  {
    hide BridgeInv, TakenInv, Inv, Honest, Truthful, PhaseInv, PublishedInv, Handle;
    if call in w.calls {
      var (s, reply) := Handle(Alive(w), call.request, raises);
      HandleKeepsInv(Alive(w), call.request, raises);
      HandleExtendsLog(Alive(w), call.request, raises);
      HandleHonest(w.submitted, Alive(w), call.request, raises);
      Served(w, s);
      HandleTruthful(w.services, call.request, raises);
      ServicesMove(w, Apply(w, Deliver(call, raises)));
    }
  }

  lemma OtherClientKeeps(w: World, request: Request, raises: bool)
    requires WorldInv(w)
    ensures WorldInv(Apply(w, OtherClientCall(request, raises)))
  {
    hide BridgeInv, TakenInv, Inv, Truthful, PhaseInv, PublishedInv, Handle;
    if !FromBridge(request) {
      HandleKeepsInv(Alive(w), request, raises);
      HandleExtendsLog(Alive(w), request, raises);
      HandleHonest(w.submitted, Alive(w), request, raises);
      Served(w, Handle(Alive(w), request, raises).0);
      ServicesMove(w, Apply(w, OtherClientCall(request, raises)));
    }
  }

  lemma EngineKeeps(w: World, a: Action)
    requires WorldInv(w) && !a.Message?
    ensures WorldInv(Serve(w, Act(Alive(w), a)))
  {
    hide BridgeInv, TakenInv, Inv, Truthful, PhaseInv, PublishedInv, Honest;
    ActKeepsInv(Alive(w), a);
    assert Act(Alive(w), a).log == Alive(w).log;
    Served(w, Act(Alive(w), a));
    ServicesMove(w, Serve(w, Act(Alive(w), a)));
  }

  lemma RestartKeeps(w: World)
    requires WorldInv(w)
    ensures WorldInv(Apply(w, Restart))
  {
    hide BridgeInv, TakenInv, Truthful, PhaseInv, PublishedInv, Honest;
    NewServiceInv();
    ServicesMove(w, Apply(w, Restart));
  }

  lemma NewServiceInv()
    ensures Inv(NewService())
  {
    LifetimeInv([]);
  }

  // The callers' side.

  /** Submitting adds one sequence number and disturbs no other. */
  lemma HonestStays(submitted: map<nat, Capture>, n: nat, c: Capture, u: Update)
    requires Honest(submitted, u) && n !in submitted
    ensures Honest(submitted[n := c], u)
  {}

  lemma CallersKeepWork(w: World, w': World)
    requires WorldInv(w)
    requires w' == w.(bridge := w'.bridge, submitted := w'.submitted, lastReset := w'.lastReset)
    requires w'.submitted == w.submitted || (w.bridge.next + 1 in w'.submitted && w'.submitted == w.submitted[w.bridge.next + 1 := w'.submitted[w.bridge.next + 1]])
    requires w'.bridge.published.None? || w'.bridge.published == w.bridge.published
    ensures ServicesInv(w'.services) && LogsHonest(w'.submitted, w'.services) && CallsHonest(w') && AnswersTruthful(w')
    ensures PhaseInv(w') && PublishedInv(w')
  {
    hide Inv, Honest, Truthful, Backed, AssignedIn, Submitted;
    forall u | Honest(w.submitted, u) ensures Honest(w'.submitted, u) {
      if w'.submitted != w.submitted { HonestStays(w.submitted, w.bridge.next + 1, w'.submitted[w.bridge.next + 1], u); }
    }
    PhaseStays(w, w');
    if w'.bridge.published.Some? {
      var p, server :| Submitted(w, p) && p.sequence == w.publishedBy && Backed(w.services, p, w.bridge.published.value.epoch, server)
                       && w.bridge.published.value == IdentityOf(p, w.bridge.published.value.epoch);
      SameSubmitted(w, w', p);
    }
  }

  lemma SubmitKeeps(w: World, c: Capture)
    requires WorldInv(w)
    ensures WorldInv(SubmitTo(w, c))
  {
    hide ServicesInv, LogsHonest, CallsHonest, AnswersTruthful, PhaseInv, PublishedInv, Alive, RequiresImmediateCleanup;
    CallersKeepWork(w, SubmitTo(w, c));
  }

  lemma InvalidateKeeps(w: World)
    requires WorldInv(w)
    ensures WorldInv(Apply(w, InvalidateStep)) && WorldInv(Apply(w, StopStep))
  {
    hide ServicesInv, LogsHonest, CallsHonest, AnswersTruthful, PhaseInv, PublishedInv, Alive, RequiresImmediateCleanup;
    CallersKeepWork(w, Apply(w, InvalidateStep));
    CallersKeepWork(w, Apply(w, StopStep));
  }

  lemma TakeKeeps(w: World)
    requires WorldInv(w)
    ensures WorldInv(TakeNext(w))
  {
    hide ServicesInv, LogsHonest, Honest, Alive, RequiresImmediateCleanup, Truthful, Backed, AssignedIn;
  }

  // The worker's side.

  /** A move of the worker that leaves the bridge's counters and slots alone. */
  lemma WorkerMoves(w: World, w': World)
    requires WorldInv(w) && PhaseInv(w') && PublishedInv(w') && CallsHonest(w')
    requires w' == w.(phase := w'.phase, bridge := w'.bridge, calls := w'.calls, nextCall := w'.nextCall, publishedBy := w'.publishedBy)
    requires w'.bridge == w.bridge.(published := w'.bridge.published, result := w'.bridge.result)
    requires w'.publishedBy <= w.bridge.next && (w'.bridge.published.Some? ==> w'.publishedBy > w'.lastReset)
    ensures WorldInv(w')
  {
    hide ServicesInv, LogsHonest, Honest, RequiresImmediateCleanup, Truthful, Backed, AssignedIn, PhaseInv, PublishedInv, CallsHonest;
  }

  /** Without a publication the published identity stays, or is cleared. */
  lemma SamePublished(w: World, w': World)
    requires PublishedInv(w) && w'.services == w.services && w'.submitted == w.submitted && w'.publishedBy == w.publishedBy
    requires w'.bridge.published == w.bridge.published || w'.bridge.published.None?
    ensures PublishedInv(w')
  {
    hide Backed;
    if w'.bridge.published.Some? {
      var p, server :| Submitted(w, p) && p.sequence == w.publishedBy && Backed(w.services, p, w.bridge.published.value.epoch, server)
                       && w.bridge.published.value == IdentityOf(p, w.bridge.published.value.epoch);
      assert Submitted(w', p);
    }
  }

  lemma EndKeeps(w: World, cleared: bool, result: Result)
    requires WorldInv(w)
    ensures WorldInv(Ends(if cleared then w.(bridge := w.bridge.(published := None)) else w, result))
  {
    hide ServicesInv, LogsHonest, Honest, RequiresImmediateCleanup, Truthful, Backed, AssignedIn, PublishedInv, BridgeInv, TakenInv;
    var w' := Ends(if cleared then w.(bridge := w.bridge.(published := None)) else w, result);
    SamePublished(w, w');
    PublishedAfterReset(w);
    WorkerMoves(w, w');
  }

  lemma PublishedAfterReset(w: World)
    requires BridgeInv(w)
    ensures w.bridge.published.Some? ==> w.publishedBy > w.lastReset
    ensures w.publishedBy <= w.bridge.next
  {}

  /** Sending a call of the submitted update, or moving on without one. */
  lemma MoveKeeps(w: World, cleared: bool, w': World)
    requires WorldInv(w) && PhaseInv(w') && CallsHonest(w')
    requires w' == w.(phase := w'.phase, calls := w'.calls, nextCall := w'.nextCall,
                      bridge := if cleared then w.bridge.(published := None) else w.bridge)
    ensures WorldInv(w')
  {
    hide ServicesInv, LogsHonest, Honest, RequiresImmediateCleanup, Truthful, Backed, AssignedIn, PublishedInv, BridgeInv,
         TakenInv, PhaseInv, CallsHonest;
    SamePublished(w, w');
    PublishedAfterReset(w);
    assert w'.publishedBy == w.publishedBy && w'.lastReset == w.lastReset;
    assert w'.bridge.published.Some? ==> w'.bridge.published == w.bridge.published;
    WorkerMoves(w, w');
  }

  lemma SentIsHonest(w: World, p: Pending, request: Request)
    requires CallsHonest(w) && Submitted(w, p)
    requires request == RequestOf(p) || request == ReceiptRequest(p) || request == HealthRequest(p)
    ensures var calls := w.calls + {Call(w.nextCall, request)};
            forall c :: c in calls ==> c.id < w.nextCall + 1 && FromBridge(c.request) && (c.request.ContextUpdate? ==> Honest(w.submitted, c.request.update))
  {}

  /** Every move between two replies keeps the invariant. */
  lemma SendingKeeps(w: World, timeUp: bool)
    requires WorldInv(w) && (w.phase.Begun? || w.phase.Retrying? || w.phase.Missing? || w.phase.Polling?)
    ensures WorldInv(Work(w, timeUp))
  {
    hide ServicesInv, LogsHonest, Honest, RequiresImmediateCleanup, Truthful, Backed, AssignedIn, PublishedInv, BridgeInv,
         TakenInv, AnswersTruthful, IsContextUpdate, RequestOf, ReceiptRequest;
    var p, w' := w.phase.update, Work(w, timeUp);
    var cleared := w.phase.Begun? && !IsContextUpdate(p.capture);
    if w'.phase.Waiting? {
      EndKeeps(w, cleared, w'.bridge.result);
    } else {
      SentIsHonest(w, p, RequestOf(p));
      SentIsHonest(w, p, ReceiptRequest(p));
      SentIsHonest(w, p, HealthRequest(p));
      MoveKeeps(w, cleared, w');
    }
  }

  /** What an accepted reply proves: the assigned update is the one in hand. */
  lemma AcceptedMeansAssigned(w: World, p: Pending, a: Answer, receipt: bool)
    requires WorldInv(w) && Submitted(w, p) && Truthful(w.services, a)
    requires AcknowledgedEpoch(a.reply, p.sequence, receipt).Some?
    ensures AssignedIn(w.services, a.server, AcknowledgedEpoch(a.reply, p.sequence, receipt).value, UpdateOf(p))
  {
    var epoch := AcknowledgedEpoch(a.reply, p.sequence, receipt).value;
    var u :| AssignedIn(w.services, a.server, epoch, u) && u.requestId == a.reply.requestId;
    AssignedIsHonest(w, a.server, epoch, u);
  }

  lemma AssignedIsHonest(w: World, server: nat, epoch: nat, u: Update)
    requires LogsHonest(w.submitted, w.services) && AssignedIn(w.services, server, epoch, u)
    ensures Honest(w.submitted, u)
  {
    var log := w.services[server].log;
    var i :| 0 <= i < |log| && log[i].Assigned? && log[i].epoch == epoch && log[i].update == u;
  }

  /** What a matching health reply proves: the snapshot under this epoch is the update's text. */
  lemma ReadyMeansText(w: World, p: Pending, epoch: nat, a: Answer)
    requires WorldInv(w) && Truthful(w.services, a) && a.reply.HealthAnswer? && a.reply.epoch == epoch > 0
    requires AssignedIn(w.services, a.server, epoch, UpdateOf(p))
    ensures ReadyIn(w.services, a.server, Context(epoch, p.capture.before, p.capture.after))
  {
    hide RecentOk, FreshLog, EngineGenuine, BindingsGenuine, ReceiptLive;
    var c :| ReadyIn(w.services, a.server, c) && c.epoch == epoch;
    var s := w.services[a.server];
    assert Inv(s);
    assert Genuine(s.log, c);
    var i :| 0 <= i < |s.log| && s.log[i].Assigned? && c == Context(s.log[i].epoch, s.log[i].update.before, s.log[i].update.after);
    var j :| 0 <= j < |s.log| && s.log[j].Assigned? && s.log[j].epoch == epoch && s.log[j].update == UpdateOf(p);
    assert i == j;
  }

  /** Reading a reply keeps the invariant. */
  lemma ReadingKeeps(w: World, timeUp: bool)
    requires WorldInv(w) && (w.phase.AwaitUpdate? || w.phase.AwaitReceipt? || w.phase.Replied? || w.phase.AwaitHealth?)
    ensures WorldInv(Work(w, timeUp))
  {
    hide ServicesInv, LogsHonest, Honest, RequiresImmediateCleanup, Truthful, AssignedIn, ReadyIn, PublishedInv, BridgeInv,
         TakenInv, IsContextUpdate, CallsHonest, AcknowledgedEpoch, IsMissingReceipt, IsFocusAcknowledgement;
    var w' := Work(w, timeUp);
    if w'.phase.Waiting? {
      EndKeeps(w, false, w'.bridge.result);
    } else if w' != w {
      if w.phase.Replied? {
        AcceptedMeansAssigned(w, w.phase.update, w.phase.reply, w.phase.receipt);
        EpochIsPositive(w.phase.reply.reply, w.phase.update.sequence, w.phase.receipt);
      } else if w'.phase.ReadyToPublish? {
        ReadyMeansText(w, w.phase.update, w.phase.epoch, w.answers[w.phase.call]);
      }
      SameCalls(w, w');
      MoveKeeps(w, false, w');
    }
  }

  lemma SameCalls(w: World, w': World)
    requires CallsHonest(w) && w'.calls == w.calls && w'.nextCall == w.nextCall && w'.submitted == w.submitted
    ensures CallsHonest(w')
  {}

  lemma EpochIsPositive(r: Reply, sequence: nat, receipt: bool)
    ensures AcknowledgedEpoch(r, sequence, receipt).Some? ==> AcknowledgedEpoch(r, sequence, receipt).value > 0
  {}

  lemma FailingKeeps(w: World, recoverable: bool, timeUp: bool)
    requires WorldInv(w)
    ensures WorldInv(Fail(w, recoverable, timeUp))
  {
    hide ServicesInv, LogsHonest, Honest, RequiresImmediateCleanup, Truthful, AssignedIn, ReadyIn, PublishedInv, BridgeInv,
         TakenInv, IsContextUpdate, CallsHonest;
    var w' := Fail(w, recoverable, timeUp);
    if w'.phase.Waiting? && w' != w {
      EndKeeps(w, false, w'.bridge.result);
    } else if w' != w {
      SameCalls(w, w');
      MoveKeeps(w, false, w');
    }
  }

  /** The update about to be published was submitted as text after the last reset. */
  lemma PublishesAfterReset(w: World, p: Pending)
    requires WorldInv(w) && ResetsAreNotText(w) && Submitted(w, p) && IsContextUpdate(p.capture) && w.bridge.latest == p.sequence
    ensures p.sequence > w.lastReset
  {}

  /** The last reset was an invalidation, or the submission of something that is not text. */
  ghost predicate ResetsAreNotText(w: World) {
    w.lastReset in w.submitted ==> RequiresImmediateCleanup(w.submitted[w.lastReset])
  }

  lemma ConcludingKeeps(w: World, timeUp: bool)
    requires WorldInv(w) && ResetsAreNotText(w) && w.phase.ReadyToPublish?
    ensures WorldInv(Work(w, timeUp))
  {
    hide ServicesInv, LogsHonest, RequiresImmediateCleanup, Truthful, AssignedIn, ReadyIn, TakenInv, CallsHonest;
    var p, w' := w.phase.update, Work(w, timeUp);
    var epoch, server := w.phase.epoch, w.phase.server;
    SameCalls(w, w');
    if MayPublish(w.bridge, p) {
      AssignedIsHonest(w, server, epoch, UpdateOf(p));
      PublishesAfterReset(w, p);
      assert Submitted(w', p) && Backed(w'.services, p, epoch, server);
      WorkerMoves(w, w');
    } else {
      EndKeeps(w, false, Superseded);
    }
  }

  // ---------------------------------------------------------------------------------
  // Every run.

  lemma StepKeeps(w: World, step: Step)
    requires WorldInv(w) && ResetsAreNotText(w)
    ensures WorldInv(Apply(w, step)) && ResetsAreNotText(Apply(w, step))
  {
    ResetsStay(w, step);
    StepKeepsWorld(w, step);
  }

  lemma ResetsStay(w: World, step: Step)
    requires WorldInv(w) && ResetsAreNotText(w)
    ensures ResetsAreNotText(Apply(w, step))
  {
    hide ServicesInv, LogsHonest, CallsHonest, AnswersTruthful, PhaseInv, PublishedInv, TakenInv, RequiresImmediateCleanup, Handle, Act;
    match step
    case WorkerStep(timeUp) => WorkLeavesResets(w, timeUp);
    case CallFails(recoverable, timeUp) => FailLeavesResets(w, recoverable, timeUp);
    case _ =>
  }

  lemma WorkLeavesResets(w: World, timeUp: bool)
    ensures Work(w, timeUp).lastReset == w.lastReset && Work(w, timeUp).submitted == w.submitted
    ensures Work(w, timeUp).services == w.services
  {
    hide Work;
    if Sends(w.phase) { SendingLeaves(w, timeUp); } else { ReadingLeaves(w, timeUp); }
  }

  /** The moves of the worker that send a call, and those that read a reply or conclude. */
  predicate Sends(phase: Phase) {
    phase.Begun? || phase.Retrying? || phase.Missing? || phase.Polling?
  }

  lemma SendingLeaves(w: World, timeUp: bool)
    requires Sends(w.phase)
    ensures var w' := Work(w, timeUp);
            && w'.lastReset == w.lastReset && w'.submitted == w.submitted && w'.services == w.services
            && w'.bridge.published in {w.bridge.published, None} && w'.publishedBy == w.publishedBy
  {
    hide AcknowledgedEpoch, IsMissingReceipt, IsFocusAcknowledgement, ReadyEpochOf, RequestOf, ReceiptRequest, HealthRequest,
         IsContextUpdate, IsLatest, IdentityOf;
  }

  lemma ReadingLeaves(w: World, timeUp: bool)
    requires !Sends(w.phase)
    ensures var w' := Work(w, timeUp);
            && w'.lastReset == w.lastReset && w'.submitted == w.submitted && w'.services == w.services
            && ((w.phase.ReadyToPublish? && MayPublish(w.bridge, w.phase.update))
                || (w'.bridge.published == w.bridge.published && w'.publishedBy == w.publishedBy))
  {
    hide AcknowledgedEpoch, IsMissingReceipt, IsFocusAcknowledgement, ReadyEpochOf, RequestOf, ReceiptRequest, HealthRequest,
         IsContextUpdate, IsLatest, IdentityOf, Begin, Retry, Resend, Poll, Send;
  }

  lemma FailLeavesResets(w: World, recoverable: bool, timeUp: bool)
    ensures Fail(w, recoverable, timeUp).lastReset == w.lastReset && Fail(w, recoverable, timeUp).submitted == w.submitted
    ensures Fail(w, recoverable, timeUp).services == w.services
  {
    hide AcknowledgedEpoch, IsMissingReceipt, IsFocusAcknowledgement, ReadyEpochOf, RequestOf, ReceiptRequest, HealthRequest,
         IsContextUpdate, IsLatest, IdentityOf;
  }

  lemma StepKeepsWorld(w: World, step: Step)
    requires WorldInv(w) && ResetsAreNotText(w)
    ensures WorldInv(Apply(w, step))
  {
    hide WorldInv, ResetsAreNotText, Handle, Act, Work, Fail, TakeNext, SubmitTo, Serve;
    match step
    case SubmitStep(c) => SubmitKeeps(w, c);
    case InvalidateStep => InvalidateKeeps(w);
    case StopStep => InvalidateKeeps(w);
    case TakeStep => TakeKeeps(w);
    case WorkerStep(timeUp) => WorkKeeps(w, timeUp);
    case CallFails(recoverable, timeUp) => FailingKeeps(w, recoverable, timeUp);
    case Deliver(call, raises) => DeliveryKeeps(w, call, raises);
    case OtherClientCall(request, raises) => OtherClientKeeps(w, request, raises);
    case EngineTakes => EngineKeeps(w, WorkerTakes);
    case EngineFinishes(ok) => EngineKeeps(w, WorkerFinishes(ok));
    case Restart => RestartKeeps(w);
  }

  lemma WorkKeeps(w: World, timeUp: bool)
    requires WorldInv(w) && ResetsAreNotText(w)
    ensures WorldInv(Work(w, timeUp))
  {
    hide WorldInv, ResetsAreNotText;
    if w.phase.ReadyToPublish? {
      ConcludingKeeps(w, timeUp);
    } else if w.phase.Begun? || w.phase.Retrying? || w.phase.Missing? || w.phase.Polling? {
      SendingKeeps(w, timeUp);
    } else if !w.phase.Waiting? {
      ReadingKeeps(w, timeUp);
    }
  }

  lemma {:induction false} RunInv(steps: seq<Step>)
    ensures WorldInv(Run(steps)) && ResetsAreNotText(Run(steps))
  {
    if steps == [] {
      NewServiceInv();
    } else {
      var front := steps[..|steps| - 1];
      RunInv(front);
      StepKeeps(Run(front), steps[|steps| - 1]);
    }
  }

  lemma RunAppend(steps: seq<Step>, step: Step)
    ensures Run(steps + [step]) == Apply(Run(steps), step)
  {
    hide Apply;
    assert (steps + [step])[..|steps|] == steps;
  }

  /** The identity changes to a new one only in the worker's last step. */
  ghost predicate Publishes(w: World, step: Step) {
    step.WorkerStep? && w.phase.ReadyToPublish? && MayPublish(w.bridge, w.phase.update)
  }

  lemma OnlyWorkerPublishes(w: World, step: Step)
    requires w.services != [] && !Publishes(w, step)
    ensures Apply(w, step).bridge.published in {w.bridge.published, None} && Apply(w, step).publishedBy == w.publishedBy
  {
    hide Handle, Act, Work, Fail;
    match step
    case WorkerStep(timeUp) => WorkDoesNotPublish(w, timeUp);
    case CallFails(recoverable, timeUp) => FailDoesNotPublish(w, recoverable, timeUp);
    case _ =>
  }

  lemma WorkDoesNotPublish(w: World, timeUp: bool)
    requires !(w.phase.ReadyToPublish? && MayPublish(w.bridge, w.phase.update))
    ensures Work(w, timeUp).bridge.published in {w.bridge.published, None} && Work(w, timeUp).publishedBy == w.publishedBy
  {
    hide Work;
    if Sends(w.phase) { SendingLeaves(w, timeUp); } else { ReadingLeaves(w, timeUp); }
  }

  lemma FailDoesNotPublish(w: World, recoverable: bool, timeUp: bool)
    ensures Fail(w, recoverable, timeUp).bridge.published == w.bridge.published && Fail(w, recoverable, timeUp).publishedBy == w.publishedBy
  {
    hide AcknowledgedEpoch, IsMissingReceipt, IsFocusAcknowledgement, ReadyEpochOf, RequestOf, ReceiptRequest, HealthRequest,
         IsContextUpdate, IsLatest, IdentityOf;
  }

  lemma LatestIsNext(w: World)
    requires BridgeInv(w)
    ensures w.bridge.latest == w.bridge.next
  {}

  /** In any run, whatever was lost, repeated, delayed, reordered or restarted: when the bridge
      publishes, one service lifetime had given that epoch to exactly the update in hand and had
      reported exactly its text ready under it; the identity is the update's own; and no later
      Submit, Invalidate or Stop has happened. */
  lemma PublicationIsBacked(steps: seq<Step>, step: Step)
    requires Publishes(Run(steps), step)
    ensures var w, w' := Run(steps), Run(steps + [step]);
            var p, epoch, server := w.phase.update, w.phase.epoch, w.phase.server;
            && w'.bridge.published == Some(IdentityOf(p, epoch))
            && Submitted(w, p) && IsContextUpdate(p.capture)
            && AssignedIn(w.services, server, epoch, UpdateOf(p))
            && ReadyIn(w.services, server, Context(epoch, p.capture.before, p.capture.after))
            && !w.bridge.stopping && p.sequence == w.bridge.next
  {
    hide Run, Handle, Act, Fail, ServicesInv, Honest, BridgeInv;
    RunInv(steps);
    RunAppend(steps, step);
    var w := Run(steps);
    LatestIsNext(w);
    AssignedIsHonest(w, w.phase.server, w.phase.epoch, UpdateOf(w.phase.update));
  }

  /** At all times the exposed identity belongs to an update submitted after the last cleanup,
      Invalidate or Stop, and is backed by one service lifetime. */
  lemma ExposedIsBacked(steps: seq<Step>)
    ensures var w := Run(steps);
            w.bridge.published.Some? ==>
              && w.publishedBy > w.lastReset
              && exists p, server :: Submitted(w, p) && p.sequence == w.publishedBy && Backed(w.services, p, w.bridge.published.value.epoch, server)
                                     && w.bridge.published.value == IdentityOf(p, w.bridge.published.value.epoch)
  {
    RunInv(steps);
  }

  // Progress: an update that nothing overtakes is published.

  /** The worker waits for the acknowledgement of the newest update, which is on its way. */
  ghost predicate OnItsWay(w: World, p: Pending, call: nat, attempts: nat) {
    && w.services != [] && !w.bridge.stopping && w.bridge.latest == p.sequence && IsContextUpdate(p.capture)
    && w.phase == AwaitUpdate(p, call, attempts) && Call(call, RequestOf(p)) in w.calls
  }

  lemma SubmittedIsSent(w: World, c: Capture)
    requires w.services != [] && w.phase.Waiting? && !w.bridge.stopping && w.bridge.cleanup.None? && IsContextUpdate(c)
    ensures var w1 := Apply(w, SubmitStep(c));
            w1.services != [] && Apply(w1, TakeStep).services != []
            && var w3 := Apply(Apply(w1, TakeStep), WorkerStep(false));
               OnItsWay(w3, Pending(w.bridge.next + 1, c), w.nextCall, RECOVERY_ATTEMPTS) && w3.services == w.services && w3.nextCall == w.nextCall + 1
  {
    hide RequestOf, IsContextUpdate;
    assert !RequiresImmediateCleanup(c) by { TextIsNoCleanup(c); }
    hide RequiresImmediateCleanup;
  }

  lemma TextIsNoCleanup(c: Capture)
    requires IsContextUpdate(c)
    ensures !RequiresImmediateCleanup(c)
  {}

  /** The worker has the epoch and polls, and the engine has the context queued. */
  ghost predicate Polled(w: World, p: Pending, epoch: nat, attempts: nat, stage: Stage) {
    && w.services != [] && !w.bridge.stopping && w.bridge.latest == p.sequence
    && w.phase == Polling(p, epoch, |w.services| - 1, attempts)
    && Reached(Alive(w).engine, Context(epoch, p.capture.before, p.capture.after), stage) && Accepts(Alive(w), p, epoch)
  }

  /** A query with the identity of this update would pass. */
  ghost predicate Accepts(s: Service, p: Pending, epoch: nat) {
    HasSourceIdentity(p.capture) ==> IdentityAccepted(s, epoch, p.capture.capability, p.capture.revision)
  }

  lemma SentIsAccepted(s: Service, p: Pending)
    requires IsContextUpdate(p.capture) && Queues(s, Message(RequestOf(p), false))
    ensures Accepts(Handle(s, RequestOf(p), false).0, p, s.engine.requested + 1)
  {
    hide Queues, Handle, IdentityAccepted, IsContextUpdate;
    if HasSourceIdentity(p.capture) { BoundIsAccepted(s, UpdateOf(p)); }
  }

  lemma SentIsAnswered(w: World, p: Pending, call: nat, attempts: nat)
    requires OnItsWay(w, p, call, attempts) && Inv(Alive(w)) && Queues(Alive(w), Message(RequestOf(p), false))
    ensures var w1 := Apply(w, Deliver(Call(call, RequestOf(p)), false));
            w1.services != [] && Apply(w1, WorkerStep(false)).services != []
            && var w3 := Apply(Apply(w1, WorkerStep(false)), WorkerStep(false));
               var epoch := Alive(w).engine.requested + 1;
               (Polled(w3, p, epoch, attempts, Behind) || Polled(w3, p, epoch, attempts, Next)) && w3.nextCall == w.nextCall
  {
    hide Inv, Reached, Handle, Queues, IsContextUpdate, Accepts;
    AcceptedStage(Alive(w), UpdateOf(p));
    SentIsAccepted(Alive(w), p);
  }

  /** The reply is lost: the worker asks for the receipt, which names the epoch, and polls. */
  lemma LostReplyRecovers(w: World, p: Pending, call: nat, attempts: nat)
    requires OnItsWay(w, p, call, attempts) && attempts > 0 && Inv(Alive(w)) && Queues(Alive(w), Message(RequestOf(p), false))
    ensures var w1 := Apply(w, Deliver(Call(call, RequestOf(p)), false));
            w1.services != [] && Apply(w1, CallFails(true, false)).services != []
            && var w3 := Apply(Apply(w1, CallFails(true, false)), WorkerStep(false));
               w3.services != []
               && var w4 := Apply(w3, Deliver(Call(w.nextCall, ReceiptRequest(p)), false));
                  w4.services != [] && Apply(w4, WorkerStep(false)).services != []
                  && var w6 := Apply(Apply(w4, WorkerStep(false)), WorkerStep(false));
                     var epoch := Alive(w).engine.requested + 1;
                     (Polled(w6, p, epoch, attempts - 1, Behind) || Polled(w6, p, epoch, attempts - 1, Next)) && w6.nextCall == w.nextCall + 1
  {
    hide Inv, Reached, IsContextUpdate, Handle, Queues, Apply, ReceiptRequest, Polled;
    var s' := Handle(Alive(w), RequestOf(p), false).0;
    AcceptedStage(Alive(w), UpdateOf(p));
    SentIsAccepted(Alive(w), p);
    ReceiptAfter(Alive(w), p);
    ReceiptIsAsked(w, p, call, attempts);
    var w1 := Apply(w, Deliver(Call(call, RequestOf(p)), false));
    var w3 := Apply(Apply(w1, CallFails(true, false)), WorkerStep(false));
    var stage := if Reached(s'.engine, Context(Alive(w).engine.requested + 1, p.capture.before, p.capture.after), Next) then Next else Behind;
    ReceiptIsRead(w3, p, w.nextCall, Alive(w).engine.requested + 1, attempts - 1, stage);
  }

  /** The worker waits for the receipt of the newest update, and the query is on its way. */
  ghost predicate ReceiptAsked(w: World, p: Pending, call: nat, attempts: nat) {
    && w.services != [] && !w.bridge.stopping && w.bridge.latest == p.sequence && IsContextUpdate(p.capture)
    && w.phase == AwaitReceipt(p, call, attempts) && Call(call, ReceiptRequest(p)) in w.calls && w.nextCall == call + 1
  }

  lemma ReceiptIsAsked(w: World, p: Pending, call: nat, attempts: nat)
    requires OnItsWay(w, p, call, attempts) && attempts > 0
    ensures var w1 := Apply(w, Deliver(Call(call, RequestOf(p)), false));
            w1.services != [] && Apply(w1, CallFails(true, false)).services != []
            && var w3 := Apply(Apply(w1, CallFails(true, false)), WorkerStep(false));
               ReceiptAsked(w3, p, w.nextCall, attempts - 1) && Alive(w3) == Handle(Alive(w), RequestOf(p), false).0
  {
    hide Handle, IsContextUpdate, RequestOf, ReceiptRequest;
  }

  lemma ReceiptIsRead(w: World, p: Pending, call: nat, epoch: nat, attempts: nat, stage: Stage)
    requires ReceiptAsked(w, p, call, attempts) && epoch > 0
    requires Handle(Alive(w), ReceiptRequest(p), false) == (Alive(w), ReceiptAnswer(Some(BridgeRequest(p.sequence)), true, epoch, p.sequence))
    requires Reached(Alive(w).engine, Context(epoch, p.capture.before, p.capture.after), stage) && Accepts(Alive(w), p, epoch)
    ensures var w1 := Apply(w, Deliver(Call(call, ReceiptRequest(p)), false));
            w1.services != [] && Apply(w1, WorkerStep(false)).services != []
            && var w3 := Apply(Apply(w1, WorkerStep(false)), WorkerStep(false)); Polled(w3, p, epoch, attempts, stage) && w3.nextCall == w.nextCall
  {
    hide Handle, IsContextUpdate, ReceiptRequest, Reached, Accepts;
  }

  /** After its update was handled the service answers the receipt query with its epoch, and changes nothing. */
  lemma ReceiptAfter(s: Service, p: Pending)
    requires Inv(s) && IsContextUpdate(p.capture) && Queues(s, Message(RequestOf(p), false))
    ensures var s' := Handle(s, RequestOf(p), false).0;
            Handle(s', ReceiptRequest(p), false) ==
              (s', ReceiptAnswer(Some(BridgeRequest(p.sequence)), true, s.engine.requested + 1, p.sequence))
  {
    hide Inv, IsStale, Put, RequestContext, IsContextUpdate;
  }

  /** The request is lost: the receipt query is answered that there is none, and the update goes out again. */
  lemma LostRequestRecovers(w: World, p: Pending, call: nat, attempts: nat)
    requires OnItsWay(w, p, call, attempts) && attempts > 0 && Valid(RequestOf(p)) && w.nextCall > call
    requires Alive(w).receipt.Some? ==> Alive(w).receipt.value.requestId != BridgeRequest(p.sequence)
    ensures var w1 := Apply(w, CallFails(true, false));
            w1.services != [] && Apply(w1, WorkerStep(false)).services != []
            && var w3 := Apply(Apply(w1, WorkerStep(false)), Deliver(Call(w.nextCall, ReceiptRequest(p)), false));
               w3.services != [] && Apply(w3, WorkerStep(false)).services != []
               && var w5 := Apply(Apply(w3, WorkerStep(false)), WorkerStep(false));
                  OnItsWay(w5, p, w.nextCall + 1, attempts - 1) && w5.services == w.services && w5.nextCall == w.nextCall + 2
  {
    hide IsContextUpdate, HandleUpdate, HandleFocus, Apply, ReceiptRequest;
    NoReceiptYet(Alive(w), p);
    QueryIsAsked(w, p, call, attempts);
    var w2 := Apply(Apply(w, CallFails(true, false)), WorkerStep(false));
    UpdateGoesOut(w2, p, w.nextCall, attempts - 1);
  }

  lemma NoReceiptYet(s: Service, p: Pending)
    requires Valid(RequestOf(p)) && IsContextUpdate(p.capture) && (s.receipt.Some? ==> s.receipt.value.requestId != BridgeRequest(p.sequence))
    ensures Handle(s, ReceiptRequest(p), false) == (s, ReceiptAnswer(Some(BridgeRequest(p.sequence)), false, 0, p.sequence))
  {
    hide IsContextUpdate;
  }

  lemma QueryIsAsked(w: World, p: Pending, call: nat, attempts: nat)
    requires OnItsWay(w, p, call, attempts) && attempts > 0
    ensures var w1 := Apply(w, CallFails(true, false));
            w1.services != [] && var w2 := Apply(w1, WorkerStep(false)); ReceiptAsked(w2, p, w.nextCall, attempts - 1) && w2.services == w.services
  {
    hide IsContextUpdate, RequestOf, ReceiptRequest;
  }

  lemma UpdateGoesOut(w: World, p: Pending, call: nat, attempts: nat)
    requires ReceiptAsked(w, p, call, attempts)
    requires Handle(Alive(w), ReceiptRequest(p), false) == (Alive(w), ReceiptAnswer(Some(BridgeRequest(p.sequence)), false, 0, p.sequence))
    ensures var w1 := Apply(w, Deliver(Call(call, ReceiptRequest(p)), false));
            w1.services != [] && Apply(w1, WorkerStep(false)).services != []
            && var w3 := Apply(Apply(w1, WorkerStep(false)), WorkerStep(false));
               OnItsWay(w3, p, call + 1, attempts) && w3.services == w.services && w3.nextCall == call + 2
  {
    hide Handle, IsContextUpdate, ReceiptRequest;
  }

  lemma PolledIsForwarded(w: World, p: Pending, epoch: nat, attempts: nat, stage: Stage)
    requires Polled(w, p, epoch, attempts, stage) && stage in {Behind, Next}
    ensures var w1 := Apply(w, EngineFinishes(true));
            w1.services != [] && Apply(w1, EngineTakes).services != []
            && var w3 := Apply(Apply(w1, EngineTakes), EngineFinishes(true)); Polled(w3, p, epoch, attempts, Done) && w3.nextCall == w.nextCall
  {
    hide Reached, Act, HasSourceIdentity;
    TurnsKeepBindings(Alive(w));
    ThreeTurnsPublish(Alive(w), Context(epoch, p.capture.before, p.capture.after), stage);
  }

  lemma ForwardedIsPublished(w: World, p: Pending, epoch: nat, attempts: nat)
    requires Polled(w, p, epoch, attempts, Done)
    ensures var w1 := Apply(w, WorkerStep(false));
            w1.services != []
            && var w2 := Apply(w1, Deliver(Call(w.nextCall, HealthRequest(p)), false));
               w2.services != [] && Apply(w2, WorkerStep(false)).services != []
               && var w4 := Apply(Apply(w2, WorkerStep(false)), WorkerStep(false));
                  && w4.bridge.published == Some(IdentityOf(p, epoch)) && w4.bridge.result == Published && w4.publishedBy == p.sequence
                  && w4.phase.Waiting? && w4.services != [] && Accepts(Alive(w4), p, epoch)
  {
    hide IdentityOf, IsContextUpdate, HasSourceIdentity;
  }

  lemma TurnsKeepBindings(s: Service)
    ensures Act(Act(Act(s, WorkerFinishes(true)), WorkerTakes), WorkerFinishes(true)).bindings == s.bindings
  {}

  /** What happens when nothing goes wrong: the update is sent, answered, forwarded, reported ready. */
  function Script(w: World, c: Capture): seq<Step> {
    var p := Pending(w.bridge.next + 1, c);
    [SubmitStep(c), TakeStep, WorkerStep(false), Deliver(Call(w.nextCall, RequestOf(p)), false), WorkerStep(false), WorkerStep(false),
     EngineFinishes(true), EngineTakes, EngineFinishes(true),
     WorkerStep(false), Deliver(Call(w.nextCall + 1, HealthRequest(p)), false), WorkerStep(false), WorkerStep(false)]
  }

  /** After any run, whatever is exposed and whatever the engine holds or is still forwarding: a text
      submitted to a waiting worker, that the service does not turn away, is published under the
      next epoch, if nothing goes wrong; with the identity of its source, if it has one, and then
      a query with the exposed identity passes the check of the service. */
  lemma UpdateIsPublished(steps: seq<Step>, c: Capture)
    requires var w := Run(steps);
             && w.phase.Waiting? && !w.bridge.stopping && w.bridge.cleanup.None? && IsContextUpdate(c)
             && !IsStale(Alive(w), UpdateOf(Pending(w.bridge.next + 1, c)))
    ensures var w := Run(steps);
            var p, w' := Pending(w.bridge.next + 1, c), Run(steps + Script(w, c));
            && w'.bridge.published == Some(IdentityOf(p, Alive(w).engine.requested + 1))
            && (if IsCapability(c.capability) && c.revision > 0 && c.security != Password
                then w'.bridge.published.value == Identity(Alive(w).engine.requested + 1, c.capability, c.revision)
                     && IdentityAccepted(Alive(w'), Alive(w).engine.requested + 1, c.capability, c.revision)
                else w'.bridge.published.value == Identity(Alive(w).engine.requested + 1, "", 0))
            && w'.bridge.result == Published && w'.publishedBy == p.sequence && w'.phase.Waiting?
  {
    hide Run, Apply, OnItsWay, Polled, WorldInv, IsStale, Script, IdentityAccepted;
    var w, p := Run(steps), Pending(Run(steps).bridge.next + 1, c);
    var epoch := Alive(w).engine.requested + 1;
    RunInv(steps);
    SubmittedIsSent(w, c);
    var w3 := RunOn(steps, SubmitStep(c), TakeStep, WorkerStep(false));
    TextIsQueued(w, c);
    SentIsAnswered(w3, p, w.nextCall, RECOVERY_ATTEMPTS);
    var s3 := steps + [SubmitStep(c), TakeStep, WorkerStep(false)];
    var w6 := RunOn(s3, Deliver(Call(w.nextCall, RequestOf(p)), false), WorkerStep(false), WorkerStep(false));
    var s6 := s3 + [Deliver(Call(w.nextCall, RequestOf(p)), false), WorkerStep(false), WorkerStep(false)];
    PolledIsForwarded(w6, p, epoch, RECOVERY_ATTEMPTS, if Polled(w6, p, epoch, RECOVERY_ATTEMPTS, Next) then Next else Behind);
    var w9 := RunOn(s6, EngineFinishes(true), EngineTakes, EngineFinishes(true));
    var s9 := s6 + [EngineFinishes(true), EngineTakes, EngineFinishes(true)];
    ForwardedIsPublished(w9, p, epoch, RECOVERY_ATTEMPTS);
    RunAppend(s9, WorkerStep(false));
    var w13 := RunOn(s9 + [WorkerStep(false)], Deliver(Call(w.nextCall + 1, HealthRequest(p)), false), WorkerStep(false), WorkerStep(false));
    ScriptParts(w, c, steps);
  }

  lemma ScriptParts(w: World, c: Capture, steps: seq<Step>)
    ensures var p := Pending(w.bridge.next + 1, c);
            steps + [SubmitStep(c), TakeStep, WorkerStep(false)]
            + [Deliver(Call(w.nextCall, RequestOf(p)), false), WorkerStep(false), WorkerStep(false)]
            + [EngineFinishes(true), EngineTakes, EngineFinishes(true)] + [WorkerStep(false)]
            + [Deliver(Call(w.nextCall + 1, HealthRequest(p)), false), WorkerStep(false), WorkerStep(false)]
            == steps + Script(w, c)
  {
    hide RequestOf, HealthRequest;
  }

  /** Three steps on end. */
  lemma RunOn(steps: seq<Step>, a: Step, b: Step, c: Step) returns (w: World)
    ensures w == Run(steps + [a, b, c])
    ensures Apply(Run(steps), a).services != [] && Apply(Apply(Run(steps), a), b).services != []
    ensures w == Apply(Apply(Apply(Run(steps), a), b), c)
  {
    hide Run, Apply;
    RunAppend(steps, a);
    RunAppend(steps + [a], b);
    RunAppend(steps + [a] + [b], c);
    assert steps + [a] + [b] + [c] == steps + [a, b, c];
    w := Run(steps + [a, b, c]);
  }

  /** The request of a text update is valid, and queued if it is not stale. */
  lemma TextIsQueued(w: World, c: Capture)
    requires w.services != [] && WorldInv(w) && IsContextUpdate(c)
    requires !IsStale(Alive(w), UpdateOf(Pending(w.bridge.next + 1, c)))
    ensures Inv(Alive(w)) && Queues(Alive(w), Message(RequestOf(Pending(w.bridge.next + 1, c)), false))
  {
    hide Inv, IsStale, LogsHonest, CallsHonest, AnswersTruthful, PhaseInv, PublishedInv, TakenInv, BridgeInv;
  }

  // Secure work is cleared, never sent.

  /** Whatever text the bridge sends was submitted, as text that was captured, converts, and is
      neither secure nor from a password field; anything else only ever leaves it as a secure focus. */
  lemma OnlyTextIsSent(steps: seq<Step>, call: Call)
    requires call in Run(steps).calls && call.request.ContextUpdate?
    ensures var u, submitted := call.request.update, Run(steps).submitted;
            && u.requestId.Some? && u.requestId.value.BridgeRequest?
            && var n := u.requestId.value.sequence;
               n in submitted
               && var c := submitted[n];
                  && c.captured && c.convertible && !c.secure && c.security != Password
                  && u.clientEpoch == n && u.before == c.before && u.after == c.after
  {
    RunInv(steps);
  }

  /** Sent as a secure focus, answered, and read. */
  function CleanupScript(w: World, c: Capture): seq<Step> {
    var p := Pending(w.bridge.next + 1, c);
    [SubmitStep(c), TakeStep, WorkerStep(false), Deliver(Call(w.nextCall, RequestOf(p)), false), WorkerStep(false), WorkerStep(false)]
  }

  /** The identity is gone, and so is everything the service knew. */
  ghost predicate Cleared(w: World) {
    && w.services != [] && w.bridge.published.None? && w.bridge.result == SecureContextCleared && w.phase.Waiting?
    && Alive(w).engine.snapshot.None? && Alive(w).engine.snapshots == [] && Alive(w).engine.pending.None?
    && (Alive(w).engine.worker.Forwarding? ==> Alive(w).engine.worker.context.epoch < Alive(w).engine.requested)
    && Alive(w).bindings == [] && Alive(w).receipt.None?
  }

  /** After any run: a password field, a secure desktop or a failed capture submitted to a waiting
      worker ends, if nothing goes wrong, with no identity exposed and a service that has forgotten. */
  lemma SecureIsCleared(steps: seq<Step>, c: Capture)
    requires var w := Run(steps); w.phase.Waiting? && !w.bridge.stopping && RequiresImmediateCleanup(c)
    ensures Cleared(Run(steps + CleanupScript(Run(steps), c)))
  {
    hide Run, Apply, WorldInv, Cleared, RequiresImmediateCleanup, CleanupScript;
    var w, p := Run(steps), Pending(Run(steps).bridge.next + 1, c);
    RunInv(steps);
    SecureIsSent(w, c);
    var w3 := RunOn(steps, SubmitStep(c), TakeStep, WorkerStep(false));
    AliveIsSound(w);
    SentIsCleared(w3, p, w.nextCall);
    var s3 := steps + [SubmitStep(c), TakeStep, WorkerStep(false)];
    var w6 := RunOn(s3, Deliver(Call(w.nextCall, RequestOf(p)), false), WorkerStep(false), WorkerStep(false));
    assert s3 + [Deliver(Call(w.nextCall, RequestOf(p)), false), WorkerStep(false), WorkerStep(false)] == steps + CleanupScript(w, c) by {
      CleanupParts(w, c, steps);
    }
  }

  lemma CleanupParts(w: World, c: Capture, steps: seq<Step>)
    ensures steps + [SubmitStep(c), TakeStep, WorkerStep(false)]
            + [Deliver(Call(w.nextCall, RequestOf(Pending(w.bridge.next + 1, c))), false), WorkerStep(false), WorkerStep(false)]
            == steps + CleanupScript(w, c)
  {
    hide RequestOf;
  }

  lemma AliveIsSound(w: World)
    requires WorldInv(w)
    ensures Inv(Alive(w))
  {
    hide Inv, LogsHonest, CallsHonest, AnswersTruthful, PhaseInv, PublishedInv, TakenInv, BridgeInv;
  }

  lemma SecureIsSent(w: World, c: Capture)
    requires w.services != [] && w.phase.Waiting? && !w.bridge.stopping && RequiresImmediateCleanup(c)
    ensures var w1 := Apply(w, SubmitStep(c));
            w1.services != [] && Apply(w1, TakeStep).services != []
            && var w3, p := Apply(Apply(w1, TakeStep), WorkerStep(false)), Pending(w.bridge.next + 1, c);
               && w3.services == w.services && w3.bridge.published.None? && !IsContextUpdate(c)
               && w3.phase == AwaitUpdate(p, w.nextCall, RECOVERY_ATTEMPTS) && Call(w.nextCall, RequestOf(p)) in w3.calls
  {
    hide RequestOf;
    assert !IsContextUpdate(c);
    hide IsContextUpdate, RequiresImmediateCleanup;
  }

  lemma SentIsCleared(w: World, p: Pending, call: nat)
    requires w.services != [] && Inv(Alive(w)) && w.bridge.published.None? && !IsContextUpdate(p.capture)
    requires w.phase == AwaitUpdate(p, call, RECOVERY_ATTEMPTS) && Call(call, RequestOf(p)) in w.calls
    ensures var w1 := Apply(w, Deliver(Call(call, RequestOf(p)), false));
            w1.services != [] && Apply(w1, WorkerStep(false)).services != []
            && Cleared(Apply(Apply(w1, WorkerStep(false)), WorkerStep(false)))
  {
    FocusForgets(Alive(w), RequestOf(p), false);
    hide Inv, IsContextUpdate;
  }

  predicate Resets(w: World, step: Step) {
    match step
    case SubmitStep(c) => !w.bridge.stopping && RequiresImmediateCleanup(c)
    case InvalidateStep => true
    case StopStep => !w.bridge.stopping
    case _ => false
  }

  /** A cleanup Submit, an Invalidate or a Stop empties the identity at once, and it stays
      empty until an update with a later sequence number publishes. */
  lemma ResetStaysEmpty(steps: seq<Step>, reset: Step, more: seq<Step>)
    requires Resets(Run(steps), reset)
    ensures Run(steps + [reset]).bridge.published.None?
    ensures var w := Run(steps + [reset] + more);
            w.bridge.published.Some? ==> w.publishedBy > Run(steps + [reset]).bridge.next
  {
    hide Run, ServicesInv, LogsHonest, CallsHonest, AnswersTruthful, PhaseInv, PublishedInv, TakenInv, Handle, Act, Work, Fail, TakeNext;
    var start := steps + [reset];
    RunAppend(steps, reset);
    RunInv(steps);
    RunInv(start + more);
    ResetsOnlyGrow(start, more);
  }

  lemma {:induction false} ResetsOnlyGrow(start: seq<Step>, more: seq<Step>)
    ensures Run(start).lastReset <= Run(start + more).lastReset
  {
    if more == [] {
      assert start + more == start;
    } else {
      hide Run, Apply, WorldInv, ResetsAreNotText;
      var front := more[..|more| - 1];
      ResetsOnlyGrow(start, front);
      RunInv(start + front);
      RunAppend(start + front, more[|more| - 1]);
      assert start + more == start + front + [more[|more| - 1]];
      ResetGrows(Run(start + front), more[|more| - 1]);
    }
  }

  lemma ResetGrows(w: World, step: Step)
    requires WorldInv(w)
    ensures w.lastReset <= Apply(w, step).lastReset
  {
    hide ServicesInv, LogsHonest, CallsHonest, AnswersTruthful, PhaseInv, PublishedInv, TakenInv, Handle, Act;
    match step
    case WorkerStep(timeUp) => WorkLeavesResets(w, timeUp);
    case CallFails(recoverable, timeUp) => FailLeavesResets(w, recoverable, timeUp);
    case _ =>
  }

  /** The worker processes strictly increasing sequence numbers. */
  lemma SequencesIncrease(steps: seq<Step>, i: nat, j: nat)
    requires i < j < |Run(steps).taken|
    ensures Run(steps).taken[i] < Run(steps).taken[j]
  {
    RunInv(steps);
  }

  /** When both slots are full the cleanup is the older one, and it is taken first. */
  lemma CleanupGoesFirst(steps: seq<Step>)
    ensures var b := Run(steps).bridge;
            b.cleanup.Some? && b.pending.Some? ==>
              b.cleanup.value.sequence < b.pending.value.sequence && NextUpdate(b) == b.cleanup && Taken(b).pending == b.pending
  {
    RunInv(steps);
  }

  /** Submitting text never discards a queued cleanup. */
  lemma TextKeepsCleanup(steps: seq<Step>, c: Capture)
    requires !RequiresImmediateCleanup(c)
    ensures Run(steps + [SubmitStep(c)]).bridge.cleanup == Run(steps).bridge.cleanup
    ensures !Run(steps).bridge.stopping ==> Run(steps + [SubmitStep(c)]).bridge.pending == Some(Pending(Run(steps).bridge.next + 1, c))
  {
    hide Run, Handle, Act, Work, Fail, TakeNext;
    RunAppend(steps, SubmitStep(c));
  }

  /** A query that carries the exposed identity is accepted by the service only for an update of that
      capability and revision; and if the lifetime that answers backs the publication itself, it is
      the published update, whose text that lifetime has reported ready. */
  lemma ExposedIdentityIsBound(steps: seq<Step>)
    requires Run(steps).bridge.published.Some?
    requires var w, id := Run(steps), Run(steps).bridge.published.value;
             IdentityAccepted(Alive(w), id.epoch, id.capability, id.revision)
    ensures var w := Run(steps); var id, alive := w.bridge.published.value, |w.services| - 1;
            exists p, server, u ::
              && Submitted(w, p) && p.sequence == w.publishedBy && id == IdentityOf(p, id.epoch) && Backed(w.services, p, id.epoch, server)
              && AssignedIn(w.services, alive, id.epoch, u)
              && u.binding.Some? && u.binding.value.capability == id.capability && u.binding.value.revision == id.revision
              && (Backed(w.services, p, id.epoch, alive) ==> u == UpdateOf(p))
  {
    hide Run, Inv, IdentityAccepted, Submitted, IdentityOf;
    RunInv(steps);
    var w := Run(steps);
    var id, alive := w.bridge.published.value, |w.services| - 1;
    var u := IdentityWasGiven(Alive(w), id.epoch, id.capability, id.revision);
    assert AssignedIn(w.services, alive, id.epoch, u);
    var p, server :| Submitted(w, p) && p.sequence == w.publishedBy && Backed(w.services, p, id.epoch, server) && id == IdentityOf(p, id.epoch);
    if Backed(w.services, p, id.epoch, alive) { OneUpdatePerEpoch(Alive(w), id.epoch, u, UpdateOf(p)); }
  }

  /** Within one lifetime an epoch belongs to one update. */
  lemma OneUpdatePerEpoch(s: Service, epoch: nat, u: Update, v: Update)
    requires Inv(s) && Gave(s.log, epoch, u) && Gave(s.log, epoch, v)
    ensures u == v
  {
    hide RecentOk, FreshLog, ReportsGenuine, EngineGenuine, ReceiptLive, BindingsGenuine;
    var i :| 0 <= i < |s.log| && s.log[i].Assigned? && s.log[i].epoch == epoch && s.log[i].update == u;
    var j :| 0 <= j < |s.log| && s.log[j].Assigned? && s.log[j].epoch == epoch && s.log[j].update == v;
  }

  lemma IdentityWasGiven(s: Service, epoch: nat, capability: string, revision: nat) returns (u: Update)
    requires Inv(s)
    requires IdentityAccepted(s, epoch, capability, revision)
    ensures Gave(s.log, epoch, u) && u.binding.Some? && u.binding.value.capability == capability && u.binding.value.revision == revision
  {
    hide RecentOk, FreshLog, ReportsGenuine, EngineGenuine, ReceiptLive;
    var b := Find(s.bindings, epoch).value;
    assert (epoch, b) in s.bindings;
    var i :| 0 <= i < |s.log| && s.log[i].Assigned? && s.log[i].acknowledged && s.log[i].epoch == epoch && s.log[i].update.binding == Some(b);
    u := s.log[i].update;
  }

  // ---------------------------------------------------------------------------------
  // The object whose fields the bridge state is.

  /** The process-wide cell that candidate queries read. */
  class EditorContextEpoch {
    var accepted: Option<Identity>

    constructor ()
      ensures accepted.None?
    {
      accepted := None;
    }

    method PublishIdentity(id: Identity)
      modifies this
      ensures accepted == Some(id)
    {
      accepted := Some(id);
    }

    method Reset()
      modifies this
      ensures accepted.None?
    {
      accepted := None;
    }
  }

  /** The bridge's fields; each method is one section under its mutex. */
  class ContextUpdateBridge {
    const exposed: EditorContextEpoch
    var nextSequence: nat
    var latestSequence: nat
    var stopping: bool
    var cleanupPending: Option<Pending>
    var pendingUpdate: Option<Pending>
    var lastResult: Result

    constructor ()
      ensures fresh(exposed) && State() == NewBridge()
    {
      exposed := new EditorContextEpoch();
      nextSequence, latestSequence, stopping := 0, 0, false;
      cleanupPending, pendingUpdate, lastResult := None, None, Idle;
    }

    function State(): Bridge
      reads this, exposed
    {
      Bridge(nextSequence, latestSequence, stopping, cleanupPending, pendingUpdate, exposed.accepted, lastResult)
    }

    method SubmitUpdate(c: Capture) returns (sequence: nat)
      modifies this, exposed
      ensures State() == Submit(old(State()), c)
      ensures sequence == if old(stopping) then 0 else old(nextSequence) + 1
    {
      if stopping { return 0; }
      nextSequence := nextSequence + 1;
      sequence := nextSequence;
      latestSequence := sequence;
      var update := Pending(sequence, c);
      if RequiresImmediateCleanup(c) {
        exposed.Reset();
        cleanupPending := Some(update);
        pendingUpdate := None;
      } else {
        pendingUpdate := Some(update);
      }
      lastResult := Queued;
    }

    method InvalidateAll()
      modifies this, exposed
      ensures State() == Invalidate(old(State()))
    {
      nextSequence := nextSequence + 1;
      latestSequence := nextSequence;
      cleanupPending, pendingUpdate := None, None;
      exposed.Reset();
      lastResult := Superseded;
    }

    method StopWorker()
      modifies this, exposed
      ensures State() == Stop(old(State()))
    {
      if stopping { return; }
      stopping := true;
      nextSequence := nextSequence + 1;
      latestSequence := nextSequence;
      cleanupPending, pendingUpdate := None, None;
      exposed.Reset();
    }

    /** The locked part of one turn of the worker loop. */
    method TakeUpdate() returns (update: Option<Pending>)
      modifies this
      ensures update == NextUpdate(old(State())) && State() == Taken(old(State()))
    {
      if stopping { return None; }
      if cleanupPending.Some? {
        update := cleanupPending;
        cleanupPending := None;
      } else {
        update := pendingUpdate;
        pendingUpdate := None;
      }
    }

    /** The locked part at the end of one update. */
    method PublishReady(update: Pending, epoch: nat)
      modifies this, exposed
      ensures State() == Publish(old(State()), update, epoch)
    {
      if stopping || latestSequence != update.sequence {
        lastResult := Superseded;
        return;
      }
      if HasSourceIdentity(update.capture) {
        exposed.PublishIdentity(Identity(epoch, update.capture.capability, update.capture.revision));
      } else {
        exposed.PublishIdentity(Identity(epoch, "", 0));
      }
      lastResult := Published;
    }
  }
}
