/** The model service's side of the editor context protocol: epoch assignment and snapshot
    publication (engine.py), update acceptance, receipts and bindings (pipe_server.py). */
module ContextService {
  import opened Wrappers

  const MAX_CONTEXT_BINDINGS: nat := 8
  const MAX_SNAPSHOTS: nat := 4

  // ---------------------------------------------------------------------------------
  // Messages.

  /** Request identifiers: those of the bridge, ctx-<sequence>, and those of other clients. */
  datatype RequestId = BridgeRequest(sequence: nat) | OtherClient(name: string)

  datatype Binding = Binding(capability: string, revision: nat, security: string)

  datatype Update = Update(clientEpoch: nat, requestId: Option<RequestId>, sessionId: Option<string>,
                           binding: Option<Binding>, before: string, after: string)

  datatype Request =
    | ContextUpdate(update: Update)
    | ReceiptQuery(clientEpoch: nat, requestId: RequestId, sessionId: Option<string>, binding: Option<Binding>)
    | Health(healthId: Option<RequestId>)
    | Focus(focusId: Option<RequestId>, focusSession: string, focused: bool, secure: bool)
    | ResetSession(resetId: Option<RequestId>)

  datatype Reply =
    | Acknowledged(requestId: Option<RequestId>, accepted: bool, epoch: nat, clientEpoch: nat)
    | ReceiptAnswer(requestId: Option<RequestId>, accepted: bool, epoch: nat, clientEpoch: nat)
    | HealthAnswer(requestId: Option<RequestId>, epoch: nat)
    | FocusAnswer(requestId: Option<RequestId>, sessionId: string, secure: bool)
    | ResetAnswer(requestId: Option<RequestId>)
    | Failure(requestId: Option<RequestId>)

  function IdOf(r: Request): Option<RequestId> {
    match r
    case ContextUpdate(u) => u.requestId
    case ReceiptQuery(_, id, _, _) => Some(id)
    case Health(id) => id
    case Focus(id, _, _, _) => id
    case ResetSession(id) => id
  }

  predicate IsCapability(s: string) {
    |s| == 32 && forall i :: 0 <= i < 32 ==> '0' <= s[i] <= '9' || 'a' <= s[i] <= 'f'
  }

  predicate BindingOk(b: Option<Binding>) {
    b.Some? ==> IsCapability(b.value.capability) && b.value.revision >= 1 && b.value.security in {"normal", "private"}
  }

  /** Field validation; anything else is answered with an error and changes nothing. */
  predicate Valid(r: Request) {
    match r
    case ContextUpdate(u) => u.clientEpoch >= 1 && BindingOk(u.binding)
    case ReceiptQuery(epoch, _, _, b) => epoch >= 1 && BindingOk(b)
    case _ => true
  }

  // ---------------------------------------------------------------------------------
  // Bounded ordered dictionaries: oldest entry first.

  function Without<K(==,!new), V(!new)>(d: seq<(K, V)>, k: K): (r: seq<(K, V)>)
    ensures |r| <= |d|
    ensures forall p :: p in r <==> p in d && p.0 != k
  {
    if d == [] then [] else (if d[0].0 == k then [] else [d[0]]) + Without(d[1..], k)
  }

  function Newest<T>(d: seq<T>, limit: nat): (r: seq<T>)
    ensures |r| <= limit
  {
    if |d| <= limit then d else d[|d| - limit..]
  }

  function Put<K(==,!new), V(!new)>(d: seq<(K, V)>, k: K, v: V, limit: nat): seq<(K, V)> {
    Newest(Without(d, k) + [(k, v)], limit)
  }

  function Find<K(==,!new), V(!new)>(d: seq<(K, V)>, k: K): (r: Option<V>)
    ensures r.Some? ==> (k, r.value) in d
    ensures r.None? ==> forall p :: p in d ==> p.0 != k
  {
    if d == [] then None else if d[0].0 == k then Some(d[0].1) else Find(d[1..], k)
  }

  // ---------------------------------------------------------------------------------
  // The engine.

  /** A context with its epoch: a queued request, a running forward or a finished snapshot. */
  datatype Context = Context(epoch: nat, before: string, after: string)

  datatype Worker = NoWorker | Between | Forwarding(context: Context)

  datatype EngineState = EngineState(requested: nat, pending: Option<Context>, worker: Worker,
                                     snapshot: Option<Context>, snapshots: seq<Context>)

  function NewEngine(): EngineState {
    EngineState(0, None, NoWorker, None, [])
  }

  /** Queue the newest context. Starting the worker thread may raise, after the epoch is taken. */
  function RequestContext(g: EngineState, before: string, after: string, raises: bool): EngineState {
    var epoch := g.requested + 1;
    g.(requested := epoch, pending := Some(Context(epoch, before, after)),
       worker := if g.worker.NoWorker? && !raises then Between else g.worker)
  }

  /** The worker reads the queue under the lock, and retires there when it is empty. */
  function TakePending(g: EngineState): EngineState {
    if !g.worker.Between? then g
    else if g.pending.None? then g.(worker := NoWorker)
    else g.(pending := None, worker := Forwarding(g.pending.value))
  }

  function PublishSnapshot(g: EngineState, c: Context): EngineState {
    g.(snapshot := Some(c), snapshots := Newest(g.snapshots + [c], MAX_SNAPSHOTS))
  }

  /** A forward ends: published if nothing newer was requested; an exception ends the thread. */
  function FinishForward(g: EngineState, ok: bool): EngineState {
    if !g.worker.Forwarding? then g
    else if !ok then g.(worker := NoWorker)
    else
      var c := g.worker.context;
      var idle := g.(worker := Between);
      if c.epoch == g.requested then PublishSnapshot(idle, c) else idle
  }

  /** The private reset takes an epoch and drops the queue; wiping the model's cache may then raise,
      and only after it are the snapshots dropped. */
  function ResetPrivate(g: EngineState, raises: bool): EngineState {
    var begun := g.(requested := g.requested + 1, pending := None);
    if raises then begun else begun.(snapshot := None, snapshots := [])
  }

  function ReadyEpoch(g: EngineState): nat {
    if g.snapshot.Some? then g.snapshot.value.epoch else 0
  }

  // ---------------------------------------------------------------------------------
  // The service.

  datatype Receipt = Receipt(clientEpoch: nat, requestId: RequestId, sessionId: Option<string>, binding: Option<Binding>, epoch: nat)

  /** What happened in one service lifetime, oldest first. */
  datatype Event =
    | Assigned(epoch: nat, update: Update, acknowledged: bool)   // an epoch was given to an update
    | FocusSecured                                               // a secure focus
    | SessionReset(ready: nat)                                   // a session reset, while this epoch was ready
    | Reported(context: Context)                                 // health named this snapshot ready

  datatype Service = Service(engine: EngineState, latestClientEpoch: nat, requestedEpoch: nat,
                             bindings: seq<(nat, Binding)>, revisions: seq<(string, nat)>,
                             receipt: Option<Receipt>, log: seq<Event>)

  function NewService(): Service {
    Service(NewEngine(), 0, 0, [], [], None, [])
  }

  predicate IsStale(s: Service, u: Update) {
    match u.binding
    case None => u.clientEpoch <= s.latestClientEpoch
    case Some(b) =>
      var latest := Find(s.revisions, b.capability);
      latest.Some? && b.revision <= latest.value
  }

  function Remember(s: Service, u: Update): Service {
    match u.binding
    case None => s.(latestClientEpoch := u.clientEpoch)
    case Some(b) => s.(revisions := Put(s.revisions, b.capability, b.revision, MAX_CONTEXT_BINDINGS))
  }

  function RememberBinding(s: Service, epoch: nat, binding: Option<Binding>): Service {
    if binding.None? then s else s.(bindings := Put(s.bindings, epoch, binding.value, MAX_CONTEXT_BINDINGS))
  }

  function ReceiptOf(u: Update, epoch: nat): Option<Receipt> {
    if u.requestId.None? then None
    else Some(Receipt(u.clientEpoch, u.requestId.value, u.sessionId, u.binding, epoch))
  }

  function Noted(s: Service, e: Event): Service {
    s.(log := s.log + [e])
  }

  function HandleUpdate(s: Service, u: Update, raises: bool): (Service, Reply) {
    if IsStale(s, u) then
      (s, Acknowledged(u.requestId, false, s.requestedEpoch, u.clientEpoch))
    else
      var epoch := s.engine.requested + 1;
      var asked := Noted(s.(receipt := None, engine := RequestContext(s.engine, u.before, u.after, raises)), Assigned(epoch, u, !raises));
      if raises then (asked, Failure(u.requestId))
      else
        (RememberBinding(Remember(asked, u).(requestedEpoch := epoch), epoch, u.binding).(receipt := ReceiptOf(u, epoch)),
         Acknowledged(u.requestId, true, epoch, u.clientEpoch))
  }

  predicate Matches(r: Receipt, q: Request)
    requires q.ReceiptQuery?
  {
    r.clientEpoch == q.clientEpoch && r.requestId == q.requestId && r.sessionId == q.sessionId && r.binding == q.binding
  }

  function AnswerReceipt(s: Service, q: Request): Reply
    requires q.ReceiptQuery?
  {
    if s.receipt.Some? && Matches(s.receipt.value, q)
    then ReceiptAnswer(Some(q.requestId), true, s.receipt.value.epoch, q.clientEpoch)
    else ReceiptAnswer(Some(q.requestId), false, 0, q.clientEpoch)
  }

  /** Secure focus clears the receipt and the bindings first; then the engine, which may raise on the way. */
  function HandleFocus(s: Service, r: Request, raises: bool): (Service, Reply)
    requires r.Focus?
  {
    if !r.secure then (s, FocusAnswer(r.focusId, r.focusSession, r.secure))
    else
      (Noted(s.(receipt := None, bindings := [], engine := ResetPrivate(s.engine, raises)), FocusSecured),
       if raises then Failure(r.focusId) else FocusAnswer(r.focusId, r.focusSession, r.secure))
  }

  function Handle(s: Service, r: Request, raises: bool): (Service, Reply) {
    if !Valid(r) then (s, Failure(IdOf(r)))
    else match r
      case ContextUpdate(u) => HandleUpdate(s, u, raises)
      case ReceiptQuery(_, _, _, _) => (s, AnswerReceipt(s, r))
      case Health(id) =>
        (if s.engine.snapshot.Some? then Noted(s, Reported(s.engine.snapshot.value)) else s, HealthAnswer(id, ReadyEpoch(s.engine)))
      case Focus(_, _, _, _) => HandleFocus(s, r, raises)
      case ResetSession(id) =>
        (Noted(s.(receipt := None, requestedEpoch := ReadyEpoch(s.engine)), SessionReset(ReadyEpoch(s.engine))), ResetAnswer(id))
  }

  /** A query that names an editor context identity must name the one its epoch is bound to. */
  predicate IdentityAccepted(s: Service, epoch: nat, capability: string, revision: nat) {
    && epoch != 0
    && var b := Find(s.bindings, epoch);
       b.Some? && b.value.capability == capability && b.value.revision == revision
  }

  // ---------------------------------------------------------------------------------
  // Runs of one service lifetime.

  datatype Action = Message(request: Request, raises: bool) | WorkerTakes | WorkerFinishes(ok: bool)

  function Act(s: Service, a: Action): Service {
    match a
    case Message(r, raises) => Handle(s, r, raises).0
    case WorkerTakes => s.(engine := TakePending(s.engine))
    case WorkerFinishes(ok) => s.(engine := FinishForward(s.engine, ok))
  }

  function Lifetime(actions: seq<Action>): Service {
    if actions == [] then NewService() else Act(Lifetime(actions[..|actions| - 1]), actions[|actions| - 1])
  }

  ghost predicate Gave(log: seq<Event>, epoch: nat, u: Update) {
    exists i :: 0 <= i < |log| && log[i].Assigned? && log[i].epoch == epoch && log[i].update == u
  }

  /** The context is the text of the update that got its epoch. */
  ghost predicate Genuine(log: seq<Event>, c: Context) {
    exists i :: 0 <= i < |log| && log[i].Assigned? && c == Context(log[i].epoch, log[i].update.before, log[i].update.after)
  }

  /** Epochs are given out in strictly increasing order, none beyond the counter. */
  ghost predicate EpochsIncrease(log: seq<Event>, counter: nat) {
    && (forall i :: 0 <= i < |log| && log[i].Assigned? ==> 0 < log[i].epoch <= counter)
    && (forall i, j :: 0 <= i < j < |log| && log[i].Assigned? && log[j].Assigned? ==> log[i].epoch < log[j].epoch)
  }

  ghost predicate EngineGenuine(log: seq<Event>, g: EngineState) {
    && (g.pending.Some? ==> Genuine(log, g.pending.value))
    && (g.worker.Forwarding? ==> Genuine(log, g.worker.context))
    && (g.snapshot.Some? ==> Genuine(log, g.snapshot.value))
  }

  ghost predicate ReportsGenuine(log: seq<Event>) {
    forall i :: 0 <= i < |log| && log[i].Reported? ==> Genuine(log, log[i].context)
  }

  ghost predicate BindingsGenuine(log: seq<Event>, bindings: seq<(nat, Binding)>) {
    forall p :: p in bindings ==> exists i :: 0 <= i < |log| && log[i].Assigned? && log[i].acknowledged
                                              && log[i].epoch == p.0 && log[i].update.binding == Some(p.1)
  }

  /** The assignment a receipt may speak of: the last acknowledged one, unless something
      has cleared it or a failed update has come after it. */
  function Live(log: seq<Event>): Option<Event> {
    if log == [] then None
    else
      var last := log[|log| - 1];
      match last
      case Reported(_) => Live(log[..|log| - 1])
      case Assigned(_, _, acknowledged) => if acknowledged then Some(last) else None
      case _ => None
  }

  ghost predicate ReceiptLive(log: seq<Event>, receipt: Option<Receipt>) {
    match Live(log)
    case Some(Assigned(epoch, u, _)) => receipt == ReceiptOf(u, epoch)
    case _ => receipt.None?
  }

  /** The bindings given with acknowledged updates since the last secure focus, oldest first. */
  function BindingsIn(log: seq<Event>): seq<(nat, Binding)> {
    if log == [] then []
    else
      var front := BindingsIn(log[..|log| - 1]);
      match log[|log| - 1]
      case Assigned(epoch, u, acknowledged) => if acknowledged && u.binding.Some? then front + [(epoch, u.binding.value)] else front
      case FocusSecured => []
      case _ => front
  }

  /** The client epoch of the last acknowledged update without a binding. */
  function LastClientEpoch(log: seq<Event>): nat {
    if log == [] then 0
    else
      var e := log[|log| - 1];
      if e.Assigned? && e.acknowledged && e.update.binding.None? then e.update.clientEpoch else LastClientEpoch(log[..|log| - 1])
  }

  /** The epoch an update that is turned away is told of: the last acknowledged one, or the one that
      was ready at a session reset since. */
  function LastEpoch(log: seq<Event>): nat {
    if log == [] then 0
    else
      match log[|log| - 1]
      case Assigned(epoch, _, true) => epoch
      case SessionReset(ready) => ready
      case _ => LastEpoch(log[..|log| - 1])
  }

  ghost predicate FieldsExact(s: Service) {
    && s.bindings == Newest(BindingsIn(s.log), MAX_CONTEXT_BINDINGS)
    && s.latestClientEpoch == LastClientEpoch(s.log) && s.requestedEpoch == LastEpoch(s.log)
  }

  ghost predicate Inv(s: Service) {
    && FieldsExact(s)
    && EpochsIncrease(s.log, s.engine.requested)
    && EngineGenuine(s.log, s.engine) && ReportsGenuine(s.log) && BindingsGenuine(s.log, s.bindings)
    && ReceiptLive(s.log, s.receipt)
    && RecentOk(Bound(s.log), s.revisions) && FreshLog(s.log)
  }

  lemma GenuineStays(log: seq<Event>, e: Event, c: Context)
    requires Genuine(log, c)
    ensures Genuine(log + [e], c)
  {
    var i :| 0 <= i < |log| && log[i].Assigned? && c == Context(log[i].epoch, log[i].update.before, log[i].update.after);
    assert (log + [e])[i] == log[i];
  }

  lemma GaveStays(log: seq<Event>, more: seq<Event>, epoch: nat, u: Update)
    requires log <= more && Gave(log, epoch, u)
    ensures Gave(more, epoch, u)
  {
    var i :| 0 <= i < |log| && log[i].Assigned? && log[i].epoch == epoch && log[i].update == u;
    assert more[i] == log[i];
  }

  lemma BindingsStay(log: seq<Event>, e: Event, bindings: seq<(nat, Binding)>)
    requires BindingsGenuine(log, bindings)
    ensures BindingsGenuine(log + [e], bindings)
  {
    forall p | p in bindings
      ensures exists i :: 0 <= i < |log + [e]| && (log + [e])[i].Assigned? && (log + [e])[i].acknowledged
                          && (log + [e])[i].epoch == p.0 && (log + [e])[i].update.binding == Some(p.1)
    {
      var i :| 0 <= i < |log| && log[i].Assigned? && log[i].acknowledged && log[i].epoch == p.0 && log[i].update.binding == Some(p.1);
      assert (log + [e])[i] == log[i];
    }
  }

  // ---------------------------------------------------------------------------------
  // The eight most recent capabilities.

  /** Acknowledged updates with a binding, as (capability, revision). */
  function Bound(log: seq<Event>): seq<(string, nat)> {
    if log == [] then []
    else
      var e := log[|log| - 1];
      Bound(log[..|log| - 1])
      + if e.Assigned? && e.acknowledged && e.update.binding.Some?
        then [(e.update.binding.value.capability, e.update.binding.value.revision)] else []
  }

  /** The other capabilities accepted after the last acceptance of c. */
  function OthersSince(h: Revisions, c: string): set<string> {
    if h == [] || h[|h| - 1].0 == c then {} else OthersSince(h[..|h| - 1], c) + {h[|h| - 1].0}
  }

  function LastRevision(h: Revisions, c: string): Option<nat> {
    if h == [] then None else if h[|h| - 1].0 == c then Some(h[|h| - 1].1) else LastRevision(h[..|h| - 1], c)
  }

  /** c has been accepted, and fewer than eight others since. */
  predicate AmongMostRecent(h: Revisions, c: string) {
    LastRevision(h, c).Some? && |OthersSince(h, c)| < MAX_CONTEXT_BINDINGS
  }

  type Revisions = seq<(string, nat)>

  function Keys(r: Revisions): set<string> {
    if r == [] then {} else {r[0].0} + Keys(r[1..])
  }

  predicate DistinctKeys(r: Revisions) {
    r == [] || (r[0].0 !in Keys(r[1..]) && DistinctKeys(r[1..]))
  }

  /** The keys behind the entry of k. */
  function KeysAfter(r: Revisions, k: string): set<string> {
    if r == [] then {} else if r[0].0 == k then Keys(r[1..]) else KeysAfter(r[1..], k)
  }

  /** An entry holds the last revision of its capability and stands before exactly the
      capabilities accepted since; a capability without one has been overtaken by eight. */
  ghost predicate EntryOk(h: Revisions, r: Revisions, c: string) {
    if Find(r, c).Some? then LastRevision(h, c) == Find(r, c) && OthersSince(h, c) == KeysAfter(r, c)
    else LastRevision(h, c).Some? ==> |OthersSince(h, c)| >= MAX_CONTEXT_BINDINGS
  }

  ghost predicate RecentOk(h: Revisions, r: Revisions) {
    |r| <= MAX_CONTEXT_BINDINGS && DistinctKeys(r) && forall c :: EntryOk(h, r, c)
  }

  /** An epoch is given for a capability among the most recent only to a revision above its last
      accepted one, whether or not the update is acknowledged in the end. */
  ghost predicate FreshLog(log: seq<Event>) {
    forall k :: 0 <= k < |log| && log[k].Assigned? ==> Newer(Bound(log[..k]), log[k].update)
  }

  predicate Newer(h: Revisions, u: Update) {
    u.binding.Some? && AmongMostRecent(h, u.binding.value.capability) ==>
      LastRevision(h, u.binding.value.capability).value < u.binding.value.revision
  }

  lemma {:induction false} KeysCount(r: Revisions)
    requires DistinctKeys(r)
    ensures |Keys(r)| == |r|
  {
    if r != [] { KeysCount(r[1..]); }
  }

  lemma {:induction false} FindIsKey(r: Revisions, c: string)
    ensures Find(r, c).Some? <==> c in Keys(r)
    ensures KeysAfter(r, c) <= Keys(r)
  {
    if r != [] { FindIsKey(r[1..], c); }
  }

  lemma {:induction false} WithoutKey(r: Revisions, c: string, x: string)
    requires DistinctKeys(r)
    ensures var q := Without(r, c);
            DistinctKeys(q) && Keys(q) == Keys(r) - {c}
            && Find(q, x) == (if x == c then None else Find(r, x))
            && (x != c ==> KeysAfter(q, x) == KeysAfter(r, x) - {c})
  {
    if r != [] {
      WithoutKey(r[1..], c, x);
      var q, rest := Without(r, c), Without(r[1..], c);
      if r[0].0 != c {
        assert q == [r[0]] + rest && q[1..] == rest;
      } else {
        assert q == rest;
        FindIsKey(r[1..], x);
      }
    }
  }

  lemma {:induction false} KeyAppended(r: Revisions, c: string, v: nat, x: string)
    requires DistinctKeys(r) && c !in Keys(r)
    ensures var q := r + [(c, v)];
            DistinctKeys(q) && Keys(q) == Keys(r) + {c}
            && Find(q, x) == (if x == c then Some(v) else Find(r, x))
            && KeysAfter(q, x) == (if x in Keys(r) then KeysAfter(r, x) + {c} else {})
  {
    var q := r + [(c, v)];
    if r == [] {
      assert q[1..] == [];
    } else {
      KeyAppended(r[1..], c, v, x);
      assert q[1..] == r[1..] + [(c, v)];
    }
  }

  /** Accepting (c, v) moves c to the newest end and may drop the oldest entry. */
  lemma PutKeepsRecent(h: Revisions, r: Revisions, c: string, v: nat)
    requires RecentOk(h, r)
    ensures RecentOk(h + [(c, v)], Put(r, c, v, MAX_CONTEXT_BINDINGS))
  {
    hide EntryOk, Keys, KeysAfter, LastRevision, OthersSince, Find;
    var h', all, r' := h + [(c, v)], Without(r, c) + [(c, v)], Put(r, c, v, MAX_CONTEXT_BINDINGS);
    WithoutKey(r, c, c);
    KeyAppended(Without(r, c), c, v, c);
    forall x ensures EntryOk(h', all, x) { EntryMoves(h, r, c, v, x); }
    if |all| > MAX_CONTEXT_BINDINGS {
      assert r' == all[1..];
      forall x ensures EntryOk(h', r', x) { EntryDropped(h', all, x); }
    }
  }

  lemma EntryMoves(h: Revisions, r: Revisions, c: string, v: nat, x: string)
    requires DistinctKeys(r) && EntryOk(h, r, x)
    ensures EntryOk(h + [(c, v)], Without(r, c) + [(c, v)], x)
  {
    var h' := h + [(c, v)];
    assert h'[..|h'| - 1] == h;
    WithoutKey(r, c, x);
    KeyAppended(Without(r, c), c, v, x);
    FindIsKey(r, x);
    Larger(OthersSince(h, x), OthersSince(h, x) + {c});
  }

  lemma EntryDropped(h: Revisions, all: Revisions, x: string)
    requires |all| == MAX_CONTEXT_BINDINGS + 1 && DistinctKeys(all) && EntryOk(h, all, x)
    ensures EntryOk(h, all[1..], x) && DistinctKeys(all[1..])
  {
    FindIsKey(all[1..], x);
    KeysCount(all[1..]);
  }

  /** The dictionary answers exactly for the most recent capabilities, with their last revision. */
  lemma RecentFind(h: Revisions, r: Revisions, c: string)
    requires RecentOk(h, r)
    ensures Find(r, c) == if AmongMostRecent(h, c) then LastRevision(h, c) else None
  {
    assert EntryOk(h, r, c);
    if Find(r, c).Some? { FewerAfter(r, c); }
  }

  lemma {:induction false} FewerAfter(r: Revisions, c: string)
    requires DistinctKeys(r) && Find(r, c).Some?
    ensures |KeysAfter(r, c)| < |r|
  {
    if r[0].0 == c { KeysCount(r[1..]); } else { FewerAfter(r[1..], c); }
  }

  // ---------------------------------------------------------------------------------
  // Preservation.

  lemma {:induction false} BoundAppend(log: seq<Event>, e: Event)
    ensures Bound(log + [e]) == if e.Assigned? && e.acknowledged && e.update.binding.Some?
                                then Bound(log) + [(e.update.binding.value.capability, e.update.binding.value.revision)]
                                else Bound(log)
    ensures Live(log + [e]) == match e
                               case Reported(_) => Live(log)
                               case Assigned(_, _, acknowledged) => if acknowledged then Some(e) else None
                               case _ => None
  {
    assert (log + [e])[..|log + [e]| - 1] == log;
  }

  lemma FieldsAppend(log: seq<Event>, e: Event)
    ensures BindingsIn(log + [e]) == if e.FocusSecured? then []
                                     else if e.Assigned? && e.acknowledged && e.update.binding.Some? then BindingsIn(log) + [(e.epoch, e.update.binding.value)]
                                     else BindingsIn(log)
    ensures LastClientEpoch(log + [e]) == if e.Assigned? && e.acknowledged && e.update.binding.None? then e.update.clientEpoch else LastClientEpoch(log)
    ensures LastEpoch(log + [e]) == if e.SessionReset? then e.ready else if e.Assigned? && e.acknowledged then e.epoch else LastEpoch(log)
  {
    assert (log + [e])[..|log + [e]| - 1] == log;
  }

  lemma {:induction false} BindingsInLog(log: seq<Event>, counter: nat)
    requires EpochsIncrease(log, counter)
    ensures forall p :: p in BindingsIn(log) ==> p.0 <= counter
    ensures forall i, j :: 0 <= i < j < |BindingsIn(log)| ==> BindingsIn(log)[i].0 < BindingsIn(log)[j].0
  {
    if log != [] {
      var front, e := log[..|log| - 1], log[|log| - 1];
      assert log == front + [e];
      var before := if e.Assigned? then e.epoch - 1 else counter;
      forall i | 0 <= i < |front| && front[i].Assigned? ensures 0 < front[i].epoch <= before { assert front[i] == log[i]; }
      BindingsInLog(front, before);
      FieldsAppend(front, e);
    }
  }

  lemma {:induction false} WithoutNew<K(!new), V(!new)>(d: seq<(K, V)>, k: K)
    requires forall p :: p in d ==> p.0 != k
    ensures Without(d, k) == d
  {
    if d != [] {
      assert d[0] in d && d == [d[0]] + d[1..];
      WithoutNew(d[1..], k);
    }
  }

  lemma NewestAppend<T>(d: seq<T>, x: T, limit: nat)
    requires limit > 0
    ensures Newest(Newest(d, limit) + [x], limit) == Newest(d + [x], limit)
  {}

  /** The bindings that a session keeps stay the newest ones. */
  lemma BindingPut(s: Service, u: Update)
    requires Inv(s) && u.binding.Some?
    ensures var epoch: nat := s.engine.requested + 1;
            Put(s.bindings, epoch, u.binding.value, MAX_CONTEXT_BINDINGS) == Newest(BindingsIn(s.log) + [(epoch, u.binding.value)], MAX_CONTEXT_BINDINGS)
  {
    hide RecentOk, FreshLog, EngineGenuine, ReportsGenuine, BindingsGenuine, ReceiptLive, EpochsIncrease;
    var epoch: nat, all := s.engine.requested + 1, BindingsIn(s.log);
    BindingsInLog(s.log, s.engine.requested);
    assert forall p :: p in s.bindings ==> p in all;
    WithoutNew(s.bindings, epoch);
    NewestAppend(all, (epoch, u.binding.value), MAX_CONTEXT_BINDINGS);
  }

  lemma FreshAppend(log: seq<Event>, e: Event)
    requires FreshLog(log) && (e.Assigned? ==> Newer(Bound(log), e.update))
    ensures FreshLog(log + [e])
  {
    hide Newer, Bound;
    var more := log + [e];
    forall k | 0 <= k < |more| && more[k].Assigned? ensures Newer(Bound(more[..k]), more[k].update) {
      if k < |log| { assert more[..k] == log[..k]; } else { assert more[..k] == log; }
    }
  }

  lemma ReportsStay(log: seq<Event>, e: Event)
    requires ReportsGenuine(log) && (e.Reported? ==> Genuine(log, e.context))
    ensures ReportsGenuine(log + [e])
  {
    forall i | 0 <= i < |log + [e]| && (log + [e])[i].Reported? ensures Genuine(log + [e], (log + [e])[i].context) {
      GenuineStays(log, e, (log + [e])[i].context);
    }
  }

  lemma EngineStays(log: seq<Event>, e: Event, g: EngineState)
    requires EngineGenuine(log, g)
    ensures EngineGenuine(log + [e], g)
  {
    hide Genuine;
    if g.pending.Some? { GenuineStays(log, e, g.pending.value); }
    if g.worker.Forwarding? { GenuineStays(log, e, g.worker.context); }
    if g.snapshot.Some? { GenuineStays(log, e, g.snapshot.value); }
  }

  lemma AskedKeeps(s: Service, u: Update, acknowledged: bool)
    requires Inv(s)
    ensures var epoch := s.engine.requested + 1;
            var log := s.log + [Assigned(epoch, u, acknowledged)];
            && EpochsIncrease(log, epoch)
            && EngineGenuine(log, RequestContext(s.engine, u.before, u.after, !acknowledged))
            && ReportsGenuine(log) && BindingsGenuine(log, s.bindings)
  {
    hide RecentOk, FreshLog, Genuine, Bound, Live, ReportsGenuine, BindingsGenuine, ReceiptLive;
    var e := Assigned(s.engine.requested + 1, u, acknowledged);
    EngineStays(s.log, e, s.engine);
    ReportsStay(s.log, e);
    BindingsStay(s.log, e, s.bindings);
    AssignedIsGenuine(s.log, e);
  }

  lemma UpdateKeepsInv(s: Service, u: Update, raises: bool)
    requires Inv(s)
    ensures Inv(HandleUpdate(s, u, raises).0)
  {
    hide RecentOk, FreshLog, Newer, EngineGenuine, LastRevision, OthersSince, Put, BindingsGenuine, ReportsGenuine, Bound, Live, EpochsIncrease,
         AmongMostRecent, ReceiptLive, Find, IsStale, RequestContext, Without, Newest, FieldsExact;
    if !IsStale(s, u) {
      var e := Assigned(s.engine.requested + 1, u, !raises);
      AskedKeeps(s, u, !raises);
      BoundAppend(s.log, e);
      ReceiptGiven(s.log, e);
      RequestTakesEpoch(s.engine, u, raises);
      AssignedIsNewer(s, u);
      FreshAppend(s.log, e);
      UpdateKeepsFields(s, u, raises);
      if !raises && u.binding.Some? {
        BindingsMore(s.log + [e], s.bindings, e.epoch, u);
        AcceptedKeepsRecent(s, u);
      }
    }
  }

  lemma UpdateKeepsFields(s: Service, u: Update, raises: bool)
    requires Inv(s) && !IsStale(s, u)
    ensures FieldsExact(HandleUpdate(s, u, raises).0)
  {
    hide RecentOk, FreshLog, EngineGenuine, BindingsGenuine, ReportsGenuine, EpochsIncrease, ReceiptLive, IsStale, HandleUpdate, Put, Newest, BindingsIn,
         LastClientEpoch, LastEpoch;
    if u.binding.Some? { BindingPut(s, u); }
    FieldsAppend(s.log, Assigned(s.engine.requested + 1, u, !raises));
    UpdatedFields(s, u, raises);
  }

  lemma UpdatedFields(s: Service, u: Update, raises: bool)
    requires !IsStale(s, u)
    ensures var s', epoch: nat := HandleUpdate(s, u, raises).0, s.engine.requested + 1;
            && s'.log == s.log + [Assigned(epoch, u, !raises)] && s'.requestedEpoch == (if raises then s.requestedEpoch else epoch)
            && s'.latestClientEpoch == (if raises || u.binding.Some? then s.latestClientEpoch else u.clientEpoch)
            && s'.bindings == if raises || u.binding.None? then s.bindings else Put(s.bindings, epoch, u.binding.value, MAX_CONTEXT_BINDINGS)
  {
    hide IsStale, Put, RequestContext;
  }

  lemma RequestTakesEpoch(g: EngineState, u: Update, raises: bool)
    ensures RequestContext(g, u.before, u.after, raises).requested == g.requested + 1
  {}

  lemma ReceiptGiven(log: seq<Event>, e: Event)
    requires e.Assigned?
    ensures ReceiptLive(log + [e], if e.acknowledged then ReceiptOf(e.update, e.epoch) else None)
  {
    BoundAppend(log, e);
  }

  lemma AcceptedKeepsRecent(s: Service, u: Update)
    requires RecentOk(Bound(s.log), s.revisions) && u.binding.Some?
    ensures var h := Bound(s.log) + [(u.binding.value.capability, u.binding.value.revision)];
            RecentOk(h, Put(s.revisions, u.binding.value.capability, u.binding.value.revision, MAX_CONTEXT_BINDINGS))
  {
    hide RecentOk, Put, Bound;
    PutKeepsRecent(Bound(s.log), s.revisions, u.binding.value.capability, u.binding.value.revision);
  }

  lemma AssignedIsNewer(s: Service, u: Update)
    requires RecentOk(Bound(s.log), s.revisions) && !IsStale(s, u)
    ensures Newer(Bound(s.log), u)
  {
    hide RecentOk, LastRevision, OthersSince, Bound;
    if u.binding.Some? { RecentFind(Bound(s.log), s.revisions, u.binding.value.capability); }
  }

  lemma AssignedIsGenuine(log: seq<Event>, e: Event)
    requires e.Assigned?
    ensures Genuine(log + [e], Context(e.epoch, e.update.before, e.update.after)) && Gave(log + [e], e.epoch, e.update)
  {
    assert (log + [e])[|log|] == e;
  }

  lemma BindingsMore(log: seq<Event>, bindings: seq<(nat, Binding)>, epoch: nat, u: Update)
    requires BindingsGenuine(log, bindings) && log != [] && log[|log| - 1] == Assigned(epoch, u, true) && u.binding.Some?
    ensures BindingsGenuine(log, Put(bindings, epoch, u.binding.value, MAX_CONTEXT_BINDINGS))
  {
    var more := Put(bindings, epoch, u.binding.value, MAX_CONTEXT_BINDINGS);
    var all := Without(bindings, epoch) + [(epoch, u.binding.value)];
    forall p | p in more ensures p in bindings || p == (epoch, u.binding.value) {
      assert p in all;
    }
  }

  /** Clearing and reporting leave the rest of the invariant as it was. */
  lemma NotedKeepsInv(s: Service, e: Event, s': Service)
    requires Inv(s) && s'.log == s.log + [e] && s'.revisions == s.revisions
    requires s'.engine == s.engine || exists raises :: s'.engine == ResetPrivate(s.engine, raises)
    requires s'.bindings == if e.FocusSecured? then [] else s.bindings
    requires s'.latestClientEpoch == s.latestClientEpoch && s'.requestedEpoch == if e.SessionReset? then e.ready else s.requestedEpoch
    requires match e
             case Reported(c) => s.engine.snapshot == Some(c) && s'.receipt == s.receipt
             case Assigned(_, _, _) => false
             case _ => s'.receipt == None
    ensures Inv(s')
  {
    hide RecentOk, FreshLog, Genuine, Bound, Live, ReportsGenuine, LastRevision;
    EngineStays(s.log, e, s.engine);
    ReportsStay(s.log, e);
    BindingsStay(s.log, e, s.bindings);
    BoundAppend(s.log, e);
    FreshAppend(s.log, e);
    FieldsAppend(s.log, e);
  }

  lemma HandleKeepsInv(s: Service, r: Request, raises: bool)
    requires Inv(s)
    ensures Inv(Handle(s, r, raises).0)
  {
    hide Inv, Valid, HandleUpdate, AnswerReceipt, ResetPrivate;
    var s' := Handle(s, r, raises).0;
    if Valid(r) && r.ContextUpdate? {
      UpdateKeepsInv(s, r.update, raises);
    } else if s' != s {
      NotedKeepsInv(s, if r.Health? then Reported(s.engine.snapshot.value) else if r.Focus? then FocusSecured else SessionReset(ReadyEpoch(s.engine)), s');
    }
  }

  lemma HandleExtendsLog(s: Service, r: Request, raises: bool)
    ensures s.log <= Handle(s, r, raises).0.log
  {}

  lemma ActKeepsInv(s: Service, a: Action)
    requires Inv(s)
    ensures Inv(Act(s, a)) && s.log <= Act(s, a).log
  {
    hide RecentOk, FreshLog, Genuine, Bound, Live, ReportsGenuine, LastRevision, BindingsGenuine, ReceiptLive, EpochsIncrease, Handle;
    if a.Message? {
      HandleKeepsInv(s, a.request, a.raises);
      HandleExtendsLog(s, a.request, a.raises);
    }
  }

  lemma {:induction false} LifetimeInv(actions: seq<Action>)
    ensures Inv(Lifetime(actions))
  {
    if actions == [] {
      assert forall c :: EntryOk([], [], c);
    } else {
      var a := actions[|actions| - 1];
      LifetimeInv(actions[..|actions| - 1]);
      ActKeepsInv(Lifetime(actions[..|actions| - 1]), a);
    }
  }

  // ---------------------------------------------------------------------------------
  // What every lifetime keeps.

  /** The i-th event is an acknowledged assignment for capability c. */
  predicate AcceptedAt(log: seq<Event>, i: nat, c: string) {
    i < |log| && log[i].Assigned? && log[i].acknowledged && log[i].update.binding.Some? && log[i].update.binding.value.capability == c
  }

  /** From just after the i-th event to the n-th, c stays among the eight most recently accepted. */
  ghost predicate RememberedSince(log: seq<Event>, i: nat, n: nat, c: string)
    requires n <= |log|
  {
    forall m :: i < m <= n ==> AmongMostRecent(Bound(log[..m]), c)
  }

  /** While c is remembered its last accepted revision only grows. */
  lemma {:induction false} LastGrows(log: seq<Event>, i: nat, n: nat, c: string)
    requires FreshLog(log) && AcceptedAt(log, i, c) && i < n <= |log| && RememberedSince(log, i, n, c)
    ensures var last := LastRevision(Bound(log[..n]), c); last.Some? && log[i].update.binding.value.revision <= last.value
    decreases n
  {
    hide Bound, LastRevision, OthersSince;
    var e := log[n - 1];
    assert log[..n] == log[..n - 1] + [e];
    BoundAppend(log[..n - 1], e);
    if n - 1 > i {
      LastGrows(log, i, n - 1, c);
      assert AmongMostRecent(Bound(log[..n - 1]), c) && (e.Assigned? ==> Newer(Bound(log[..n - 1]), e.update));
    }
    if e.Assigned? && e.acknowledged && e.update.binding.Some? { AppendLast(Bound(log[..n - 1]), c, e); }
  }

  /** The last accepted revision after one more event. */
  lemma AppendLast(h: Revisions, c: string, e: Event)
    requires e.Assigned? && e.acknowledged && e.update.binding.Some?
    ensures var b := e.update.binding.value;
            LastRevision(h + [(b.capability, b.revision)], c) == if b.capability == c then Some(b.revision) else LastRevision(h, c)
    ensures var b := e.update.binding.value;
            OthersSince(h + [(b.capability, b.revision)], c) == if b.capability == c then {} else OthersSince(h, c) + {b.capability}
  {
    var b := e.update.binding.value;
    assert (h + [(b.capability, b.revision)])[..|h|] == h;
  }

  /** While a capability stays among the eight most recently accepted, every epoch is given to a
      revision above all those accepted before, whether the update is acknowledged or not. */
  lemma RevisionsIncrease(actions: seq<Action>, i: nat, j: nat, c: string)
    requires var log := Lifetime(actions).log;
             && AcceptedAt(log, i, c) && i < j < |log| && log[j].Assigned? && log[j].update.binding.Some?
             && log[j].update.binding.value.capability == c && RememberedSince(log, i, j, c)
    ensures var log := Lifetime(actions).log; log[i].update.binding.value.revision < log[j].update.binding.value.revision
  {
    LifetimeInv(actions);
    var log := Lifetime(actions).log;
    LastGrows(log, i, j, c);
    assert AmongMostRecent(Bound(log[..j]), c);
    assert Newer(Bound(log[..j]), log[j].update);
  }

  /** An acknowledged assignment covers an update: of its capability, remembered since, of its revision or a later one. */
  ghost predicate Covers(log: seq<Event>, i: nat, b: Binding) {
    AcceptedAt(log, i, b.capability) && b.revision <= log[i].update.binding.value.revision && RememberedSince(log, i, |log|, b.capability)
  }

  /** A bound update gets an epoch, a first or a further one, exactly when no acknowledged assignment
      covers it. So a resend gets a second epoch if and only if every assignment it had since its
      capability entered the eight was not acknowledged. */
  lemma EpochExactly(actions: seq<Action>, u: Update, raises: bool)
    requires u.binding.Some?
    ensures var s := Lifetime(actions);
            var log := HandleUpdate(s, u, raises).0.log;
            && (log == s.log + [Assigned(s.engine.requested + 1, u, !raises)] <==> forall i :: !Covers(s.log, i, u.binding.value))
            && (log == s.log <==> exists i :: Covers(s.log, i, u.binding.value))
  {
    hide Inv, Covers, HandleUpdate, Lifetime;
    LifetimeInv(actions);
    EpochGivenExactly(Lifetime(actions), u, raises);
  }

  lemma EpochGivenExactly(s: Service, u: Update, raises: bool)
    requires Inv(s) && u.binding.Some?
    ensures var log := HandleUpdate(s, u, raises).0.log;
            && (log == s.log + [Assigned(s.engine.requested + 1, u, !raises)] <==> forall i :: !Covers(s.log, i, u.binding.value))
            && (log == s.log <==> exists i :: Covers(s.log, i, u.binding.value))
  {
    hide Inv, IsStale, Covers, HandleUpdate;
    CoveredExactly(s, u);
    HandledLog(s, u, raises);
  }

  lemma HandledLog(s: Service, u: Update, raises: bool)
    ensures var log := HandleUpdate(s, u, raises).0.log;
            if IsStale(s, u) then log == s.log else log == s.log + [Assigned(s.engine.requested + 1, u, !raises)] && |log| == |s.log| + 1
  {
    hide IsStale, Put;
  }

  lemma CoveredExactly(s: Service, u: Update)
    requires Inv(s) && u.binding.Some?
    ensures IsStale(s, u) <==> exists i :: Covers(s.log, i, u.binding.value)
  {
    hide RecentOk, LastRevision, OthersSince, Bound, BindingsGenuine, ReportsGenuine, ReceiptLive;
    var b := u.binding.value;
    RecentFind(Bound(s.log), s.revisions, b.capability);
    assert s.log[..|s.log|] == s.log;
    if IsStale(s, u) {
      var i := LastAccepted(s.log, b.capability);
      assert Covers(s.log, i, b);
    }
    forall i | Covers(s.log, i, b) ensures IsStale(s, u) {
      LastGrows(s.log, i, |s.log|, b.capability);
    }
  }

  /** The acceptance that a remembered capability was last given: nothing since has displaced it. */
  ghost predicate IsLast(log: seq<Event>, i: nat, c: string) {
    && AcceptedAt(log, i, c) && Some(log[i].update.binding.value.revision) == LastRevision(Bound(log), c)
    && RememberedSince(log, i, |log|, c)
    && forall m :: i < m <= |log| ==> OthersSince(Bound(log[..m]), c) <= OthersSince(Bound(log), c)
  }

  lemma {:induction false} LastAccepted(log: seq<Event>, c: string) returns (i: nat)
    requires AmongMostRecent(Bound(log), c)
    ensures IsLast(log, i, c)
  {
    BoundIsEmpty(log, c);
    var front, e := log[..|log| - 1], log[|log| - 1];
    assert log == front + [e];
    hide IsLast, AmongMostRecent, Bound;
    if Counts(e) && e.update.binding.value.capability == c {
      JustAccepted(front, e, c);
      i := |log| - 1;
    } else {
      StaysAmong(front, e, c);
      i := LastAccepted(front, c);
      StaysLast(front, e, i, c);
    }
  }

  predicate Counts(e: Event) {
    e.Assigned? && e.acknowledged && e.update.binding.Some?
  }

  lemma JustAccepted(front: seq<Event>, e: Event, c: string)
    requires Counts(e) && e.update.binding.value.capability == c && AmongMostRecent(Bound(front + [e]), c)
    ensures IsLast(front + [e], |front|, c)
  {
    BoundAppend(front, e);
    AppendLast(Bound(front), c, e);
    hide Bound, LastRevision, OthersSince, AmongMostRecent, IsLast, RememberedSince;
    NothingSince(front + [e], c);
  }

  lemma NothingSince(log: seq<Event>, c: string)
    requires log != [] && AmongMostRecent(Bound(log), c) && AcceptedAt(log, |log| - 1, c)
    requires Some(log[|log| - 1].update.binding.value.revision) == LastRevision(Bound(log), c)
    ensures IsLast(log, |log| - 1, c)
  {
    hide Bound, LastRevision, OthersSince, AmongMostRecent;
    assert log[..|log|] == log;
  }

  lemma StaysAmong(front: seq<Event>, e: Event, c: string)
    requires AmongMostRecent(Bound(front + [e]), c) && !(Counts(e) && e.update.binding.value.capability == c)
    ensures AmongMostRecent(Bound(front), c) && LastRevision(Bound(front), c) == LastRevision(Bound(front + [e]), c)
    ensures OthersSince(Bound(front), c) <= OthersSince(Bound(front + [e]), c)
  {
    BoundAppend(front, e);
    hide Bound, LastRevision, OthersSince;
    if Counts(e) {
      AppendLast(Bound(front), c, e);
      Larger(OthersSince(Bound(front), c), OthersSince(Bound(front + [e]), c));
    }
  }

  lemma StaysLast(front: seq<Event>, e: Event, i: nat, c: string)
    requires IsLast(front, i, c) && AmongMostRecent(Bound(front + [e]), c) && !(Counts(e) && e.update.binding.value.capability == c)
    ensures IsLast(front + [e], i, c)
  {
    StaysAmong(front, e, c);
    hide Bound, LastRevision, OthersSince, AmongMostRecent;
    var log := front + [e];
    assert log[..|log|] == log;
    forall m | i < m <= |log| ensures AmongMostRecent(Bound(log[..m]), c) && OthersSince(Bound(log[..m]), c) <= OthersSince(Bound(log), c) {
      if m < |log| { assert log[..m] == front[..m]; }
    }
  }

  lemma BoundIsEmpty(log: seq<Event>, c: string)
    requires AmongMostRecent(Bound(log), c)
    ensures log != []
  {}

  /** No (capability, revision) has two epochs of which the first was acknowledged, as long as the
      capability stays remembered: a resend that races its original is turned away. */
  lemma OneEpochPerRevision(actions: seq<Action>, i: nat, j: nat, c: string)
    requires var log := Lifetime(actions).log;
             && AcceptedAt(log, i, c) && i < j < |log| && log[j].Assigned? && RememberedSince(log, i, j, c)
    ensures var log := Lifetime(actions).log;
            log[i].epoch < log[j].epoch && log[j].update.binding != log[i].update.binding
  {
    LifetimeInv(actions);
    var log := Lifetime(actions).log;
    if log[j].update.binding.Some? && log[j].update.binding.value.capability == c { RevisionsIncrease(actions, i, j, c); }
  }

  /** Without the acknowledgement it can have two: starting the worker thread raises after the epoch
      is taken, and the same update sent again gets the next one. */
  lemma ResendGetsASecondEpoch(u: Update)
    requires Valid(ContextUpdate(u)) && u.binding.Some?
    ensures Lifetime([Message(ContextUpdate(u), true), Message(ContextUpdate(u), false)]).log == [Assigned(1, u, false), Assigned(2, u, true)]
  {
    var first, second := Message(ContextUpdate(u), true), Message(ContextUpdate(u), false);
    assert [first, second][..1] == [first] && [first][..0] == [];
    assert Lifetime([]) == NewService();
    assert Lifetime([first]) == Act(NewService(), first);
    assert Lifetime([first, second]) == Act(Lifetime([first]), second);
  }

  /** A bound update is turned away exactly when its capability is among the most recent
      with this revision or a later one. */
  lemma StaleExactly(actions: seq<Action>, u: Update)
    requires u.binding.Some?
    ensures var s, b := Lifetime(actions), u.binding.value;
            IsStale(s, u) <==> AmongMostRecent(Bound(s.log), b.capability) && b.revision <= LastRevision(Bound(s.log), b.capability).value
  {
    LifetimeInv(actions);
    RecentFind(Bound(Lifetime(actions).log), Lifetime(actions).revisions, u.binding.value.capability);
  }

  /** A receipt is answered accepted exactly for the live assignment, with its epoch. */
  lemma ReceiptTellsTheTruth(actions: seq<Action>, q: Request)
    requires q.ReceiptQuery? && Valid(q)
    ensures var s := Lifetime(actions);
            var answer := Handle(s, q, false).1;
            && answer.ReceiptAnswer?
            && (answer.accepted <==>
                  && Live(s.log).Some? && Live(s.log).value.Assigned?
                  && var u := Live(s.log).value.update;
                  u.requestId == Some(q.requestId) && u.clientEpoch == q.clientEpoch && u.sessionId == q.sessionId && u.binding == q.binding)
            && (answer.accepted ==> Live(s.log).value.Assigned? && answer.epoch == Live(s.log).value.epoch > 0)
  {
    LifetimeInv(actions);
    LiveIsAssigned(Lifetime(actions).log);
  }

  lemma {:induction false} LiveIsAssigned(log: seq<Event>)
    ensures Live(log).Some? ==> Live(log).value.Assigned? && Live(log).value.acknowledged && Live(log).value in log
  {
    if log != [] { LiveIsAssigned(log[..|log| - 1]); }
  }

  /** Health names an epoch only while the snapshot is the text of the update that got it. */
  lemma ReadyMeansItsText(actions: seq<Action>)
    ensures var s := Lifetime(actions);
            ReadyEpoch(s.engine) > 0 ==>
              exists i :: 0 <= i < |s.log| && s.log[i].Assigned?
                          && s.engine.snapshot == Some(Context(ReadyEpoch(s.engine), s.log[i].update.before, s.log[i].update.after))
  {
    LifetimeInv(actions);
  }

  /** An identity that passes the query check is the one its epoch was assigned for. */
  lemma IdentityIsBound(actions: seq<Action>, epoch: nat, capability: string, revision: nat)
    requires IdentityAccepted(Lifetime(actions), epoch, capability, revision)
    ensures exists i :: var log := Lifetime(actions).log;
                        && 0 <= i < |log| && log[i].Assigned? && log[i].epoch == epoch && log[i].update.binding.Some?
                        && log[i].update.binding.value.capability == capability && log[i].update.binding.value.revision == revision
  {
    LifetimeInv(actions);
  }

  /** Exactly which identities pass: those of the eight latest acknowledged bound updates since the last
      secure focus, under their epochs. */
  lemma IdentityExactly(actions: seq<Action>, epoch: nat, capability: string, revision: nat)
    ensures var s := Lifetime(actions);
            var given := BindingsIn(s.log);
            IdentityAccepted(s, epoch, capability, revision) <==>
              exists i :: |given| - MAX_CONTEXT_BINDINGS <= i < |given| && 0 <= i
                          && given[i].0 == epoch && given[i].1.capability == capability && given[i].1.revision == revision
  {
    var s := Lifetime(actions);
    var given := BindingsIn(s.log);
    LifetimeInv(actions);
    BindingsInLog(s.log, s.engine.requested);
    EpochsPositive(s.log);
    NewestAre(given, MAX_CONTEXT_BINDINGS);
    hide Inv;
    assert s.bindings == Newest(given, MAX_CONTEXT_BINDINGS) by { FieldsAre(s); }
    var b := Find(s.bindings, epoch);
    if b.Some? {
      assert (epoch, b.value) in s.bindings;
      var i :| |given| - MAX_CONTEXT_BINDINGS <= i < |given| && 0 <= i && given[i] == (epoch, b.value);
    }
  }

  lemma FieldsAre(s: Service)
    requires Inv(s)
    ensures FieldsExact(s) && EpochsIncrease(s.log, s.engine.requested)
  {}

  lemma NewestAre<T(!new)>(d: seq<T>, limit: nat)
    ensures forall x :: x in Newest(d, limit) <==> exists i :: |d| - limit <= i < |d| && 0 <= i && d[i] == x
  {
    var r := Newest(d, limit);
    forall i | |d| - limit <= i < |d| && 0 <= i ensures d[i] in r {
      assert r[i - (|d| - |r|)] == d[i];
    }
  }

  lemma {:induction false} EpochsPositive(log: seq<Event>)
    requires forall i :: 0 <= i < |log| && log[i].Assigned? ==> log[i].epoch > 0
    ensures forall p :: p in BindingsIn(log) ==> p.0 > 0
  {
    if log != [] { EpochsPositive(log[..|log| - 1]); }
  }

  /** An update without a binding is turned away exactly when its client epoch is not above that of the
      last one acknowledged; whoever is turned away is told the last epoch. */
  lemma UnboundStaleExactly(actions: seq<Action>, u: Update, raises: bool)
    ensures var s := Lifetime(actions);
            && (u.binding.None? ==> (IsStale(s, u) <==> u.clientEpoch <= LastClientEpoch(s.log)))
            && (IsStale(s, u) ==> HandleUpdate(s, u, raises) == (s, Acknowledged(u.requestId, false, LastEpoch(s.log), u.clientEpoch)))
  {
    LifetimeInv(actions);
    FieldsAre(Lifetime(actions));
  }

  /** What a secure focus leaves in the engine: nothing queued, no forward that could still be
      published, and, unless wiping the cache raised, no snapshot. */
  ghost predicate Forgotten(before: EngineState, g: EngineState, raises: bool) {
    && g.pending.None? && (g.worker.Forwarding? ==> g.worker.context.epoch < g.requested)
    && (if raises then g.snapshot == before.snapshot && g.snapshots == before.snapshots else g.snapshot.None? && g.snapshots == [])
  }

  /** A secure focus forgets the queue, the bindings and the receipt in any case, and the snapshots
      unless it raises; an identity bound before it is accepted no more. */
  lemma SecureFocusForgets(actions: seq<Action>, r: Request, raises: bool)
    requires r.Focus? && r.secure
    ensures var s, s' := Lifetime(actions), Handle(Lifetime(actions), r, raises).0;
            && Forgotten(s.engine, s'.engine, raises) && s'.bindings == [] && s'.receipt.None?
            && forall epoch, capability, revision :: !IdentityAccepted(s', epoch, capability, revision)
  {
    LifetimeInv(actions);
    FocusForgets(Lifetime(actions), r, raises);
  }

  lemma FocusForgets(s: Service, r: Request, raises: bool)
    requires Inv(s) && r.Focus? && r.secure
    ensures var s' := Handle(s, r, raises).0; Forgotten(s.engine, s'.engine, raises) && s'.bindings == [] && s'.receipt.None?
  {
    ForwardBounded(s);
    hide Inv;
  }

  /** Everything the engine holds, or may still publish, is later than an epoch. */
  ghost predicate Later(g: EngineState, epoch: nat) {
    && epoch <= g.requested
    && (g.pending.Some? ==> g.pending.value.epoch > epoch)
    && (g.snapshot.Some? ==> g.snapshot.value.epoch > epoch)
    && (g.worker.Forwarding? && g.worker.context.epoch == g.requested ==> g.worker.context.epoch > epoch)
  }

  lemma ActKeepsLater(s: Service, a: Action, epoch: nat)
    requires Inv(s) && Later(s.engine, epoch)
    ensures Later(Act(s, a).engine, epoch)
  {
    ForwardBounded(s);
    hide Inv;
    if a.Message? {
      HandlesEngine(s, a.request, a.raises);
      hide Handle;
    }
  }

  /** What a message may do to the engine. */
  lemma HandlesEngine(s: Service, r: Request, raises: bool)
    ensures var g := Handle(s, r, raises).0.engine;
            || g == s.engine
            || (exists before, after :: g == RequestContext(s.engine, before, after, raises))
            || g == ResetPrivate(s.engine, raises)
  {
    hide IsStale, Put, ReceiptOf, RequestContext, ResetPrivate;
  }

  lemma ForwardBounded(s: Service)
    requires Inv(s)
    ensures s.engine.worker.Forwarding? ==> s.engine.worker.context.epoch <= s.engine.requested
  {
    hide RecentOk, FreshLog, BindingsGenuine, ReportsGenuine, ReceiptLive;
    if s.engine.worker.Forwarding? { assert Genuine(s.log, s.engine.worker.context); }
  }

  lemma {:induction false} StillLater(actions: seq<Action>, more: seq<Action>, epoch: nat)
    requires Later(Lifetime(actions).engine, epoch)
    ensures Later(Lifetime(actions + more).engine, epoch) && Lifetime(actions).log <= Lifetime(actions + more).log
  {
    if more == [] {
      assert actions + more == actions;
    } else {
      var front := actions + more[..|more| - 1];
      assert actions + more == front + [more[|more| - 1]] && (front + [more[|more| - 1]])[..|front|] == front;
      StillLater(actions, more[..|more| - 1], epoch);
      LifetimeInv(front);
      ActKeepsLater(Lifetime(front), more[|more| - 1], epoch);
      ActKeepsInv(Lifetime(front), more[|more| - 1]);
    }
  }

  /** After a secure focus that succeeds, whatever the service is asked and whatever its worker does,
      a snapshot is only ever the text of an update that came after the focus. */
  lemma StaysForgotten(actions: seq<Action>, r: Request, more: seq<Action>)
    requires r.Focus? && r.secure
    ensures var start := actions + [Message(r, false)];
            var n, s := |Lifetime(start).log|, Lifetime(start + more);
            && n <= |s.log|
            && (s.engine.snapshot.Some? ==>
                  exists i :: n <= i < |s.log| && s.log[i].Assigned?
                              && s.engine.snapshot.value == Context(s.log[i].epoch, s.log[i].update.before, s.log[i].update.after))
  {
    hide Handle, RecentOk, FreshLog, BindingsGenuine, ReportsGenuine, ReceiptLive;
    var start := actions + [Message(r, false)];
    var reset, s := Lifetime(start), Lifetime(start + more);
    assert start[..|start| - 1] == actions;
    SecureFocusForgets(actions, r, false);
    StillLater(start, more, reset.engine.requested);
    LifetimeInv(start);
    LifetimeInv(start + more);
    if s.engine.snapshot.Some? {
      var i :| 0 <= i < |s.log| && s.log[i].Assigned?
               && s.engine.snapshot.value == Context(s.log[i].epoch, s.log[i].update.before, s.log[i].update.after);
      forall k | 0 <= k < |reset.log| && s.log[k].Assigned? ensures s.log[k].epoch <= reset.engine.requested {
        assert reset.log[k] == s.log[k];
      }
    }
  }

  // Progress: what was accepted last is published.

  /** Nothing newer is requested, nothing is reset, and no forward raises. */
  predicate Quiet(s: Service, a: Action) {
    match a
    case Message(r, _) => !Queues(s, a) && !(r.Focus? && r.secure)
    case WorkerTakes => true
    case WorkerFinishes(ok) => ok
  }

  ghost predicate QuietAfter(start: seq<Action>, more: seq<Action>) {
    forall m :: 0 <= m < |more| ==> Quiet(Lifetime(start + more[..m]), more[m])
  }

  /** How far the engine has come with the newest context: it is queued behind an older forward, it is
      queued, it is being forwarded, it is the snapshot. */
  datatype Stage = Behind | Next | Running | Done

  ghost predicate Reached(g: EngineState, c: Context, stage: Stage) {
    && c.epoch == g.requested
    && match stage
       case Behind => g.pending == Some(c) && g.worker.Forwarding? && g.worker.context.epoch < c.epoch
       case Next => g.pending == Some(c) && g.worker.Between?
       case Running => g.pending.None? && g.worker == Forwarding(c)
       case Done => g.pending.None? && g.worker in {Between, NoWorker} && g.snapshot == Some(c) && g.snapshots != [] && g.snapshots[|g.snapshots| - 1] == c
  }

  /** A turn of the worker takes the context further where it is that turn's; nothing takes it back. */
  function After(stage: Stage, a: Action): Stage {
    match a
    case Message(_, _) => stage
    case WorkerTakes => if stage == Next then Running else stage
    case WorkerFinishes(_) => if stage == Behind then Next else if stage == Running then Done else stage
  }

  lemma StageMoves(s: Service, a: Action, c: Context, stage: Stage)
    requires Quiet(s, a) && Reached(s.engine, c, stage)
    ensures Reached(Act(s, a).engine, c, After(stage, a))
  {
    if a.Message? { QuietKeepsEngine(s, a); }
  }

  lemma QuietKeepsEngine(s: Service, a: Action)
    requires a.Message? && Quiet(s, a)
    ensures Act(s, a).engine == s.engine
  {
    hide IsStale;
  }

  /** An accepted update is queued, or queued behind a running forward of an older one. */
  lemma AcceptedStage(s: Service, u: Update)
    requires Inv(s) && Queues(s, Message(ContextUpdate(u), false))
    ensures var s', c := Handle(s, ContextUpdate(u), false).0, Context(s.engine.requested + 1, u.before, u.after);
            && (Reached(s'.engine, c, Behind) || Reached(s'.engine, c, Next)) && s'.log == s.log + [Assigned(c.epoch, u, true)]
    ensures Handle(s, ContextUpdate(u), false).1 == Acknowledged(u.requestId, true, s.engine.requested + 1, u.clientEpoch)
  {
    hide IsStale, Put, Inv, ReceiptOf;
    ForwardBounded(s);
  }

  /** The identity of an accepted bound update passes the query check under its epoch. */
  lemma BoundIsAccepted(s: Service, u: Update)
    requires Queues(s, Message(ContextUpdate(u), false)) && u.binding.Some?
    ensures IdentityAccepted(Handle(s, ContextUpdate(u), false).0, s.engine.requested + 1, u.binding.value.capability, u.binding.value.revision)
  {
    hide IsStale, RequestContext, ReceiptOf, Put;
    var epoch: nat := s.engine.requested + 1;
    PutIsFound(s.bindings, epoch, u.binding.value, MAX_CONTEXT_BINDINGS);
  }

  lemma PutIsFound<K(!new), V(!new)>(d: seq<(K, V)>, k: K, v: V, limit: nat)
    requires limit > 0
    ensures Find(Put(d, k, v, limit), k) == Some(v)
  {
    var all := Without(d, k) + [(k, v)];
    var kept := Newest(all, limit);
    assert kept[|kept| - 1] == (k, v);
    forall p | p in kept && p.0 == k ensures p.1 == v {
      assert p in all;
    }
  }

  lemma AcceptedIsUnderway(actions: seq<Action>, u: Update)
    requires Queues(Lifetime(actions), Message(ContextUpdate(u), false))
    ensures var s, s' := Lifetime(actions), Lifetime(actions + [Message(ContextUpdate(u), false)]);
            var c := Context(s.engine.requested + 1, u.before, u.after);
            && (Reached(s'.engine, c, Behind) || Reached(s'.engine, c, Next))
            && s'.log == s.log + [Assigned(c.epoch, u, true)]
            && Handle(s, ContextUpdate(u), false).1 == Acknowledged(u.requestId, true, c.epoch, u.clientEpoch)
  {
    hide Inv, Reached, Handle, Queues;
    var a := Message(ContextUpdate(u), false);
    assert (actions + [a])[..|actions|] == actions;
    LifetimeInv(actions);
    AcceptedStage(Lifetime(actions), u);
  }

  /** Three turns of the worker on end make it the snapshot. */
  lemma ThreeTurnsPublish(s: Service, c: Context, stage: Stage)
    requires Reached(s.engine, c, stage) && stage in {Behind, Next}
    ensures Reached(Act(Act(Act(s, WorkerFinishes(true)), WorkerTakes), WorkerFinishes(true)).engine, c, Done)
  {
    hide Reached;
    var s1 := Act(s, WorkerFinishes(true));
    StageMoves(s, WorkerFinishes(true), c, stage);
    StageMoves(s1, WorkerTakes, c, Next);
    StageMoves(Act(s1, WorkerTakes), WorkerFinishes(true), c, Running);
  }

  /** The stage after some quiet actions. */
  ghost function StageAfter(stage: Stage, more: seq<Action>): Stage {
    if more == [] then stage else After(StageAfter(stage, more[..|more| - 1]), more[|more| - 1])
  }

  lemma {:induction false} StagesMove(start: seq<Action>, more: seq<Action>, c: Context, stage: Stage)
    requires QuietAfter(start, more) && Reached(Lifetime(start).engine, c, stage)
    ensures Reached(Lifetime(start + more).engine, c, StageAfter(stage, more))
  {
    if more == [] {
      assert start + more == start;
    } else {
      hide Reached, Quiet, Act, Lifetime;
      var n := |more| - 1;
      var front, a := more[..n], more[n];
      assert Quiet(Lifetime(start + front), a);
      forall m | 0 <= m < n ensures Quiet(Lifetime(start + front[..m]), front[m]) { assert front[..m] == more[..m]; }
      StagesMove(start, front, c, stage);
      LifetimeAppend(start, more);
      StageMoves(Lifetime(start + front), a, c, StageAfter(stage, front));
    }
  }

  lemma LifetimeAppend(start: seq<Action>, more: seq<Action>)
    requires more != []
    ensures Lifetime(start + more) == Act(Lifetime(start + more[..|more| - 1]), more[|more| - 1])
  {
    hide Act;
    assert (start + more)[..|start + more| - 1] == start + more[..|more| - 1];
  }

  /** One turn ends a forward that may be running, the next takes the context, the third ends its own. */
  predicate ThreeTurns(more: seq<Action>, i: nat, j: nat, k: nat) {
    i < j < k < |more| && more[i] == WorkerFinishes(true) && more[j] == WorkerTakes && more[k] == WorkerFinishes(true)
  }

  function Rank(stage: Stage): nat {
    match stage case Behind => 0 case Next => 1 case Running => 2 case Done => 3
  }

  lemma {:induction false} StageGrows(stage: Stage, more: seq<Action>, n: nat)
    requires n <= |more|
    ensures Rank(StageAfter(stage, more[..n])) <= Rank(StageAfter(stage, more))
    decreases |more| - n
  {
    if n == |more| {
      assert more[..n] == more;
    } else {
      assert more[..n + 1][..n] == more[..n];
      StageGrows(stage, more, n + 1);
    }
  }

  lemma ThreeTurnsSuffice(stage: Stage, more: seq<Action>, i: nat, j: nat, k: nat)
    requires ThreeTurns(more, i, j, k)
    ensures StageAfter(stage, more) == Done
  {
    TurnAt(stage, more, i);
    StageGrows(stage, more[..j], i + 1);
    assert more[..j][..i + 1] == more[..i + 1];
    TurnAt(stage, more, j);
    StageGrows(stage, more[..k], j + 1);
    assert more[..k][..j + 1] == more[..j + 1];
    TurnAt(stage, more, k);
    StageGrows(stage, more, k + 1);
  }

  lemma TurnAt(stage: Stage, more: seq<Action>, i: nat)
    requires i < |more|
    ensures StageAfter(stage, more[..i + 1]) == After(StageAfter(stage, more[..i]), more[i])
  {
    assert more[..i + 1][..i] == more[..i];
  }

  /** Whatever snapshot there is and whatever older forward is running: an accepted update is the
      snapshot, under its epoch, after three turns of the worker, among whatever else happens, if
      nothing newer is requested, nothing reset, and no forward raises; and Health answers it. */
  lemma AcceptedIsPublished(actions: seq<Action>, u: Update, more: seq<Action>, i: nat, j: nat, k: nat)
    requires Queues(Lifetime(actions), Message(ContextUpdate(u), false))
    requires QuietAfter(actions + [Message(ContextUpdate(u), false)], more) && ThreeTurns(more, i, j, k)
    ensures var epoch := Lifetime(actions).engine.requested + 1;
            var s := Lifetime(actions + [Message(ContextUpdate(u), false)] + more);
            && s.engine.snapshot == Some(Context(epoch, u.before, u.after)) && Gave(s.log, epoch, u)
            && s.engine.snapshots != [] && s.engine.snapshots[|s.engine.snapshots| - 1] == Context(epoch, u.before, u.after)
            && forall id, raises :: Handle(s, Health(id), raises).1 == HealthAnswer(id, epoch)
  {
    hide Queues, Act, QuietAfter, ThreeTurns;
    var start := actions + [Message(ContextUpdate(u), false)];
    var c := Context(Lifetime(actions).engine.requested + 1, u.before, u.after);
    AcceptedIsUnderway(actions, u);
    var stage := if Reached(Lifetime(start).engine, c, Next) then Next else Behind;
    StagesMove(start, more, c, stage);
    ThreeTurnsSuffice(stage, more, i, j, k);
    LogGrows(start, more);
    AssignedIsGenuine(Lifetime(actions).log, Assigned(c.epoch, u, true));
    GaveStays(Lifetime(start).log, Lifetime(start + more).log, c.epoch, u);
  }

  lemma {:induction false} LogGrows(start: seq<Action>, more: seq<Action>)
    ensures Lifetime(start).log <= Lifetime(start + more).log
  {
    if more == [] {
      assert start + more == start;
    } else {
      hide Act, Inv, Lifetime;
      var front := start + more[..|more| - 1];
      LifetimeAppend(start, more);
      LogGrows(start, more[..|more| - 1]);
      LifetimeInv(front);
      ActKeepsInv(Lifetime(front), more[|more| - 1]);
    }
  }

  // A queued context without a worker.

  predicate Stranded(g: EngineState) {
    g.pending.Some? && g.worker.NoWorker?
  }

  /** The update is given an epoch and queued. */
  predicate Queues(s: Service, a: Action) {
    a.Message? && a.request.ContextUpdate? && Valid(a.request) && !IsStale(s, a.request.update)
  }

  /** A forward dies while a newer context is queued, or no worker can be started for a new one. */
  predicate Strands(s: Service, a: Action) {
    || (a == WorkerFinishes(false) && s.engine.worker.Forwarding? && s.engine.pending.Some?)
    || (Queues(s, a) && a.raises && s.engine.worker.NoWorker?)
  }

  /** A later update starts a worker, or a secure focus drops the queue. */
  predicate Rescues(s: Service, a: Action) {
    (Queues(s, a) && !a.raises) || (a.Message? && a.request.Focus? && a.request.secure)
  }

  lemma StrandedStep(s: Service, a: Action)
    ensures Stranded(Act(s, a).engine) <==> Strands(s, a) || (Stranded(s.engine) && !Rescues(s, a))
  {
    hide IsStale, Put, ReceiptOf;
  }

  /** The k-th action strands a context, and none after it rescues it. */
  ghost predicate StrandedSince(actions: seq<Action>, k: nat) {
    k < |actions| && Strands(Lifetime(actions[..k]), actions[k])
    && forall m :: k < m < |actions| ==> !Rescues(Lifetime(actions[..m]), actions[m])
  }

  /** A queued context has no worker exactly when a forward died over it, or its worker could not be
      started, and no later update started one nor a secure focus dropped it. */
  lemma {:induction false} StrandedExactly(actions: seq<Action>)
    ensures Stranded(Lifetime(actions).engine) <==> exists k :: StrandedSince(actions, k)
  {
    if actions != [] {
      hide Stranded, Strands, Rescues, Act;
      var n := |actions| - 1;
      var front, a := actions[..n], actions[n];
      StrandedExactly(front);
      StrandedStep(Lifetime(front), a);
      if Strands(Lifetime(front), a) { assert StrandedSince(actions, n); }
      forall k: nat | k < n ensures StrandedSince(actions, k) <==> StrandedSince(front, k) && !Rescues(Lifetime(front), a) {
        SinceFront(actions, k);
      }
    }
  }

  lemma SinceFront(actions: seq<Action>, k: nat)
    requires k < |actions| - 1
    ensures var front := actions[..|actions| - 1];
            StrandedSince(actions, k) <==> StrandedSince(front, k) && !Rescues(Lifetime(front), actions[|actions| - 1])
  {
    hide Strands, Rescues, Lifetime;
    var front := actions[..|actions| - 1];
    assert forall m :: 0 <= m < |front| ==> actions[..m] == front[..m] && actions[m] == front[m];
  }

  /** Such a run: a second update is queued while the first is forwarded, and that forward raises. */
  lemma ForwardDies(u: Update, v: Update)
    requires Valid(ContextUpdate(u)) && Valid(ContextUpdate(v)) && u.binding.None? && v.binding.None? && u.clientEpoch < v.clientEpoch
    ensures Stranded(Lifetime([Message(ContextUpdate(u), false), WorkerTakes, Message(ContextUpdate(v), false), WorkerFinishes(false)]).engine)
  {
    var a := [Message(ContextUpdate(u), false), WorkerTakes, Message(ContextUpdate(v), false), WorkerFinishes(false)];
    assert a[..3][..2] == a[..2] && a[..2][..1] == a[..1] && a[..1][..0] == [];
    assert Lifetime(a[..1]) == Act(NewService(), a[0]);
    assert Lifetime(a[..2]) == Act(Lifetime(a[..1]), a[1]);
    assert Lifetime(a[..3]) == Act(Lifetime(a[..2]), a[2]);
  }

  // ---------------------------------------------------------------------------------
  // The objects whose fields this state is.

  /** The engine: each method runs under the request lock. `raises` stands for the exception
      that starting the worker thread may end in. */
  class NeuralPinyinEngine {
    var requestedContextEpoch: nat
    var pendingContext: Option<Context>
    var contextWorker: Worker
    var snapshot: Option<Context>
    var snapshots: seq<Context>

    constructor ()
      ensures State() == NewEngine()
    {
      requestedContextEpoch, pendingContext, contextWorker, snapshot, snapshots := 0, None, NoWorker, None, [];
    }

    function State(): EngineState
      reads this
    {
      EngineState(requestedContextEpoch, pendingContext, contextWorker, snapshot, snapshots)
    }

    method RequestContextUpdate(before: string, after: string, raises: bool) returns (epoch: nat)
      modifies this
      ensures State() == RequestContext(old(State()), before, after, raises)
      ensures epoch == requestedContextEpoch
    {
      requestedContextEpoch := requestedContextEpoch + 1;
      epoch := requestedContextEpoch;
      pendingContext := Some(Context(epoch, before, after));
      if contextWorker.NoWorker? {
        if raises { return; }
        contextWorker := Between;
      }
    }

    /** One turn of the worker loop: what it does under the lock before a forward. */
    method BeginForward()
      requires contextWorker.Between?
      modifies this
      ensures State() == TakePending(old(State()))
    {
      var pending := pendingContext;
      pendingContext := None;
      if pending.None? {
        contextWorker := NoWorker;
      } else {
        contextWorker := Forwarding(pending.value);
      }
    }

    /** And what it does under the lock after one. */
    method EndForward(ok: bool)
      requires contextWorker.Forwarding?
      modifies this
      ensures State() == FinishForward(old(State()), ok)
    {
      var c := contextWorker.context;
      if !ok {
        contextWorker := NoWorker;
        return;
      }
      contextWorker := Between;
      if c.epoch == requestedContextEpoch {
        snapshot := Some(c);
        snapshots := snapshots + [c];
        while |snapshots| > MAX_SNAPSHOTS
          invariant Newest(snapshots, MAX_SNAPSHOTS) == Newest(old(snapshots) + [c], MAX_SNAPSHOTS)
          invariant State() == old(State()).(worker := Between, snapshot := Some(c), snapshots := snapshots)
        {
          snapshots := snapshots[1..];
        }
      }
    }

    method ResetPrivateContext(raises: bool)
      modifies this
      ensures State() == ResetPrivate(old(State()), raises)
    {
      requestedContextEpoch := requestedContextEpoch + 1;
      pendingContext := None;
      if raises { return; }
      snapshot, snapshots := None, [];
    }
  }

  /** The pipe server: each handler holds the context forward lock. */
  class NamedPipeServer {
    const engine: NeuralPinyinEngine
    var latestClientContextEpoch: nat
    var requestedContextEpoch: nat
    var contextBindings: seq<(nat, Binding)>
    var latestSourceRevisions: Revisions
    var contextUpdateReceipt: Option<Receipt>
    ghost var log: seq<Event>

    constructor ()
      ensures fresh(engine) && State() == NewService()
    {
      engine := new NeuralPinyinEngine();
      latestClientContextEpoch, requestedContextEpoch := 0, 0;
      contextBindings, latestSourceRevisions, contextUpdateReceipt, log := [], [], None, [];
    }

    ghost function State(): Service
      reads this, engine
    {
      Service(engine.State(), latestClientContextEpoch, requestedContextEpoch, contextBindings, latestSourceRevisions,
              contextUpdateReceipt, log)
    }

    predicate IsStaleContextUpdate(u: Update)
      reads this
    {
      match u.binding
      case None => u.clientEpoch <= latestClientContextEpoch
      case Some(b) =>
        var latest := Find(latestSourceRevisions, b.capability);
        latest.Some? && b.revision <= latest.value
    }

    method RememberContextUpdate(u: Update)
      modifies this`latestClientContextEpoch, this`latestSourceRevisions
      ensures State() == Remember(old(State()), u)
    {
      match u.binding {
        case None => latestClientContextEpoch := u.clientEpoch;
        case Some(b) =>
          ghost var all := Without(latestSourceRevisions, b.capability) + [(b.capability, b.revision)];
          latestSourceRevisions := Without(latestSourceRevisions, b.capability) + [(b.capability, b.revision)];
          while |latestSourceRevisions| > MAX_CONTEXT_BINDINGS
            invariant latestClientContextEpoch == old(latestClientContextEpoch)
            invariant Newest(latestSourceRevisions, MAX_CONTEXT_BINDINGS) == Newest(all, MAX_CONTEXT_BINDINGS)
          {
            latestSourceRevisions := latestSourceRevisions[1..];
          }
      }
    }

    method RememberContextBinding(epoch: nat, binding: Option<Binding>)
      modifies this`contextBindings
      ensures State() == RememberBinding(old(State()), epoch, binding)
    {
      if binding.None? { return; }
      ghost var all := Without(contextBindings, epoch) + [(epoch, binding.value)];
      contextBindings := Without(contextBindings, epoch) + [(epoch, binding.value)];
      while |contextBindings| > MAX_CONTEXT_BINDINGS
        invariant Newest(contextBindings, MAX_CONTEXT_BINDINGS) == Newest(all, MAX_CONTEXT_BINDINGS)
      {
        contextBindings := contextBindings[1..];
      }
    }

    method HandleContextUpdate(u: Update, raises: bool) returns (reply: Reply)
      modifies this, engine
      ensures (State(), reply) == HandleUpdate(old(State()), u, raises)
    {
      if IsStaleContextUpdate(u) {
        return Acknowledged(u.requestId, false, requestedContextEpoch, u.clientEpoch);
      }
      contextUpdateReceipt := None;
      var epoch := engine.RequestContextUpdate(u.before, u.after, raises);
      log := log + [Assigned(epoch, u, !raises)];
      if raises { return Failure(u.requestId); }
      RememberContextUpdate(u);
      requestedContextEpoch := epoch;
      RememberContextBinding(epoch, u.binding);
      if u.requestId.Some? {
        contextUpdateReceipt := Some(Receipt(u.clientEpoch, u.requestId.value, u.sessionId, u.binding, epoch));
      }
      reply := Acknowledged(u.requestId, true, epoch, u.clientEpoch);
    }

    method HandleSecureFocus(r: Request, raises: bool) returns (reply: Reply)
      requires r.Focus?
      modifies this, engine
      ensures (State(), reply) == HandleFocus(old(State()), r, raises)
    {
      if r.secure {
        contextUpdateReceipt := None;
        contextBindings := [];
        log := log + [FocusSecured];
        engine.ResetPrivateContext(raises);
        if raises { return Failure(r.focusId); }
      }
      reply := FocusAnswer(r.focusId, r.focusSession, r.secure);
    }

    method HandleMessage(r: Request, raises: bool) returns (reply: Reply)
      modifies this, engine
      ensures (State(), reply) == Handle(old(State()), r, raises)
    {
      if !Valid(r) { return Failure(IdOf(r)); }
      match r {
        case ContextUpdate(u) => reply := HandleContextUpdate(u, raises);
        case ReceiptQuery(clientEpoch, id, _, _) =>
          var receipt := contextUpdateReceipt;
          var matched := receipt.Some? && Matches(receipt.value, r);
          reply := ReceiptAnswer(Some(id), matched, if matched then receipt.value.epoch else 0, clientEpoch);
        case Health(id) =>
          if engine.snapshot.Some? { log := log + [Reported(engine.snapshot.value)]; }
          reply := HealthAnswer(id, if engine.snapshot.Some? then engine.snapshot.value.epoch else 0);
        case Focus(_, _, _, _) => reply := HandleSecureFocus(r, raises);
        case ResetSession(id) =>
          contextUpdateReceipt := None;
          requestedContextEpoch := if engine.snapshot.Some? then engine.snapshot.value.epoch else 0;
          log := log + [SessionReset(requestedContextEpoch)];
          reply := ResetAnswer(id);
      }
    }
  }
}
