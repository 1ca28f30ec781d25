/** The batched attach/detach protocol of azure_controller_common.go, as a step machine over any
    number of concurrent AttachDisk, DetachDisk and UpdateVM calls on any nodes. A label is one
    atomic action of one call, so a run is any interleaving. The VM, its cached view and the order
    in which a map is visited are the environment: each label carries what the environment chose,
    and `Enabled` states the contract that choice obeys. */
module AttachProtocol {
  import opened Wrappers
  import opened GoStrings
  import opened LunAllocator
  import AtomicLock

  type Node = string
  type Uri = string
  type Key = AtomicLock.Key
  type CallId = int
  type MapId = nat
  type Disks = map<Uri, int>      // the disks really on one VM, by lower-cased ID, with their LUNs

  /** The controller's switches, and how far the environment can be trusted. */
  datatype Config = Config(
    lunCheck: bool,         // !DisableDiskLunCheck
    forceDetach: bool,      // ForceDetachBackoff
    exactViews: bool,       // a view read under the node lock reports no disk that is not on the VM
    namesFaithful: bool,    // a reported name or VHD address never matches the wrong disk
    noDetachFlags: bool,    // a view never flags a disk as to-be-detached
    retryCompletes: bool,   // UpdateVM returning nil after a preempted attach completes that attach
    goneIsEmpty: bool)      // a VM that is reported as not found carries no disk

  datatype Op =
    | Attach(node: Node, uri: Uri, name: string, occupied: seq<int>)
    | Detach(node: Node, uri: Uri, name: string)
    | Update(node: Node)

  datatype Kind = AttachQueue | DetachQueue
  datatype QueueId = QueueId(kind: Kind, node: Node)

  datatype Outcome = Success(lun: int) | Detached | Gone | Updated | Failed

  datatype Pc =
    | Start                                            // queueing calls want the queue key, UpdateVM the node key
    | QueueLoad                                        // holds the queue key
    | QueueInsert(m: MapId)                            // holds the queue key and a reference to the map
    | QueueDone                                        // holds the queue key
    | WantNode                                         // holds nothing
    | WantDrain                                        // holds the node key
    | Draining                                         // holds both keys
    | Drained(batch: Option<MapId>)                    // holds both keys
    | Work(batch: Option<MapId>)                       // holds the node key, from here on
    | Attaching(m: MapId, luns: Disks, lun: int)
    | Retrying(m: MapId, luns: Disks, lun: int)
    | Forcing(m: MapId)
    | Check
    | Release(result: Outcome)
    | Done(result: Outcome)                             // holds nothing

  datatype Call = Call(op: Op, pc: Pc)

  /** A drained batch: which call drained it, the map it took away and what was in it. */
  datatype Batch = Batch(drainer: CallId, queue: QueueId, m: MapId, requests: map<Uri, CallId>)

  /** `maps` is the heap of queue maps: a MapId is a reference to one of them. The last four fields
      record history and are never read by a step. */
  datatype State = State(
    calls: map<CallId, Call>,
    locks: AtomicLock.Table,
    queues: map<QueueId, MapId>,
    maps: seq<map<Uri, CallId>>,
    vms: map<Node, Disks>,
    history: seq<Batch>,
    enqueued: set<CallId>,
    coveredBy: map<CallId, CallId>,
    drainedIn: map<CallId, int>)

  datatype VmOutcome = Nil | Preempted | NotFound | Error(throttled: bool)

  datatype Label =
    | Spawn(c: CallId, op: Op)
    | Refuse(c: CallId, gone: bool)
    | AcquireKey(c: CallId)
    | Load(c: CallId)
    | Insert(c: CallId)
    | ReleaseQueue(c: CallId)
    | Drain(c: CallId)
    | Abort(c: CallId)
    | AllocateLuns(c: CallId, view: View, order: seq<Uri>)
    | VmAttach(c: CallId, disks: Disks, outcome: VmOutcome)
    | VmRetry(c: CallId, disks: Disks, ok: bool)
    | SkipDetach(c: CallId)
    | VmDetach(c: CallId, disks: Disks, outcome: VmOutcome)
    | VmForceDetach(c: CallId, disks: Disks, ok: bool)
    | VmUpdate(c: CallId, ok: bool)
    | CheckLun(c: CallId, view: View)
    | Unlock(c: CallId)

  // ---------------------------------------------------------------- keys

  const ATTACH_SUFFIX := "attachdiskmap"
  const DETACH_SUFFIX := "detachdiskmap"

  function QueueKey(q: QueueId): Key {
    q.node + if q.kind.AttachQueue? then ATTACH_SUFFIX else DETACH_SUFFIX
  }

  function QueueOf(op: Op): QueueId
    requires !op.Update?
  {
    QueueId(if op.Attach? then AttachQueue else DetachQueue, op.node)
  }

  function Wanted(call: Call): Option<Key> {
    match call.pc
    case Start => Some(if call.op.Update? then call.op.node else QueueKey(QueueOf(call.op)))
    case WantNode => Some(call.op.node)
    case WantDrain => if call.op.Update? then None else Some(QueueKey(QueueOf(call.op)))
    case _ => None
  }

  function Held(call: Call): set<Key> {
    var queueKey := if call.op.Update? then {} else {QueueKey(QueueOf(call.op))};
    match call.pc
    case Start => {}
    case QueueLoad => queueKey
    case QueueInsert(_) => queueKey
    case QueueDone => queueKey
    case WantNode => {}
    case Draining => {call.op.node} + queueKey
    case Drained(_) => {call.op.node} + queueKey
    case Done(_) => {}
    case _ => {call.op.node}
  }

  // ---------------------------------------------------------------- the environment's contract

  function DisksOn(s: State, node: Node): Disks {
    if node in s.vms then s.vms[node] else map[]
  }

  /** The view contains every disk really on the VM. */
  ghost predicate Covers(view: View, disks: Disks) {
    forall u :: u in disks ==> Shows(view, u, disks[u])
  }

  /** The view contains nothing else. */
  ghost predicate Exact(view: View, disks: Disks) {
    forall i :: 0 <= i < |view| && view[i].managedId.Some? ==>
      var u := Lower(view[i].managedId.value);
      u in disks && view[i].lun == Some(disks[u])
  }

  /** A disk that GetDiskLun matches by name or VHD address is the one that was asked for. */
  ghost predicate Faithful(view: View, name: string, uri: Uri) {
    forall i :: 0 <= i < |view| && Matches(view[i], name, uri) ==>
      view[i].managedId.Some? && EqualFold(view[i].managedId.value, uri)
  }

  ghost predicate ViewOk(cfg: Config, view: View, disks: Disks, op: Op)
    requires !op.Update?
  {
    && Covers(view, disks)
    && (cfg.exactViews ==> Exact(view, disks))
    && (cfg.namesFaithful ==> Faithful(view, op.name, op.uri))
    && (cfg.noDetachFlags ==> forall i :: 0 <= i < |view| ==> !view[i].toBeDetached)
  }

  /** vmset.AttachDisk, whatever it returns: disks stay where they are, and what is added was asked for. */
  ghost predicate AttachEffect(before: Disks, asked: Disks, after: Disks) {
    && (forall u :: u in before ==> u in after && after[u] == before[u])
    && (forall u :: u in after && u !in before ==> u in asked && after[u] == asked[u])
  }

  /** ... and when it returns nil, the whole batch is on; in particular no disk of the batch was
      already on at another LUN. */
  ghost predicate AllOn(asked: Disks, after: Disks) {
    forall u :: u in asked ==> u in after && after[u] == asked[u]
  }

  ghost predicate DetachEffect(before: Disks, asked: set<Uri>, after: Disks) {
    && (forall u :: u in after ==> u in before && after[u] == before[u])
    && (forall u :: u in before && u !in after ==> u in asked)
  }

  // ---------------------------------------------------------------- steps

  function Requests(s: State, batch: Option<MapId>): map<Uri, CallId> {
    if batch.Some? && batch.value < |s.maps| then s.maps[batch.value] else map[]
  }

  /** What the VM is asked for: the map as it is now, with the LUN written in each option (-1 for an
      option that SetDiskLun never saw). */
  function Asked(s: State, m: MapId, luns: Disks): Disks {
    map u | u in Requests(s, Some(m)) :: if u in luns then luns[u] else -1
  }

  ghost predicate VisitsAll(order: seq<Uri>, requests: map<Uri, CallId>) {
    Distinct(order) && forall u :: u in order <==> u in requests
  }

  /** The call moves on; nothing else changes but the locks and the VMs, as given. */
  function Move(s: State, c: CallId, pc: Pc, locks: AtomicLock.Table, vms: map<Node, Disks>): State
    requires c in s.calls
  {
    s.(calls := s.calls[c := s.calls[c].(pc := pc)], locks := locks, vms := vms)
  }

  function SetPc(s: State, c: CallId, pc: Pc): State
    requires c in s.calls
  {
    Move(s, c, pc, s.locks, s.vms)
  }

  /** The call moves on after the VM of its node changed. */
  function SetDisks(s: State, c: CallId, pc: Pc, disks: Disks): State
    requires c in s.calls
  {
    Move(s, c, pc, s.locks, s.vms[s.calls[c].op.node := disks])
  }

  // -- a new call

  predicate CanSpawn(s: State, c: CallId, op: Op) {
    c !in s.calls && (!op.Update? ==> Lower(op.uri) == op.uri)
  }

  function DoSpawn(s: State, c: CallId, op: Op): State {
    s.(calls := s.calls[c := Call(op, Start)])
  }

  // -- an early return before any lock is taken

  predicate CanRefuse(cfg: Config, s: State, c: CallId, gone: bool) {
    c in s.calls && s.calls[c].pc.Start? && (gone ==> s.calls[c].op.Detach?)
    && (gone && cfg.goneIsEmpty ==> DisksOn(s, s.calls[c].op.node) == map[])
  }

  function DoRefuse(s: State, c: CallId, gone: bool): State
    requires c in s.calls
  {
    SetPc(s, c, Done(if gone then Gone else Failed))
  }

  // -- locks

  predicate CanAcquireKey(s: State, c: CallId) {
    c in s.calls && Wanted(s.calls[c]).Some? && AtomicLock.CanAcquire(s.locks, Wanted(s.calls[c]).value)
  }

  function AfterAcquire(call: Call): Pc {
    if call.op.Update? then Work(None)
    else if call.pc.Start? then QueueLoad
    else if call.pc.WantNode? then WantDrain
    else Draining
  }

  function DoAcquireKey(s: State, c: CallId): State
    requires CanAcquireKey(s, c)
  {
    var call := s.calls[c];
    Move(s, c, AfterAcquire(call), AtomicLock.Acquire(s.locks, Wanted(call).value, c), s.vms)
  }

  predicate CanReleaseQueue(s: State, c: CallId) {
    c in s.calls && (s.calls[c].pc.QueueDone? || s.calls[c].pc.Drained?) && !s.calls[c].op.Update?
    && AtomicLock.CanRelease(s.locks, QueueKey(QueueOf(s.calls[c].op)), c)
  }

  function DoReleaseQueue(s: State, c: CallId): State
    requires CanReleaseQueue(s, c)
  {
    var call := s.calls[c];
    Move(s, c, if call.pc.QueueDone? then WantNode else Work(call.pc.batch),
         AtomicLock.Release(s.locks, QueueKey(QueueOf(call.op)), c), s.vms)
  }

  predicate CanUnlock(s: State, c: CallId) {
    c in s.calls && s.calls[c].pc.Release? && AtomicLock.CanRelease(s.locks, s.calls[c].op.node, c)
  }

  function DoUnlock(s: State, c: CallId): State
    requires CanUnlock(s, c)
  {
    Move(s, c, Done(s.calls[c].pc.result), AtomicLock.Release(s.locks, s.calls[c].op.node, c), s.vms)
  }

  // -- insertAttachDiskRequest / insertDetachDiskRequest, first half: load the node's map, or create it

  predicate CanLoad(s: State, c: CallId) {
    c in s.calls && s.calls[c].pc.QueueLoad? && !s.calls[c].op.Update?
  }

  function DoLoad(s: State, c: CallId): State
    requires CanLoad(s, c)
  {
    var q := QueueOf(s.calls[c].op);
    var known := q in s.queues;
    SetPc(s, c, QueueInsert(if known then s.queues[q] else |s.maps|))
    .(queues := if known then s.queues else s.queues[q := |s.maps|],
      maps := if known then s.maps else s.maps + [map[]])
  }

  // -- second half: write the request into the map, unless the disk is already queued

  predicate CanInsert(s: State, c: CallId) {
    c in s.calls && s.calls[c].pc.QueueInsert? && !s.calls[c].op.Update? && s.calls[c].pc.m < |s.maps|
  }

  function DoInsert(s: State, c: CallId): State
    requires CanInsert(s, c)
  {
    var m := s.calls[c].pc.m;
    var uri := s.calls[c].op.uri;
    var duplicate := uri in s.maps[m];
    SetPc(s, c, QueueDone)
    .(maps := if duplicate then s.maps else s.maps[m := s.maps[m][uri := c]],
      enqueued := if duplicate then s.enqueued else s.enqueued + {c},
      coveredBy := s.coveredBy[c := if duplicate then s.maps[m][uri] else c])
  }

  // -- cleanAttachDiskRequests / cleanDetachDiskRequests: swap in an empty map, keep the old one

  predicate CanDrain(s: State, c: CallId) {
    c in s.calls && s.calls[c].pc.Draining? && !s.calls[c].op.Update?
    && (QueueOf(s.calls[c].op) in s.queues ==> s.queues[QueueOf(s.calls[c].op)] < |s.maps|)
  }

  function DoDrain(s: State, c: CallId): State
    requires CanDrain(s, c)
  {
    var q := QueueOf(s.calls[c].op);
    if q !in s.queues then SetPc(s, c, Drained(None)) else TakeAway(s, c, q, s.queues[q])
  }

  function TakeAway(s: State, c: CallId, q: QueueId, m: MapId): State
    requires c in s.calls && m < |s.maps|
  {
    SetPc(s, c, Drained(Some(m)))
    .(queues := s.queues[q := |s.maps|], maps := s.maps + [map[]],
      history := s.history + [Batch(c, q, m, s.maps[m])],
      drainedIn := s.drainedIn + map r | r in s.maps[m].Values :: |s.history|)
  }

  // -- an error before the VM is called: no data disks, no VM set

  predicate CanAbort(s: State, c: CallId) {
    c in s.calls &&
    ((s.calls[c].pc.Work? && !s.calls[c].op.Detach?) || s.calls[c].pc.Attaching? || s.calls[c].pc.Check?)
  }

  function DoAbort(s: State, c: CallId): State
    requires CanAbort(s, c)
  {
    SetPc(s, c, Release(Failed))
  }

  // -- AttachDisk under the node lock

  /** AttachDisk and DetachDisk end with the LUN check when it is enabled. */
  function Finish(cfg: Config, result: Outcome): Pc {
    if cfg.lunCheck then Check else Release(result)
  }

  ghost predicate CanAllocate(cfg: Config, s: State, c: CallId, view: View, order: seq<Uri>) {
    c in s.calls && s.calls[c].op.Attach? && s.calls[c].pc.Work?
    && VisitsAll(order, Requests(s, s.calls[c].pc.batch))
    && ViewOk(cfg, view, DisksOn(s, s.calls[c].op.node), s.calls[c].op)
  }

  function AfterAllocation(cfg: Config, batch: Option<MapId>, order: seq<Uri>, r: Allocation): Pc {
    match r
    case Assigned(lun, luns) =>
      if order == [] || batch.None? then Finish(cfg, Success(lun)) else Attaching(batch.value, luns, lun)
    case Refused => Release(Failed)
    case Crashed => Release(Failed)    // the deferred unlock still runs
  }

  ghost function DoAllocate(cfg: Config, s: State, c: CallId, view: View, order: seq<Uri>): State
    requires CanAllocate(cfg, s, c, view, order)
  {
    var call := s.calls[c];
    SetPc(s, c, AfterAllocation(cfg, call.pc.batch, order, Allocate(view, call.op.uri, order, call.op.occupied)))
  }

  ghost predicate CanVmAttach(s: State, c: CallId, disks: Disks, outcome: VmOutcome) {
    c in s.calls && s.calls[c].op.Attach? && s.calls[c].pc.Attaching? && !outcome.NotFound? &&
    var asked := Asked(s, s.calls[c].pc.m, s.calls[c].pc.luns);
    && AttachEffect(DisksOn(s, s.calls[c].op.node), asked, disks)
    && (outcome.Nil? ==> AllOn(asked, disks))
  }

  function AfterAttach(cfg: Config, pc: Pc, outcome: VmOutcome): Pc
    requires pc.Attaching?
  {
    match outcome
    case Nil => Finish(cfg, Success(pc.lun))
    case Preempted => Retrying(pc.m, pc.luns, pc.lun)
    case _ => Release(Failed)
  }

  ghost function DoVmAttach(cfg: Config, s: State, c: CallId, disks: Disks, outcome: VmOutcome): State
    requires CanVmAttach(s, c, disks, outcome)
  {
    SetDisks(s, c, AfterAttach(cfg, s.calls[c].pc, outcome), disks)
  }

  ghost predicate CanVmRetry(cfg: Config, s: State, c: CallId, disks: Disks, ok: bool) {
    c in s.calls && s.calls[c].op.Attach? && s.calls[c].pc.Retrying? &&
    var asked := Asked(s, s.calls[c].pc.m, s.calls[c].pc.luns);
    && AttachEffect(DisksOn(s, s.calls[c].op.node), asked, disks)
    && (ok && cfg.retryCompletes ==> AllOn(asked, disks))
  }

  ghost function DoVmRetry(cfg: Config, s: State, c: CallId, disks: Disks, ok: bool): State
    requires CanVmRetry(cfg, s, c, disks, ok)
  {
    SetDisks(s, c, if ok then Finish(cfg, Success(s.calls[c].pc.lun)) else Release(Failed), disks)
  }

  // -- DetachDisk under the node lock

  predicate CanSkipDetach(s: State, c: CallId) {
    c in s.calls && s.calls[c].op.Detach? && s.calls[c].pc.Work? && Requests(s, s.calls[c].pc.batch) == map[]
  }

  function DoSkipDetach(cfg: Config, s: State, c: CallId): State
    requires CanSkipDetach(s, c)
  {
    SetPc(s, c, Finish(cfg, Detached))
  }

  ghost predicate CanVmDetach(cfg: Config, s: State, c: CallId, disks: Disks, outcome: VmOutcome) {
    c in s.calls && s.calls[c].op.Detach? && s.calls[c].pc.Work? && !outcome.Preempted? &&
    var asked := Requests(s, s.calls[c].pc.batch);
    && asked != map[]
    && DetachEffect(DisksOn(s, s.calls[c].op.node), asked.Keys, disks)
    && (outcome.Nil? ==> disks.Keys !! asked.Keys)
    && (outcome.NotFound? && cfg.goneIsEmpty ==> disks == map[])
  }

  function AfterDetach(cfg: Config, batch: Option<MapId>, outcome: VmOutcome): Pc {
    match outcome
    case Nil => Finish(cfg, Detached)
    case NotFound => Release(Gone)
    case Error(throttled) =>
      if cfg.forceDetach && !throttled && batch.Some? then Forcing(batch.value) else Release(Failed)
    case Preempted => Release(Failed)
  }

  ghost function DoVmDetach(cfg: Config, s: State, c: CallId, disks: Disks, outcome: VmOutcome): State
    requires CanVmDetach(cfg, s, c, disks, outcome)
  {
    SetDisks(s, c, AfterDetach(cfg, s.calls[c].pc.batch, outcome), disks)
  }

  ghost predicate CanVmForceDetach(s: State, c: CallId, disks: Disks, ok: bool) {
    c in s.calls && s.calls[c].op.Detach? && s.calls[c].pc.Forcing? &&
    var asked := Requests(s, Some(s.calls[c].pc.m));
    && DetachEffect(DisksOn(s, s.calls[c].op.node), asked.Keys, disks)
    && (ok ==> disks.Keys !! asked.Keys)
  }

  ghost function DoVmForceDetach(cfg: Config, s: State, c: CallId, disks: Disks, ok: bool): State
    requires CanVmForceDetach(s, c, disks, ok)
  {
    SetDisks(s, c, if ok then Finish(cfg, Detached) else Release(Failed), disks)
  }

  // -- UpdateVM under the node lock

  predicate CanVmUpdate(s: State, c: CallId) {
    c in s.calls && s.calls[c].op.Update? && s.calls[c].pc.Work?
  }

  function DoVmUpdate(s: State, c: CallId, ok: bool): State
    requires CanVmUpdate(s, c)
  {
    SetPc(s, c, Release(if ok then Updated else Failed))
  }

  // -- the LUN check at the end of AttachDisk and DetachDisk

  ghost predicate CanCheckLun(cfg: Config, s: State, c: CallId, view: View) {
    c in s.calls && !s.calls[c].op.Update? && s.calls[c].pc.Check?
    && ViewOk(cfg, view, DisksOn(s, s.calls[c].op.node), s.calls[c].op)
  }

  function AfterCheck(op: Op, found: LunOutcome): Pc {
    if op.Attach? then (if found.Lun? then Release(Success(found.lun)) else Release(Failed))
    else if found.NoLun? then Release(Detached)
    else Release(Failed)
  }

  ghost function DoCheckLun(cfg: Config, s: State, c: CallId, view: View): State
    requires CanCheckLun(cfg, s, c, view)
  {
    var op := s.calls[c].op;
    SetPc(s, c, AfterCheck(op, FindLun(view, op.name, op.uri)))
  }

  // -- the step relation

  ghost predicate Enabled(cfg: Config, s: State, l: Label) {
    match l
    case Spawn(c, op) => CanSpawn(s, c, op)
    case Refuse(c, gone) => CanRefuse(cfg, s, c, gone)
    case AcquireKey(c) => CanAcquireKey(s, c)
    case Load(c) => CanLoad(s, c)
    case Insert(c) => CanInsert(s, c)
    case ReleaseQueue(c) => CanReleaseQueue(s, c)
    case Drain(c) => CanDrain(s, c)
    case Abort(c) => CanAbort(s, c)
    case AllocateLuns(c, view, order) => CanAllocate(cfg, s, c, view, order)
    case VmAttach(c, disks, outcome) => CanVmAttach(s, c, disks, outcome)
    case VmRetry(c, disks, ok) => CanVmRetry(cfg, s, c, disks, ok)
    case SkipDetach(c) => CanSkipDetach(s, c)
    case VmDetach(c, disks, outcome) => CanVmDetach(cfg, s, c, disks, outcome)
    case VmForceDetach(c, disks, ok) => CanVmForceDetach(s, c, disks, ok)
    case VmUpdate(c, ok) => CanVmUpdate(s, c)
    case CheckLun(c, view) => CanCheckLun(cfg, s, c, view)
    case Unlock(c) => CanUnlock(s, c)
  }

  ghost function Apply(cfg: Config, s: State, l: Label): State
    requires Enabled(cfg, s, l)
  {
    match l
    case Spawn(c, op) => DoSpawn(s, c, op)
    case Refuse(c, gone) => DoRefuse(s, c, gone)
    case AcquireKey(c) => DoAcquireKey(s, c)
    case Load(c) => DoLoad(s, c)
    case Insert(c) => DoInsert(s, c)
    case ReleaseQueue(c) => DoReleaseQueue(s, c)
    case Drain(c) => DoDrain(s, c)
    case Abort(c) => DoAbort(s, c)
    case AllocateLuns(c, view, order) => DoAllocate(cfg, s, c, view, order)
    case VmAttach(c, disks, outcome) => DoVmAttach(cfg, s, c, disks, outcome)
    case VmRetry(c, disks, ok) => DoVmRetry(cfg, s, c, disks, ok)
    case SkipDetach(c) => DoSkipDetach(cfg, s, c)
    case VmDetach(c, disks, outcome) => DoVmDetach(cfg, s, c, disks, outcome)
    case VmForceDetach(c, disks, ok) => DoVmForceDetach(cfg, s, c, disks, ok)
    case VmUpdate(c, ok) => DoVmUpdate(s, c, ok)
    case CheckLun(c, view) => DoCheckLun(cfg, s, c, view)
    case Unlock(c) => DoUnlock(s, c)
  }

  // ---------------------------------------------------------------- runs

  /** Pairwise distinct LUNs, all within 0..63. */
  ghost predicate DistinctLuns(disks: Disks) {
    Injective(disks) && forall u :: u in disks ==> 0 <= disks[u] <= 63
  }

  /** IDs are compared without case: a disk is known by its lower-cased ID. */
  ghost predicate Folded(disks: Disks) {
    forall u :: u in disks ==> Lower(u) == u
  }

  /** No call has started; the VMs already carry any disks at distinct LUNs. */
  ghost predicate Init(s: State) {
    && s.calls == map[] && s.locks == map[] && s.queues == map[] && s.maps == []
    && s.history == [] && s.enqueued == {} && s.coveredBy == map[] && s.drainedIn == map[]
    && forall n :: n in s.vms ==> DistinctLuns(s.vms[n]) && Folded(s.vms[n])
  }

  /** The i-th label leads from the i-th state to the next. */
  ghost predicate StepAt(cfg: Config, trace: seq<State>, labels: seq<Label>, i: int)
    requires |trace| == |labels| + 1 && 0 <= i < |labels|
  {
    Enabled(cfg, trace[i], labels[i]) && trace[i + 1] == Apply(cfg, trace[i], labels[i])
  }

  ghost predicate Run(cfg: Config, trace: seq<State>, labels: seq<Label>) {
    && |trace| == |labels| + 1 && Init(trace[0])
    && forall i :: 0 <= i < |labels| ==> StepAt(cfg, trace, labels, i)
  }

  lemma RunExtends(cfg: Config, trace: seq<State>, labels: seq<Label>, l: Label)
    requires Run(cfg, trace, labels) && Enabled(cfg, trace[|labels|], l)
    ensures Run(cfg, trace + [Apply(cfg, trace[|labels|], l)], labels + [l])
  {
    var s := trace[|labels|];
    var trace', labels' := trace + [Apply(cfg, s, l)], labels + [l];
    forall i | 0 <= i < |labels'| ensures StepAt(cfg, trace', labels', i) {
      if i < |labels| {
        assert StepAt(cfg, trace, labels, i);
        assert trace'[i] == trace[i] && trace'[i + 1] == trace[i + 1] && labels'[i] == labels[i];
      } else {
        assert trace'[i] == s && labels'[i] == l;
      }
    }
  }
}
