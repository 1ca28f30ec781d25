/** What every step of the attach/detach protocol keeps: who holds which lock, and where every
    queued request is. */
module AttachInvariants {
  import opened Wrappers
  import opened GoStrings
  import opened LunAllocator
  import opened AttachProtocol
  import opened RequestQueue

  // ---------------------------------------------------------------- control

  /** The results that each operation can have. */
  predicate ResultOf(op: Op, r: Outcome) {
    match op
    case Attach(_, _, _, _) => r.Success? || r.Failed?
    case Detach(_, _, _) => r.Detached? || r.Gone? || r.Failed?
    case Update(_) => r.Updated? || r.Failed?
  }

  ghost predicate CallShape(call: Call) {
    && (call.op.Update? ==> call.pc.Start? || call.pc == Work(None) || call.pc.Release? || call.pc.Done?)
    && (call.pc.Attaching? || call.pc.Retrying? ==> call.op.Attach?)
    && (call.pc.Forcing? ==> call.op.Detach?)
    && (call.pc.Release? || call.pc.Done? ==> ResultOf(call.op, call.pc.result))
    && (!call.op.Update? ==> Lower(call.op.uri) == call.op.uri)
  }

  ghost predicate ShapeInv(s: State) {
    forall c :: c in s.calls ==> CallShape(s.calls[c])
  }

  /** The drained map that a call still refers to. */
  function BatchRef(pc: Pc): Option<MapId> {
    match pc
    case Drained(batch) => batch
    case Work(batch) => batch
    case Attaching(m, _, _) => Some(m)
    case Retrying(m, _, _) => Some(m)
    case Forcing(m) => Some(m)
    case _ => None
  }

  /** The call has put its request in, and has not yet drained the queue itself. */
  predicate Waiting(pc: Pc) { pc.QueueDone? || pc.WantNode? || pc.WantDrain? || pc.Draining? }

  predicate BeforeInsert(pc: Pc) { pc.Start? || pc.QueueLoad? || pc.QueueInsert? }

  const MAX_RANK := 14

  /** How many steps a call has left at most. */
  function Rank(pc: Pc): (r: nat)
    ensures r <= MAX_RANK && (r == 0 <==> pc.Done?)
  {
    match pc
    case Start => 14
    case QueueLoad => 13
    case QueueInsert(_) => 12
    case QueueDone => 11
    case WantNode => 10
    case WantDrain => 9
    case Draining => 8
    case Drained(_) => 7
    case Work(_) => 6
    case Attaching(_, _, _) => 5
    case Retrying(_, _, _) => 4
    case Forcing(_) => 4
    case Check => 3
    case Release(_) => 2
    case Done(_) => 0
  }

  /** How a step that leaves the queues alone can move a call. */
  ghost predicate PcStep(op: Op, pc: Pc, pc': Pc) {
    && CallShape(Call(op, pc'))
    && !pc.Done? && !pc'.QueueInsert?
    && (BatchRef(pc').Some? ==> BatchRef(pc') == BatchRef(pc))
    && (Waiting(pc) <==> Waiting(pc'))
    && (BeforeInsert(pc') ==> BeforeInsert(pc))
    && (BeforeInsert(pc) && !BeforeInsert(pc') ==> pc'.Done? || op.Update?)
    && (pc'.Done? ==> pc == Release(pc'.result) || (pc.Start? && (pc'.result.Failed? || pc'.result.Gone?)))
    && Rank(pc') < Rank(pc)
    && (pc'.Work? && !op.Update? ==> pc.Drained? && pc'.batch == pc.batch)
  }

  ghost predicate Moved(s: State, c: CallId, s': State) {
    c in s.calls && c in s'.calls && s' == Move(s, c, s'.calls[c].pc, s'.locks, s'.vms)
    && PcStep(s.calls[c].op, s.calls[c].pc, s'.calls[c].pc)
  }

  predicate LeavesQueues(l: Label) { !l.Spawn? && !l.Load? && !l.Insert? && !l.Drain? }

  /** What a step does to the calls and the locks. */
  ghost predicate StepShape(s: State, c: CallId, s': State) {
    OthersStay(s, c, s') && LockStep(s, c, s') && Moved(s, c, s')
  }

  lemma RefuseShape(cfg: Config, s: State, c: CallId, gone: bool)
    requires CanRefuse(cfg, s, c, gone) && CallShape(s.calls[c])
    ensures StepShape(s, c, DoRefuse(s, c, gone))
  {
  }

  lemma AcquireShape(s: State, c: CallId)
    requires CanAcquireKey(s, c) && CallShape(s.calls[c])
    ensures StepShape(s, c, DoAcquireKey(s, c))
  {
    var k := Wanted(s.calls[c]).value;
    assert HeldBy(DoAcquireKey(s, c), c) == HeldBy(s, c) + {k};
  }

  lemma ReleaseQueueShape(s: State, c: CallId)
    requires CanReleaseQueue(s, c) && CallShape(s.calls[c])
    ensures StepShape(s, c, DoReleaseQueue(s, c))
  {
    var q := QueueOf(s.calls[c].op);
    QueueKeyIsLonger(q);
    var k := QueueKey(q);
    assert k in HeldBy(s, c) && HeldBy(DoReleaseQueue(s, c), c) == HeldBy(s, c) - {k};
  }

  lemma UnlockShape(s: State, c: CallId)
    requires CanUnlock(s, c) && CallShape(s.calls[c])
    ensures StepShape(s, c, DoUnlock(s, c))
  {
    var k := s.calls[c].op.node;
    assert k in HeldBy(s, c) && HeldBy(DoUnlock(s, c), c) == HeldBy(s, c) - {k};
  }

  /** A step that stays within the node's critical section. */
  lemma LocalShape(s: State, c: CallId, pc': Pc, vms: map<Node, Disks>)
    requires c in s.calls
    requires PcStep(s.calls[c].op, s.calls[c].pc, pc') && Held(Call(s.calls[c].op, pc')) == Held(s.calls[c])
    ensures StepShape(s, c, Move(s, c, pc', s.locks, vms))
  {
  }

  lemma AllocationShape(cfg: Config, s: State, c: CallId, view: View, order: seq<Uri>)
    requires CanAllocate(cfg, s, c, view, order) && CallShape(s.calls[c])
    ensures StepShape(s, c, DoAllocate(cfg, s, c, view, order))
  {
    LocalShape(s, c, DoAllocate(cfg, s, c, view, order).calls[c].pc, s.vms);
  }

  lemma VmAttachShape(cfg: Config, s: State, c: CallId, disks: Disks, outcome: VmOutcome)
    requires CanVmAttach(s, c, disks, outcome) && CallShape(s.calls[c])
    ensures StepShape(s, c, DoVmAttach(cfg, s, c, disks, outcome))
  {
    LocalShape(s, c, AfterAttach(cfg, s.calls[c].pc, outcome), s.vms[s.calls[c].op.node := disks]);
  }

  lemma VmRetryShape(cfg: Config, s: State, c: CallId, disks: Disks, ok: bool)
    requires CanVmRetry(cfg, s, c, disks, ok) && CallShape(s.calls[c])
    ensures StepShape(s, c, DoVmRetry(cfg, s, c, disks, ok))
  {
    LocalShape(s, c, DoVmRetry(cfg, s, c, disks, ok).calls[c].pc, s.vms[s.calls[c].op.node := disks]);
  }

  lemma VmDetachShape(cfg: Config, s: State, c: CallId, disks: Disks, outcome: VmOutcome)
    requires CanVmDetach(cfg, s, c, disks, outcome) && CallShape(s.calls[c])
    ensures StepShape(s, c, DoVmDetach(cfg, s, c, disks, outcome))
  {
    LocalShape(s, c, AfterDetach(cfg, s.calls[c].pc.batch, outcome), s.vms[s.calls[c].op.node := disks]);
  }

  lemma VmForceDetachShape(cfg: Config, s: State, c: CallId, disks: Disks, ok: bool)
    requires CanVmForceDetach(s, c, disks, ok) && CallShape(s.calls[c])
    ensures StepShape(s, c, DoVmForceDetach(cfg, s, c, disks, ok))
  {
    LocalShape(s, c, DoVmForceDetach(cfg, s, c, disks, ok).calls[c].pc, s.vms[s.calls[c].op.node := disks]);
  }

  lemma CheckShape(cfg: Config, s: State, c: CallId, view: View)
    requires CanCheckLun(cfg, s, c, view) && CallShape(s.calls[c])
    ensures StepShape(s, c, DoCheckLun(cfg, s, c, view))
  {
    LocalShape(s, c, DoCheckLun(cfg, s, c, view).calls[c].pc, s.vms);
  }

  lemma AbortShape(s: State, c: CallId)
    requires CanAbort(s, c) && CallShape(s.calls[c])
    ensures StepShape(s, c, DoAbort(s, c))
  {
    LocalShape(s, c, Release(Failed), s.vms);
  }

  lemma SkipDetachShape(cfg: Config, s: State, c: CallId)
    requires CanSkipDetach(s, c) && CallShape(s.calls[c])
    ensures StepShape(s, c, DoSkipDetach(cfg, s, c))
  {
    LocalShape(s, c, Finish(cfg, Detached), s.vms);
  }

  lemma VmUpdateShape(s: State, c: CallId, ok: bool)
    requires CanVmUpdate(s, c) && CallShape(s.calls[c])
    ensures StepShape(s, c, DoVmUpdate(s, c, ok))
  {
    LocalShape(s, c, Release(if ok then Updated else Failed), s.vms);
  }

  lemma StepMoves(cfg: Config, s: State, l: Label)
    requires Enabled(cfg, s, l) && LeavesQueues(l) && CallShape(s.calls[l.c])
    ensures StepShape(s, l.c, Apply(cfg, s, l))
  {
    match l {
      case Refuse(c, gone) => RefuseShape(cfg, s, c, gone);
      case AcquireKey(c) => AcquireShape(s, c);
      case ReleaseQueue(c) => ReleaseQueueShape(s, c);
      case Abort(c) => AbortShape(s, c);
      case AllocateLuns(c, view, order) => AllocationShape(cfg, s, c, view, order);
      case VmAttach(c, disks, outcome) => VmAttachShape(cfg, s, c, disks, outcome);
      case VmRetry(c, disks, ok) => VmRetryShape(cfg, s, c, disks, ok);
      case SkipDetach(c) => SkipDetachShape(cfg, s, c);
      case VmDetach(c, disks, outcome) => VmDetachShape(cfg, s, c, disks, outcome);
      case VmForceDetach(c, disks, ok) => VmForceDetachShape(cfg, s, c, disks, ok);
      case VmUpdate(c, ok) => VmUpdateShape(s, c, ok);
      case CheckLun(c, view) => CheckShape(cfg, s, c, view);
      case Unlock(c) => UnlockShape(s, c);
    }
  }

  /** What the other steps, those on the queues, do to the calls and the locks. */
  ghost predicate QueueStepShape(s: State, c: CallId, s': State) {
    && OthersStay(s, c, s') && CallShape(s'.calls[c]) && !s'.calls[c].pc.Done?
    && HeldBy(s', c) == HeldBy(s, c) && s'.locks == s.locks
    && s.history <= s'.history
    && (c in s.calls ==> s'.calls[c].op == s.calls[c].op && Rank(s'.calls[c].pc) < Rank(s.calls[c].pc))
  }

  lemma SpawnShape(s: State, c: CallId, op: Op)
    requires CanSpawn(s, c, op)
    ensures QueueStepShape(s, c, DoSpawn(s, c, op))
  {
  }

  lemma LoadShape(s: State, c: CallId)
    requires CanLoad(s, c) && CallShape(s.calls[c])
    ensures QueueStepShape(s, c, DoLoad(s, c))
  {
  }

  lemma InsertShape(s: State, c: CallId)
    requires CanInsert(s, c) && CallShape(s.calls[c])
    ensures QueueStepShape(s, c, DoInsert(s, c))
  {
  }

  lemma DrainShape(s: State, c: CallId)
    requires CanDrain(s, c) && CallShape(s.calls[c])
    ensures QueueStepShape(s, c, DoDrain(s, c))
  {
    var call, call' := s.calls[c], DoDrain(s, c).calls[c];
    assert call'.op == call.op && call'.pc.Drained?;
    assert Held(call') == Held(call);
  }

  lemma StepQueues(cfg: Config, s: State, l: Label)
    requires Enabled(cfg, s, l) && !LeavesQueues(l) && (l.c in s.calls ==> CallShape(s.calls[l.c]))
    ensures QueueStepShape(s, l.c, Apply(cfg, s, l))
  {
    match l {
      case Spawn(c, op) => SpawnShape(s, c, op);
      case Load(c) => LoadShape(s, c);
      case Insert(c) => InsertShape(s, c);
      case Drain(c) => DrainShape(s, c);
    }
  }

  lemma StepKeepsShape(cfg: Config, s: State, l: Label)
    requires ShapeInv(s) && Enabled(cfg, s, l)
    ensures ShapeInv(Apply(cfg, s, l))
  {
    if LeavesQueues(l) {
      StepMoves(cfg, s, l);
      MoveKeepsShape(s, l.c, Apply(cfg, s, l));
    } else {
      StepQueues(cfg, s, l);
      QueueStepKeepsShape(s, l.c, Apply(cfg, s, l));
    }
  }

  lemma QueueStepKeepsShape(s: State, c: CallId, s': State)
    requires ShapeInv(s) && QueueStepShape(s, c, s')
    ensures ShapeInv(s')
  {
  }

  lemma MoveKeepsShape(s: State, c: CallId, s': State)
    requires ShapeInv(s) && Moved(s, c, s')
    ensures ShapeInv(s')
  {
  }

  // ---------------------------------------------------------------- locks

  /** The lock table and the program counters tell the same story. */
  ghost predicate LocksInv(s: State) {
    && (forall k :: k in s.locks ==> s.locks[k] in s.calls && k in Held(s.calls[s.locks[k]]))
    && (forall c, k :: c in s.calls && k in Held(s.calls[c]) ==> k in s.locks && s.locks[k] == c)
  }

  /** The keys that guard the two queues of a node. */
  lemma QueueKeysAre(node: Node)
    ensures QueueKey(QueueId(AttachQueue, node)) == node + "attachdiskmap"
    ensures QueueKey(QueueId(DetachQueue, node)) == node + "detachdiskmap"
  {
  }

  lemma QueueKeyIsLonger(q: QueueId)
    ensures |QueueKey(q)| == |q.node| + 13
  {
  }

  ghost function HeldBy(s: State, c: CallId): set<Key> {
    if c in s.calls then Held(s.calls[c]) else {}
  }

  /** One call gains one free key, loses one key, or neither. */
  ghost predicate LockStep(s: State, c: CallId, s': State) {
    || (HeldBy(s', c) == HeldBy(s, c) && s'.locks == s.locks)
    || (exists k :: k !in s.locks && HeldBy(s', c) == HeldBy(s, c) + {k} && s'.locks == s.locks[k := c])
    || (exists k :: k in HeldBy(s, c) && HeldBy(s', c) == HeldBy(s, c) - {k} && s'.locks == s.locks - {k})
  }

  ghost predicate OthersStay(s: State, c: CallId, s': State) {
    c in s'.calls && s'.calls == s.calls[c := s'.calls[c]]
  }

  lemma LockStepKeepsLocks(s: State, c: CallId, s': State)
    requires LocksInv(s) && OthersStay(s, c, s') && LockStep(s, c, s')
    ensures LocksInv(s')
  {
    assert forall d :: d in s.calls && d != c ==> s'.calls[d] == s.calls[d];
    forall d, k | d in s'.calls && k in Held(s'.calls[d]) ensures k in s'.locks && s'.locks[k] == d {
      if d == c {
        assert k in HeldBy(s', c);
        if k in HeldBy(s, c) { assert k in s.locks && s.locks[k] == c; }
      } else {
        assert k in s.locks && s.locks[k] == d;
      }
    }
    forall k | k in s'.locks ensures s'.locks[k] in s'.calls && k in Held(s'.calls[s'.locks[k]]) {
      if s'.locks[k] == c { assert k in HeldBy(s', c); }
    }
  }

  lemma StepKeepsLocks(cfg: Config, s: State, l: Label)
    requires ShapeInv(s) && LocksInv(s) && Enabled(cfg, s, l)
    ensures LocksInv(Apply(cfg, s, l))
  {
    if LeavesQueues(l) { StepMoves(cfg, s, l); } else { StepQueues(cfg, s, l); }
    LockStepKeepsLocks(s, l.c, Apply(cfg, s, l));
  }

  /** Two calls never hold one key together. */
  lemma Exclusive(s: State, c: CallId, d: CallId, key: Key)
    requires LocksInv(s) && c in s.calls && d in s.calls
    requires key in Held(s.calls[c]) && key in Held(s.calls[d])
    ensures c == d
  {
    assert s.locks[key] == c && s.locks[key] == d;
  }

  // ---------------------------------------------------------------- queues

  ghost predicate InsertsInto(call: Call, q: QueueId) {
    !call.op.Update? && call.pc.QueueInsert? && QueueOf(call.op) == q
  }

  /** The map is no queue's any more. */
  ghost predicate Retired(s: State, m: MapId) {
    m < |s.maps| && forall q :: q in s.queues ==> s.queues[q] != m
  }

  ghost predicate QueuesDistinct(s: State) {
    && (forall q :: q in s.queues ==> s.queues[q] < |s.maps|)
    && (forall q, r :: q in s.queues && r in s.queues && s.queues[q] == s.queues[r] ==> q == r)
  }

  ghost predicate InsertersCurrent(s: State) {
    forall c, q :: c in s.calls && InsertsInto(s.calls[c], q) ==> q in s.queues && s.queues[q] == s.calls[c].pc.m
  }

  ghost predicate RefsRetired(s: State) {
    forall c :: c in s.calls && BatchRef(s.calls[c].pc).Some? ==> Retired(s, BatchRef(s.calls[c].pc).value)
  }

  /** What was drained is still exactly what the drained map holds. */
  ghost predicate BatchesIntact(s: State) {
    forall k :: 0 <= k < |s.history| ==> Retired(s, s.history[k].m) && s.maps[s.history[k].m] == s.history[k].requests
  }

  ghost predicate QueueInv(s: State) {
    QueuesDistinct(s) && InsertersCurrent(s) && RefsRetired(s) && BatchesIntact(s)
  }

  lemma MoveKeepsQueue(s: State, c: CallId, s': State)
    requires QueueInv(s) && Moved(s, c, s')
    ensures QueueInv(s')
  {
    assert forall m: nat :: Retired(s, m) ==> Retired(s', m);
    assert forall d :: d in s.calls && d != c ==> s'.calls[d] == s.calls[d];
  }

  lemma SpawnKeepsQueue(s: State, c: CallId, op: Op)
    requires QueueInv(s) && CanSpawn(s, c, op)
    ensures QueueInv(DoSpawn(s, c, op))
  {
    QueueStepKeepsQueue(s, c, DoSpawn(s, c, op));
  }

  /** Maps that were retired stay so, with their contents. */
  ghost predicate RetiredStay(s: State, s': State) {
    forall m: nat :: Retired(s, m) ==> Retired(s', m) && s'.maps[m] == s.maps[m]
  }

  /** A step of one queueing call: what it must do for the queue invariant to survive. */
  lemma QueueStepKeepsQueue(s: State, c: CallId, s': State)
    requires QueueInv(s) && OthersStay(s, c, s') && RetiredStay(s, s') && QueuesDistinct(s')
    requires forall d, q :: d in s.calls && d != c && InsertsInto(s.calls[d], q) ==>
      q in s'.queues && s'.queues[q] == s.queues[q]
    requires forall q :: InsertsInto(s'.calls[c], q) ==> q in s'.queues && s'.queues[q] == s'.calls[c].pc.m
    requires BatchRef(s'.calls[c].pc).Some? ==> Retired(s', BatchRef(s'.calls[c].pc).value)
    requires s.history <= s'.history
    requires forall k :: |s.history| <= k < |s'.history| ==>
      Retired(s', s'.history[k].m) && s'.maps[s'.history[k].m] == s'.history[k].requests
    ensures QueueInv(s')
  {
    assert forall d :: d in s.calls && d != c ==> s'.calls[d] == s.calls[d];
    assert InsertersCurrent(s');
    assert RefsRetired(s');
    assert BatchesIntact(s');
  }

  /** DoLoad, seen from the queues: either nothing changes or an empty map is added for one node. */
  ghost predicate AddsQueue(s: State, q: QueueId, s': State) {
    if q in s.queues then s'.queues == s.queues && s'.maps == s.maps
    else s'.queues == s.queues[q := |s.maps|] && s'.maps == s.maps + [map[]]
  }

  lemma LoadAdds(s: State, c: CallId)
    requires CanLoad(s, c)
    ensures var s' := DoLoad(s, c); var q := QueueOf(s.calls[c].op);
      && AddsQueue(s, q, s') && OthersStay(s, c, s') && SameLedger(s, s') && s'.locks == s.locks
      && q in s'.queues && s'.calls[c] == Call(s.calls[c].op, QueueInsert(s'.queues[q]))
  {
  }

  lemma LoadRetires(s: State, q: QueueId, s': State)
    requires QueueInv(s) && AddsQueue(s, q, s')
    ensures RetiredStay(s, s') && QueuesDistinct(s')
    ensures forall r :: r in s.queues ==> r in s'.queues && s'.queues[r] == s.queues[r]
    ensures forall r :: QueueMap(s', r) == QueueMap(s, r)
  {
    LoadKeepsMaps(s, q, s');
  }

  lemma LoadKeepsMaps(s: State, q: QueueId, s': State)
    requires QueuesDistinct(s) && AddsQueue(s, q, s')
    ensures forall r :: QueueMap(s', r) == QueueMap(s, r)
  {
    if q !in s.queues {
      forall r | r in s.queues ensures QueueMap(s', r) == QueueMap(s, r) {
        assert s'.queues[r] == s.queues[r] && s.queues[r] < |s.maps|;
      }
    }
  }

  lemma LoadKeepsQueue(s: State, c: CallId)
    requires QueueInv(s) && CanLoad(s, c)
    ensures QueueInv(DoLoad(s, c))
  {
    LoadAdds(s, c);
    LoadRetires(s, QueueOf(s.calls[c].op), DoLoad(s, c));
    LoadedKeepsQueue(s, c, DoLoad(s, c));
  }

  lemma LoadedKeepsQueue(s: State, c: CallId, s': State)
    requires QueueInv(s) && c in s.calls && !s.calls[c].op.Update?
    requires OthersStay(s, c, s') && RetiredStay(s, s') && QueuesDistinct(s') && s'.history == s.history
    requires forall r :: r in s.queues ==> r in s'.queues && s'.queues[r] == s.queues[r]
    requires var q := QueueOf(s.calls[c].op);
      q in s'.queues && s'.calls[c] == Call(s.calls[c].op, QueueInsert(s'.queues[q]))
    ensures QueueInv(s')
  {
    QueueStepKeepsQueue(s, c, s');
  }

  lemma InsertKeepsQueue(s: State, c: CallId)
    requires QueueInv(s) && CanInsert(s, c)
    ensures QueueInv(DoInsert(s, c)) && RetiredStay(s, DoInsert(s, c))
  {
    var s' := DoInsert(s, c);
    var q0 := QueueOf(s.calls[c].op);
    assert InsertsInto(s.calls[c], q0);
    assert s.queues[q0] == s.calls[c].pc.m;
    assert s'.queues == s.queues && |s'.maps| == |s.maps|;
    forall m: nat | Retired(s, m) ensures Retired(s', m) && s'.maps[m] == s.maps[m] {
      assert m != s.calls[c].pc.m;
    }
    QueueStepKeepsQueue(s, c, s');
  }

  /** No other call is inserting into the queue that a call is draining: both would hold its key. */
  lemma DrainerIsAlone(s: State, c: CallId, d: CallId)
    requires LocksInv(s) && CanDrain(s, c) && d in s.calls
    ensures !InsertsInto(s.calls[d], QueueOf(s.calls[c].op))
  {
    if InsertsInto(s.calls[d], QueueOf(s.calls[c].op)) {
      Exclusive(s, c, d, QueueKey(QueueOf(s.calls[c].op)));
    }
  }

  lemma DrainRetires(s: State, c: CallId)
    requires QueueInv(s) && CanDrain(s, c)
    ensures var s' := DoDrain(s, c); var q := QueueOf(s.calls[c].op);
      && RetiredStay(s, s') && QueuesDistinct(s')
      && (q in s.queues ==> Retired(s', s.queues[q]) && s'.maps[s.queues[q]] == s.maps[s.queues[q]])
  {
  }

  lemma DrainKeepsQueue(s: State, c: CallId)
    requires LocksInv(s) && QueueInv(s) && CanDrain(s, c)
    ensures QueueInv(DoDrain(s, c))
  {
    var s' := DoDrain(s, c);
    var q := QueueOf(s.calls[c].op);
    forall d, r | d in s.calls && d != c && InsertsInto(s.calls[d], r)
      ensures r in s'.queues && s'.queues[r] == s.queues[r] {
      DrainerIsAlone(s, c, d);
    }
    DrainRetires(s, c);
    DrainRecords(s, c);
    QueueStepKeepsQueue(s, c, s');
  }

  lemma DrainRecords(s: State, c: CallId)
    requires QueueInv(s) && CanDrain(s, c)
    ensures var s' := DoDrain(s, c); var q := QueueOf(s.calls[c].op);
      && OthersStay(s, c, s') && (forall r :: !InsertsInto(s'.calls[c], r))
      && BatchRef(s'.calls[c].pc) == (if q in s.queues then Some(s.queues[q]) else None)
      && s'.history == s.history + if q in s.queues then [Batch(c, q, s.queues[q], s.maps[s.queues[q]])] else []
  {
  }

  lemma StepKeepsQueue(cfg: Config, s: State, l: Label)
    requires ShapeInv(s) && LocksInv(s) && QueueInv(s) && Enabled(cfg, s, l)
    ensures QueueInv(Apply(cfg, s, l))
  {
    if LeavesQueues(l) {
      StepMoves(cfg, s, l);
      MoveKeepsQueue(s, l.c, Apply(cfg, s, l));
    } else {
      match l {
        case Spawn(c, op) => SpawnKeepsQueue(s, c, op);
        case Load(c) => LoadKeepsQueue(s, c);
        case Insert(c) => InsertKeepsQueue(s, c);
        case Drain(c) => DrainKeepsQueue(s, c);
      }
    }
  }

  // ---------------------------------------------------------------- conservation

  /** `r` is a call whose request belongs in queue `q` under `u`. */
  ghost predicate IsRequest(s: State, r: CallId, q: QueueId, u: Uri) {
    r in s.calls && !s.calls[r].op.Update? && QueueOf(s.calls[r].op) == q && s.calls[r].op.uri == u
  }

  ghost function QueueMap(s: State, q: QueueId): map<Uri, CallId> {
    if q in s.queues then Requests(s, Some(s.queues[q])) else map[]
  }

  ghost predicate Queued(s: State, r: CallId, q: QueueId, u: Uri) {
    u in QueueMap(s, q) && QueueMap(s, q)[u] == r
  }

  /** What is in a queue is a request whose owner is still to drain it. */
  ghost predicate QueuedInv(s: State) {
    forall r, q, u :: Queued(s, r, q, u) ==>
      IsRequest(s, r, q, u) && r in s.enqueued && r !in s.drainedIn && Waiting(s.calls[r].pc)
  }

  ghost predicate InBatch(s: State, r: CallId, k: int, u: Uri) {
    0 <= k < |s.history| && u in s.history[k].requests && s.history[k].requests[u] == r
  }

  /** The batch that the call drained itself holds a request for its disk. */
  ghost predicate OwnBatch(s: State, c: CallId) {
    c in s.calls && !s.calls[c].op.Update?
    && exists k :: 0 <= k < |s.history| && s.history[k].drainer == c && s.calls[c].op.uri in s.history[k].requests
  }

  /** A request that was enqueued is in its queue or in the batch on record. */
  ghost predicate Accounted(s: State, r: CallId) {
    r in s.calls && !s.calls[r].op.Update? &&
    if r in s.drainedIn then InBatch(s, r, s.drainedIn[r], s.calls[r].op.uri)
    else Queued(s, r, QueueOf(s.calls[r].op), s.calls[r].op.uri)
  }

  ghost predicate LedgerInv(s: State) {
    && (forall r :: r in s.enqueued ==> Accounted(s, r))
    && (forall r :: r in s.drainedIn ==> r in s.enqueued)
    && (forall r, k, u :: InBatch(s, r, k, u) ==>
          IsRequest(s, r, s.history[k].queue, u) && r in s.drainedIn && s.drainedIn[r] == k)
  }

  /** A call that went through insertion is represented by a request for its disk, drained no
      later than by the call itself. */
  ghost predicate Covered(s: State, c: CallId) {
    && c in s.calls && !s.calls[c].op.Update? && !BeforeInsert(s.calls[c].pc)
    && c in s.coveredBy && s.coveredBy[c] in s.enqueued
    && IsRequest(s, s.coveredBy[c], QueueOf(s.calls[c].op), s.calls[c].op.uri)
    && (Waiting(s.calls[c].pc) || s.coveredBy[c] in s.drainedIn)
  }

  ghost predicate CoverInv(s: State) {
    && (forall c :: c in s.coveredBy ==> Covered(s, c))
    && (forall c :: c in s.enqueued ==> c in s.coveredBy && s.coveredBy[c] == c)
    && (forall c :: c in s.calls && !s.calls[c].op.Update? && !BeforeInsert(s.calls[c].pc) && !s.calls[c].pc.Done? ==>
          c in s.coveredBy)
  }

  ghost predicate ConserveInv(s: State) { QueuedInv(s) && LedgerInv(s) && CoverInv(s) }

  /** Calls other than `c` stay as they are, and `c` keeps its operation. */
  ghost predicate SameOps(s: State, c: CallId, s': State) {
    && (forall d :: d in s.calls ==> d in s'.calls && s'.calls[d].op == s.calls[d].op)
    && (forall d :: d in s.calls && d != c ==> s'.calls[d] == s.calls[d])
  }

  ghost predicate SameLedger(s: State, s': State) {
    s'.enqueued == s.enqueued && s'.coveredBy == s.coveredBy && s'.drainedIn == s.drainedIn && s'.history == s.history
  }

  ghost predicate SameQueues(s: State, s': State) {
    forall q :: QueueMap(s', q) == QueueMap(s, q)
  }

  /** A call moves without entering or leaving the waiting phase. */
  ghost predicate QuietMove(s: State, c: CallId, s': State) {
    && c in s'.calls && s'.calls.Keys == s.calls.Keys + {c}
    && if c in s.calls
       then (Waiting(s.calls[c].pc) <==> Waiting(s'.calls[c].pc))
            && (BeforeInsert(s'.calls[c].pc) ==> BeforeInsert(s.calls[c].pc))
            && (BeforeInsert(s.calls[c].pc) && !BeforeInsert(s'.calls[c].pc) ==>
                  s'.calls[c].pc.Done? || s'.calls[c].op.Update?)
            && !s.calls[c].pc.Done?
       else BeforeInsert(s'.calls[c].pc)
  }

  lemma QuietKeepsQueued(s: State, c: CallId, s': State)
    requires QueuedInv(s) && SameOps(s, c, s') && SameLedger(s, s') && SameQueues(s, s') && QuietMove(s, c, s')
    ensures QueuedInv(s')
  {
    forall r, q, u | Queued(s', r, q, u)
      ensures IsRequest(s', r, q, u) && r in s'.enqueued && r !in s'.drainedIn && Waiting(s'.calls[r].pc) {
      assert Queued(s, r, q, u);
    }
  }

  lemma QuietKeepsLedger(s: State, c: CallId, s': State)
    requires LedgerInv(s) && SameOps(s, c, s') && SameLedger(s, s') && SameQueues(s, s')
    ensures LedgerInv(s')
  {
    forall r | r in s'.enqueued ensures Accounted(s', r) { assert Accounted(s, r); }
    forall r, k, u | InBatch(s', r, k, u)
      ensures IsRequest(s', r, s'.history[k].queue, u) && r in s'.drainedIn && s'.drainedIn[r] == k {
      assert InBatch(s, r, k, u);
    }
  }

  lemma QuietKeepsCover(s: State, c: CallId, s': State)
    requires CoverInv(s) && SameOps(s, c, s') && SameLedger(s, s') && QuietMove(s, c, s')
    ensures CoverInv(s')
  {
    forall d | d in s'.coveredBy ensures Covered(s', d) { assert Covered(s, d); }
  }

  /** Steps that change no queue's contents and no record. */
  lemma QuietStepKeepsConserve(s: State, c: CallId, s': State)
    requires ConserveInv(s) && SameOps(s, c, s') && SameLedger(s, s') && SameQueues(s, s') && QuietMove(s, c, s')
    ensures ConserveInv(s')
  {
    QuietKeepsQueued(s, c, s');
    QuietKeepsLedger(s, c, s');
    QuietKeepsCover(s, c, s');
  }

  lemma MoveKeepsConserve(s: State, c: CallId, s': State)
    requires ConserveInv(s) && Moved(s, c, s')
    ensures ConserveInv(s')
  {
    assert SameQueues(s, s');
    QuietStepKeepsConserve(s, c, s');
  }

  lemma SpawnKeepsConserve(s: State, c: CallId, op: Op)
    requires ConserveInv(s) && CanSpawn(s, c, op)
    ensures ConserveInv(DoSpawn(s, c, op))
  {
    assert SameQueues(s, DoSpawn(s, c, op));
    QuietStepKeepsConserve(s, c, DoSpawn(s, c, op));
  }

  lemma LoadKeepsConserve(s: State, c: CallId)
    requires QueueInv(s) && ConserveInv(s) && CanLoad(s, c)
    ensures ConserveInv(DoLoad(s, c))
  {
    LoadAdds(s, c);
    LoadRetires(s, QueueOf(s.calls[c].op), DoLoad(s, c));
    LoadedKeepsConserve(s, c, DoLoad(s, c));
  }

  lemma LoadedKeepsConserve(s: State, c: CallId, s': State)
    requires ConserveInv(s) && c in s.calls && s.calls[c].pc.QueueLoad?
    requires OthersStay(s, c, s') && SameLedger(s, s') && SameQueues(s, s')
    requires s'.calls[c].op == s.calls[c].op && s'.calls[c].pc.QueueInsert?
    ensures ConserveInv(s')
  {
    QuietStepKeepsConserve(s, c, s');
  }

  /** A new request appears in its own queue and nowhere else. */
  lemma InsertQueues(s: State, c: CallId)
    requires QueueInv(s) && CanInsert(s, c)
    ensures var q0 := QueueOf(s.calls[c].op); var u0 := s.calls[c].op.uri; var s' := DoInsert(s, c);
      && s.maps[s.calls[c].pc.m] == QueueMap(s, q0)
      && (forall q :: q != q0 ==> QueueMap(s', q) == QueueMap(s, q))
      && QueueMap(s', q0) == WithRequest(QueueMap(s, q0), u0, c)
  {
    var q0 := QueueOf(s.calls[c].op);
    var s' := DoInsert(s, c);
    assert InsertsInto(s.calls[c], q0);
    forall q | q in s.queues && q != q0 ensures QueueMap(s', q) == QueueMap(s, q) {
      assert s.queues[q] != s.queues[q0];
    }
  }

  lemma NotYetInserted(s: State, c: CallId)
    requires ConserveInv(s) && CanInsert(s, c)
    ensures c !in s.coveredBy && c !in s.enqueued
  {
    assert !Covered(s, c);
  }

  lemma InsertKeepsQueued(s: State, c: CallId)
    requires QueueInv(s) && ConserveInv(s) && CanInsert(s, c)
    ensures QueuedInv(DoInsert(s, c))
  {
    InsertQueues(s, c);
    NotYetInserted(s, c);
    var s' := DoInsert(s, c);
    var q0, u0 := QueueOf(s.calls[c].op), s.calls[c].op.uri;
    forall r, q, u | Queued(s', r, q, u)
      ensures IsRequest(s', r, q, u) && r in s'.enqueued && r !in s'.drainedIn && Waiting(s'.calls[r].pc) {
      if q == q0 && u == u0 && u0 !in QueueMap(s, q0) {
        assert r == c;
      } else {
        assert Queued(s, r, q, u);
      }
    }
  }

  /** A request stays accounted for if its queue still holds it and the record is the same. */
  lemma AccountedFrame(s: State, s': State, r: CallId)
    requires Accounted(s, r) && r in s'.calls && s'.calls[r].op == s.calls[r].op
    requires s'.drainedIn == s.drainedIn && s'.history == s.history
    requires var q, u := QueueOf(s.calls[r].op), s.calls[r].op.uri; Queued(s, r, q, u) ==> Queued(s', r, q, u)
    ensures Accounted(s', r)
  {
  }

  lemma InsertAccounts(s: State, c: CallId, r: CallId)
    requires QueueInv(s) && ConserveInv(s) && CanInsert(s, c) && r in DoInsert(s, c).enqueued
    ensures Accounted(DoInsert(s, c), r)
  {
    InsertQueues(s, c);
    NotYetInserted(s, c);
    var s' := DoInsert(s, c);
    if r == c {
      assert Queued(s', c, QueueOf(s.calls[c].op), s.calls[c].op.uri);
    } else {
      assert Accounted(s, r);
      AccountedFrame(s, s', r);
    }
  }

  lemma InsertKeepsLedger(s: State, c: CallId)
    requires QueueInv(s) && ConserveInv(s) && CanInsert(s, c)
    ensures LedgerInv(DoInsert(s, c))
  {
    var s' := DoInsert(s, c);
    forall r | r in s'.enqueued ensures Accounted(s', r) { InsertAccounts(s, c, r); }
    forall r, k, u | InBatch(s', r, k, u)
      ensures IsRequest(s', r, s'.history[k].queue, u) && r in s'.drainedIn && s'.drainedIn[r] == k {
      assert InBatch(s, r, k, u);
    }
  }

  lemma InsertKeepsCover(s: State, c: CallId)
    requires QueueInv(s) && ConserveInv(s) && CanInsert(s, c)
    ensures CoverInv(DoInsert(s, c))
  {
    InsertQueues(s, c);
    NotYetInserted(s, c);
    var s' := DoInsert(s, c);
    var q0, u0 := QueueOf(s.calls[c].op), s.calls[c].op.uri;
    if u0 in QueueMap(s, q0) {
      assert Queued(s, QueueMap(s, q0)[u0], q0, u0);
    }
    forall d | d in s'.coveredBy ensures Covered(s', d) {
      if d != c { assert Covered(s, d); }
    }
  }

  lemma InsertKeepsConserve(s: State, c: CallId)
    requires QueueInv(s) && ConserveInv(s) && CanInsert(s, c)
    ensures ConserveInv(DoInsert(s, c))
  {
    InsertKeepsQueued(s, c);
    InsertKeepsLedger(s, c);
    InsertKeepsCover(s, c);
  }

  /** Draining empties one queue and puts exactly its contents on record. */
  lemma DrainQueues(s: State, c: CallId)
    requires QueueInv(s) && CanDrain(s, c) && QueueOf(s.calls[c].op) in s.queues
    ensures var q0 := QueueOf(s.calls[c].op); var s' := DoDrain(s, c); var k0 := |s.history|;
      && (forall q :: q != q0 ==> QueueMap(s', q) == QueueMap(s, q))
      && QueueMap(s', q0) == map[]
      && s'.history[..k0] == s.history && |s'.history| == k0 + 1
      && s'.history[k0].requests == QueueMap(s, q0) && s'.history[k0].queue == q0
      && s'.drainedIn == s.drainedIn + map r | r in QueueMap(s, q0).Values :: k0
  {
    var s' := DoDrain(s, c);
    forall q | q in s.queues && q != QueueOf(s.calls[c].op) ensures QueueMap(s', q) == QueueMap(s, q) {
      assert s'.queues[q] == s.queues[q];
    }
  }

  lemma DrainTakes(s: State, r: CallId, q: QueueId)
    requires ConserveInv(s) && r in QueueMap(s, q).Values
    ensures r in s.enqueued && r !in s.drainedIn && r in s.calls && !s.calls[r].op.Update?
    ensures QueueOf(s.calls[r].op) == q && Queued(s, r, q, s.calls[r].op.uri)
  {
    var u :| u in QueueMap(s, q) && QueueMap(s, q)[u] == r;
    assert Queued(s, r, q, u);
  }

  lemma DrainKeepsConserve(s: State, c: CallId)
    requires QueueInv(s) && ConserveInv(s) && CanDrain(s, c)
    ensures ConserveInv(DoDrain(s, c))
  {
    var q0 := QueueOf(s.calls[c].op);
    assert c in s.coveredBy;
    if q0 in s.queues {
      DrainQueues(s, c);
      DrainKeepsQueued(s, c);
      DrainKeepsLedger(s, c);
      DrainKeepsCover(s, c);
    } else {
      // cannot happen: the call's own request is in the queue or drained from it
      UncreatedQueueIsUnused(s, c);
    }
  }

  lemma UncreatedQueueIsUnused(s: State, c: CallId)
    requires QueueInv(s) && ConserveInv(s) && CanDrain(s, c) && QueueOf(s.calls[c].op) !in s.queues
    ensures ConserveInv(DoDrain(s, c))
  {
    var r := s.coveredBy[c];
    assert Covered(s, c);
    assert Accounted(s, r);
    assert r in s.drainedIn;
    var s' := DoDrain(s, c);
    assert SameQueues(s, s');
    assert forall r, q, u :: IsRequest(s, r, q, u) ==> IsRequest(s', r, q, u);
    forall r, q, u | Queued(s', r, q, u)
      ensures IsRequest(s', r, q, u) && r in s'.enqueued && r !in s'.drainedIn && Waiting(s'.calls[r].pc) {
      assert Queued(s, r, q, u);
    }
    forall r | r in s'.enqueued ensures Accounted(s', r) { assert Accounted(s, r); }
    assert forall r, k, u :: InBatch(s', r, k, u) <==> InBatch(s, r, k, u);
    forall d | d in s'.coveredBy ensures Covered(s', d) { assert Covered(s, d); }
  }

  lemma DrainKeepsQueued(s: State, c: CallId)
    requires QueueInv(s) && ConserveInv(s) && CanDrain(s, c) && QueueOf(s.calls[c].op) in s.queues
    ensures QueuedInv(DoDrain(s, c))
  {
    DrainQueues(s, c);
    var s' := DoDrain(s, c);
    var q0 := QueueOf(s.calls[c].op);
    forall r, q, u | Queued(s', r, q, u)
      ensures IsRequest(s', r, q, u) && r in s'.enqueued && r !in s'.drainedIn && Waiting(s'.calls[r].pc) {
      assert Queued(s, r, q, u);
      if r in QueueMap(s, q0).Values { DrainTakes(s, r, q0); }
      assert r != c;
    }
  }

  lemma DrainKeepsLedger(s: State, c: CallId)
    requires QueueInv(s) && ConserveInv(s) && CanDrain(s, c) && QueueOf(s.calls[c].op) in s.queues
    ensures LedgerInv(DoDrain(s, c))
  {
    DrainQueues(s, c);
    var s' := DoDrain(s, c);
    var q0 := QueueOf(s.calls[c].op);
    var k0 := |s.history|;
    forall r | r in s'.enqueued ensures Accounted(s', r) {
      assert Accounted(s, r);
      if r in QueueMap(s, q0).Values {
        DrainTakes(s, r, q0);
        assert InBatch(s', r, k0, s.calls[r].op.uri);
      } else if r in s.drainedIn {
        assert s'.history[s.drainedIn[r]] == s.history[s.drainedIn[r]];
      }
    }
    forall r, k, u | InBatch(s', r, k, u)
      ensures IsRequest(s', r, s'.history[k].queue, u) && r in s'.drainedIn && s'.drainedIn[r] == k {
      if k < k0 {
        assert s'.history[k] == s.history[k];
        assert InBatch(s, r, k, u);
        if r in QueueMap(s, q0).Values { DrainTakes(s, r, q0); }
      } else {
        assert Queued(s, r, q0, u);
      }
    }
    forall r | r in s'.drainedIn ensures r in s'.enqueued {
      if r in QueueMap(s, q0).Values { DrainTakes(s, r, q0); }
    }
  }

  lemma DrainKeepsCover(s: State, c: CallId)
    requires QueueInv(s) && ConserveInv(s) && CanDrain(s, c) && QueueOf(s.calls[c].op) in s.queues
    ensures CoverInv(DoDrain(s, c))
  {
    DrainQueues(s, c);
    var s' := DoDrain(s, c);
    var q0 := QueueOf(s.calls[c].op);
    // the request standing for the drainer is drained already or in the queue being drained
    assert Covered(s, c);
    var r := s.coveredBy[c];
    assert Accounted(s, r);
    assert r in s'.drainedIn by {
      if r !in s.drainedIn { assert r in QueueMap(s, q0).Values; }
    }
    forall d | d in s'.coveredBy ensures Covered(s', d) { assert Covered(s, d); }
  }

  lemma StepKeepsConserve(cfg: Config, s: State, l: Label)
    requires ShapeInv(s) && QueueInv(s) && ConserveInv(s) && Enabled(cfg, s, l)
    ensures ConserveInv(Apply(cfg, s, l))
  {
    if LeavesQueues(l) {
      StepMoves(cfg, s, l);
      MoveKeepsConserve(s, l.c, Apply(cfg, s, l));
    } else {
      match l {
        case Spawn(c, op) => SpawnKeepsConserve(s, c, op);
        case Load(c) => LoadKeepsConserve(s, c);
        case Insert(c) => InsertKeepsConserve(s, c);
        case Drain(c) => DrainKeepsConserve(s, c);
      }
    }
  }
}
