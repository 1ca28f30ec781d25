/** What the attach/detach protocol guarantees about the VMs and about its return values. */
module AttachSafety {
  import opened Wrappers
  import opened GoStrings
  import opened LunAllocator
  import opened AttachProtocol
  import opened AttachInvariants

  /** The switches and contracts under which AttachDisk's return value can be trusted. */
  predicate SoundAttach(cfg: Config) {
    cfg.exactViews && if cfg.lunCheck then cfg.namesFaithful else cfg.retryCompletes
  }

  /** ... and DetachDisk's. */
  predicate SoundDetach(cfg: Config) {
    cfg.lunCheck && cfg.noDetachFlags && cfg.goneIsEmpty
  }

  // ---------------------------------------------------------------- LUNs and VM contents

  /** The LUN of one set of disks is used in the other only for the same disk. */
  ghost predicate Compatible(disks: Disks, luns: Disks) {
    forall u, v :: u in disks && v in luns && disks[u] == luns[v] ==> u == v
  }

  lemma AttachKeepsDistinct(before: Disks, luns: Disks, after: Disks)
    requires DistinctLuns(before) && DistinctLuns(luns) && Compatible(before, luns) && AttachEffect(before, luns, after)
    ensures DistinctLuns(after) && Compatible(after, luns)
  {
    forall u, v | u in after && v in after && after[u] == after[v] ensures u == v {
    }
  }

  lemma DetachKeepsDistinct(before: Disks, asked: set<Uri>, after: Disks)
    requires DistinctLuns(before) && DetachEffect(before, asked, after)
    ensures DistinctLuns(after)
  {
  }

  /** What a successful SetDiskLun tells the caller, whatever the occupied LUNs. */
  lemma AllocationFacts(view: View, uri: Uri, batch: seq<Uri>, occupied: seq<int>)
    requires Distinct(batch) && Lower(uri) == uri && forall u :: u in batch ==> Lower(u) == u
    requires Allocate(view, uri, batch, occupied).Assigned?
    ensures var r := Allocate(view, uri, batch, occupied);
      && r.luns.Keys == (set u | u in batch) && DistinctLuns(r.luns) && r.luns.Values !! ViewLuns(view)
      && (if uri in batch then r.lun == r.luns[uri] else Shows(view, uri, r.lun))
  {
    var r := Allocate(view, uri, batch, occupied);
    if batch == [] {
      LunOfUriShown(view, uri);
    } else {
      AllocateExact(view, uri, batch, occupied);
      assert forall u :: u in r.luns ==> r.luns[u] in r.luns.Values;
    }
  }

  lemma CoveredLuns(view: View, disks: Disks)
    requires Covers(view, disks)
    ensures disks.Values <= ViewLuns(view)
  {
    forall l | l in disks.Values ensures l in ViewLuns(view) {
      var u :| u in disks && disks[u] == l;
      assert Shows(view, u, l);
      var i :| 0 <= i < |view| && IsDiskAt(view[i], u, l);
    }
  }

  lemma ShownIsOn(view: View, disks: Disks, uri: Uri, lun: int)
    requires Exact(view, disks) && Lower(uri) == uri && Shows(view, uri, lun)
    ensures uri in disks && disks[uri] == lun
  {
    var i :| 0 <= i < |view| && IsDiskAt(view[i], uri, lun);
  }

  // ---------------------------------------------------------------- the invariant

  ghost predicate KeysLower(s: State) {
    forall i, u :: 0 <= i < |s.maps| && u in s.maps[i] ==> Lower(u) == u
  }

  /** The LUNs written in a batch's options are the batch's own, distinct, and clash with nothing on the VM. */
  ghost predicate Ready(s: State, node: Node, m: MapId, luns: Disks) {
    m < |s.maps| && luns.Keys == s.maps[m].Keys && DistinctLuns(luns) && Compatible(DisksOn(s, node), luns)
  }

  /** Before the VM is called, no allocated LUN is in use on it. */
  ghost predicate Fresh(disks: Disks, luns: Disks) {
    forall u, v :: u in disks && v in luns ==> disks[u] != luns[v]
  }

  /** The LUN that a call is going to return belongs to its disk, on the VM or in the batch. */
  predicate Points(disks: Disks, luns: Disks, uri: Uri, lun: int) {
    if uri in luns then luns[uri] == lun else uri in disks && disks[uri] == lun
  }

  predicate IsOn(disks: Disks, uri: Uri, lun: int) {
    uri in disks && disks[uri] == lun
  }

  ghost predicate CallFacts(cfg: Config, s: State, call: Call) {
    var disks := DisksOn(s, call.op.node);
    match call.pc
    case Attaching(m, luns, lun) =>
      && call.op.Attach? && Ready(s, call.op.node, m, luns) && Fresh(disks, luns)
      && (cfg.exactViews || call.op.uri in luns ==> Points(disks, luns, call.op.uri, lun))
    case Retrying(m, luns, lun) =>
      && call.op.Attach? && Ready(s, call.op.node, m, luns)
      && (cfg.exactViews || call.op.uri in luns ==> Points(disks, luns, call.op.uri, lun))
    case Release(r) =>
      && (r.Success? ==> call.op.Attach? && (SoundAttach(cfg) ==> IsOn(disks, call.op.uri, r.lun)))
      && (r.Detached? || r.Gone? ==> call.op.Detach? && (SoundDetach(cfg) ==> call.op.uri !in disks))
    case Check => cfg.lunCheck
    case _ => true
  }

  ghost predicate VmInv(cfg: Config, s: State) {
    && KeysLower(s)
    && (forall n :: n in s.vms ==> DistinctLuns(s.vms[n]))
    && (forall c :: c in s.calls ==> CallFacts(cfg, s, s.calls[c]))
  }

  /** The calls about which CallFacts says anything. */
  predicate HasFacts(pc: Pc) { pc.Attaching? || pc.Retrying? || pc.Release? }

  // ---------------------------------------------------------------- frames

  lemma FactsFrame(cfg: Config, s: State, s': State, call: Call)
    requires CallFacts(cfg, s, call) && RetiredStay(s, s')
    requires BatchRef(call.pc).Some? ==> Retired(s, BatchRef(call.pc).value)
    requires HasFacts(call.pc) ==> DisksOn(s', call.op.node) == DisksOn(s, call.op.node)
    ensures CallFacts(cfg, s', call)
  {
  }

  /** A step of call `c` that changes at most the VM whose lock it holds. */
  lemma VmStep(cfg: Config, s: State, c: CallId, s': State)
    requires LocksInv(s) && QueueInv(s) && VmInv(cfg, s) && OthersStay(s, c, s') && RetiredStay(s, s') && KeysLower(s')
    requires c in s.calls ==> s'.vms == s.vms || s.calls[c].op.node in Held(s.calls[c])
    requires c in s.calls ==> forall n :: (c in s.calls && n == s.calls[c].op.node) || DisksOn(s', n) == DisksOn(s, n)
    requires c !in s.calls ==> s'.vms == s.vms
    requires forall n :: n in s'.vms ==> DistinctLuns(s'.vms[n])
    requires CallFacts(cfg, s', s'.calls[c])
    ensures VmInv(cfg, s')
  {
    forall d | d in s'.calls ensures CallFacts(cfg, s', s'.calls[d]) {
      if d != c {
        var call := s.calls[d];
        assert s'.calls[d] == call && CallFacts(cfg, s, call);
        if HasFacts(call.pc) && DisksOn(s', call.op.node) != DisksOn(s, call.op.node) {
          assert call.op.node in Held(call);
          Exclusive(s, c, d, call.op.node);
        }
        FactsFrame(cfg, s, s', call);
      }
    }
  }

  /** A step that leaves VMs and maps alone. */
  lemma QuietVmStep(cfg: Config, s: State, c: CallId, s': State)
    requires LocksInv(s) && QueueInv(s) && VmInv(cfg, s) && c in s.calls && OthersStay(s, c, s')
    requires s'.vms == s.vms && s'.maps == s.maps && s'.queues == s.queues
    requires CallFacts(cfg, s, s'.calls[c])
    ensures VmInv(cfg, s')
  {
    assert RetiredStay(s, s');
    assert CallFacts(cfg, s', s'.calls[c]);
    VmStep(cfg, s, c, s');
  }

  /** A step after which the VM of the caller's node carries `disks`. */
  lemma SetDisksStep(cfg: Config, s: State, c: CallId, pc: Pc, disks: Disks)
    requires LocksInv(s) && QueueInv(s) && VmInv(cfg, s) && c in s.calls && s.calls[c].op.node in Held(s.calls[c])
    requires DistinctLuns(disks)
    requires CallFacts(cfg, SetDisks(s, c, pc, disks), Call(s.calls[c].op, pc))
    ensures VmInv(cfg, SetDisks(s, c, pc, disks))
  {
    var s' := SetDisks(s, c, pc, disks);
    assert RetiredStay(s, s');
    assert forall n :: n != s.calls[c].op.node ==> DisksOn(s', n) == DisksOn(s, n);
    VmStep(cfg, s, c, s');
  }

  // ---------------------------------------------------------------- steps under the node lock

  ghost predicate Good(cfg: Config, s: State) { ShapeInv(s) && LocksInv(s) && QueueInv(s) && VmInv(cfg, s) }

  lemma BatchKeys(cfg: Config, s: State, c: CallId, view: View, order: seq<Uri>)
    requires Good(cfg, s) && CanAllocate(cfg, s, c, view, order)
    ensures forall u :: u in order ==> Lower(u) == u
    ensures s.calls[c].pc.batch.Some? ==> s.calls[c].pc.batch.value < |s.maps|
  {
    var batch := s.calls[c].pc.batch;
    if batch.Some? {
      assert BatchRef(s.calls[c].pc) == batch;
      assert Retired(s, batch.value);
    }
  }

  lemma AllocateStep(cfg: Config, s: State, c: CallId, view: View, order: seq<Uri>)
    requires Good(cfg, s) && CanAllocate(cfg, s, c, view, order)
    ensures VmInv(cfg, DoAllocate(cfg, s, c, view, order))
  {
    BatchKeys(cfg, s, c, view, order);
    var call := s.calls[c];
    var disks := DisksOn(s, call.op.node);
    var r := Allocate(view, call.op.uri, order, call.op.occupied);
    var s' := DoAllocate(cfg, s, c, view, order);
    assert CallShape(call);
    if r.Assigned? {
      AllocationFacts(view, call.op.uri, order, call.op.occupied);
      CoveredLuns(view, disks);
      if cfg.exactViews && call.op.uri !in order { ShownIsOn(view, disks, call.op.uri, r.lun); }
      AllocatedFacts(cfg, s, call, order, r);
    }
    QuietVmStep(cfg, s, c, s');
  }

  lemma AllocatedFacts(cfg: Config, s: State, call: Call, order: seq<Uri>, r: Allocation)
    requires call.op.Attach? && call.pc.Work? && r.Assigned? && VisitsAll(order, Requests(s, call.pc.batch))
    requires call.pc.batch.Some? ==> call.pc.batch.value < |s.maps|
    requires r.luns.Keys == (set u | u in order) && DistinctLuns(r.luns)
    requires DisksOn(s, call.op.node).Values !! r.luns.Values
    requires cfg.exactViews || call.op.uri in r.luns ==> Points(DisksOn(s, call.op.node), r.luns, call.op.uri, r.lun)
    ensures CallFacts(cfg, s, Call(call.op, AfterAllocation(cfg, call.pc.batch, order, r)))
  {
    if order != [] {
      var requests := Requests(s, call.pc.batch);
      assert order[0] in requests;
      assert r.luns.Keys == requests.Keys;
      assert Fresh(DisksOn(s, call.op.node), r.luns) by {
        assert forall u :: u in r.luns ==> r.luns[u] in r.luns.Values;
      }
    }
  }

  lemma AskedIsLuns(s: State, node: Node, m: MapId, luns: Disks)
    requires Ready(s, node, m, luns)
    ensures Asked(s, m, luns) == luns
  {
  }

  lemma VmAttachStep(cfg: Config, s: State, c: CallId, disks: Disks, outcome: VmOutcome)
    requires Good(cfg, s) && CanVmAttach(s, c, disks, outcome)
    ensures VmInv(cfg, DoVmAttach(cfg, s, c, disks, outcome))
  {
    var call := s.calls[c];
    assert CallFacts(cfg, s, call);
    AskedIsLuns(s, call.op.node, call.pc.m, call.pc.luns);
    AttachKeepsDistinct(DisksOn(s, call.op.node), call.pc.luns, disks);
    SetDisksStep(cfg, s, c, AfterAttach(cfg, call.pc, outcome), disks);
  }

  lemma VmRetryStep(cfg: Config, s: State, c: CallId, disks: Disks, ok: bool)
    requires Good(cfg, s) && CanVmRetry(cfg, s, c, disks, ok)
    ensures VmInv(cfg, DoVmRetry(cfg, s, c, disks, ok))
  {
    var call := s.calls[c];
    assert CallFacts(cfg, s, call);
    AskedIsLuns(s, call.op.node, call.pc.m, call.pc.luns);
    AttachKeepsDistinct(DisksOn(s, call.op.node), call.pc.luns, disks);
    SetDisksStep(cfg, s, c, if ok then Finish(cfg, Success(call.pc.lun)) else Release(Failed), disks);
  }

  lemma VmDetachStep(cfg: Config, s: State, c: CallId, disks: Disks, outcome: VmOutcome)
    requires Good(cfg, s) && CanVmDetach(cfg, s, c, disks, outcome)
    ensures VmInv(cfg, DoVmDetach(cfg, s, c, disks, outcome))
  {
    DetachKeepsDistinct(DisksOn(s, s.calls[c].op.node), Requests(s, s.calls[c].pc.batch).Keys, disks);
    SetDisksStep(cfg, s, c, AfterDetach(cfg, s.calls[c].pc.batch, outcome), disks);
  }

  lemma VmForceDetachStep(cfg: Config, s: State, c: CallId, disks: Disks, ok: bool)
    requires Good(cfg, s) && CanVmForceDetach(s, c, disks, ok)
    ensures VmInv(cfg, DoVmForceDetach(cfg, s, c, disks, ok))
  {
    DetachKeepsDistinct(DisksOn(s, s.calls[c].op.node), Requests(s, Some(s.calls[c].pc.m)).Keys, disks);
    SetDisksStep(cfg, s, c, if ok then Finish(cfg, Detached) else Release(Failed), disks);
  }

  /** A LUN found by the check is the disk's own, if names can be trusted. */
  lemma CheckedLun(cfg: Config, view: View, disks: Disks, op: Op)
    requires op.Attach? && Lower(op.uri) == op.uri && ViewOk(cfg, view, disks, op)
    requires cfg.exactViews && cfg.namesFaithful && FindLun(view, op.name, op.uri).Lun?
    ensures IsOn(disks, op.uri, FindLun(view, op.name, op.uri).lun)
  {
    FindLunMeaning(view, op.name, op.uri);
    var r := FindLun(view, op.name, op.uri);
    var i :| Decides(view, op.name, op.uri, i) && r == if view[i].lun.Some? then Lun(view[i].lun.value) else Panic;
    assert IsDiskAt(view[i], op.uri, r.lun);
    ShownIsOn(view, disks, op.uri, r.lun);
  }

  /** A disk that the check does not find is off, unless the view flagged it. */
  lemma CheckedGone(cfg: Config, view: View, disks: Disks, op: Op)
    requires op.Detach? && ViewOk(cfg, view, disks, op)
    requires cfg.noDetachFlags && FindLun(view, op.name, op.uri).NoLun?
    ensures op.uri !in disks
  {
    FindLunMeaning(view, op.name, op.uri);
  }

  lemma CheckStep(cfg: Config, s: State, c: CallId, view: View)
    requires Good(cfg, s) && CanCheckLun(cfg, s, c, view)
    ensures VmInv(cfg, DoCheckLun(cfg, s, c, view))
  {
    CheckFacts(cfg, s, c, view);
    QuietVmStep(cfg, s, c, DoCheckLun(cfg, s, c, view));
  }

  lemma CheckFacts(cfg: Config, s: State, c: CallId, view: View)
    requires Good(cfg, s) && CanCheckLun(cfg, s, c, view)
    ensures var op := s.calls[c].op; CallFacts(cfg, s, Call(op, AfterCheck(op, FindLun(view, op.name, op.uri))))
  {
    var op := s.calls[c].op;
    var disks := DisksOn(s, op.node);
    var found := FindLun(view, op.name, op.uri);
    assert CallShape(s.calls[c]) && CallFacts(cfg, s, s.calls[c]);
    if op.Attach? && found.Lun? && cfg.exactViews && cfg.namesFaithful { CheckedLun(cfg, view, disks, op); }
    if op.Detach? && found.NoLun? && cfg.noDetachFlags { CheckedGone(cfg, view, disks, op); }
  }

  // ---------------------------------------------------------------- every step

  lemma QueueStepVm(cfg: Config, s: State, c: CallId, s': State)
    requires LocksInv(s) && QueueInv(s) && VmInv(cfg, s) && OthersStay(s, c, s') && RetiredStay(s, s') && KeysLower(s')
    requires s'.vms == s.vms && !HasFacts(s'.calls[c].pc) && !s'.calls[c].pc.Check?
    ensures VmInv(cfg, s')
  {
    VmStep(cfg, s, c, s');
  }

  lemma InsertKeysLower(cfg: Config, s: State, c: CallId)
    requires Good(cfg, s) && CanInsert(s, c)
    ensures KeysLower(DoInsert(s, c))
  {
    assert CallShape(s.calls[c]);
  }

  lemma SpawnKeepsVm(cfg: Config, s: State, c: CallId, op: Op)
    requires Good(cfg, s) && CanSpawn(s, c, op)
    ensures VmInv(cfg, DoSpawn(s, c, op))
  {
    assert RetiredStay(s, DoSpawn(s, c, op));
    QueueStepVm(cfg, s, c, DoSpawn(s, c, op));
  }

  lemma LoadKeepsVm(cfg: Config, s: State, c: CallId)
    requires Good(cfg, s) && CanLoad(s, c)
    ensures VmInv(cfg, DoLoad(s, c))
  {
    LoadAdds(s, c);
    LoadRetires(s, QueueOf(s.calls[c].op), DoLoad(s, c));
    QueueStepVm(cfg, s, c, DoLoad(s, c));
  }

  lemma InsertKeepsVm(cfg: Config, s: State, c: CallId)
    requires Good(cfg, s) && CanInsert(s, c)
    ensures VmInv(cfg, DoInsert(s, c))
  {
    InsertKeysLower(cfg, s, c);
    InsertKeepsQueue(s, c);
    QueueStepVm(cfg, s, c, DoInsert(s, c));
  }

  lemma DrainKeysLower(cfg: Config, s: State, c: CallId)
    requires Good(cfg, s) && CanDrain(s, c)
    ensures KeysLower(DoDrain(s, c))
  {
  }

  lemma DrainKeepsVm(cfg: Config, s: State, c: CallId)
    requires Good(cfg, s) && CanDrain(s, c)
    ensures VmInv(cfg, DoDrain(s, c))
  {
    DrainRetires(s, c);
    DrainKeysLower(cfg, s, c);
    QueueStepVm(cfg, s, c, DoDrain(s, c));
  }

  /** The steps that touch neither maps nor VMs and promise nothing new. */
  lemma PlainStepsKeepVm(cfg: Config, s: State, c: CallId, pc: Pc, s': State)
    requires Good(cfg, s) && c in s.calls && s' == Move(s, c, pc, s'.locks, s.vms)
    requires !pc.Attaching? && !pc.Retrying? && (pc.Check? ==> cfg.lunCheck)
    requires pc.Release? ==> !pc.result.Success? && !pc.result.Gone?
    requires pc.Release? && pc.result.Detached? ==> s.calls[c].op.Detach? && !cfg.lunCheck
    ensures VmInv(cfg, s')
  {
    QuietVmStep(cfg, s, c, s');
  }

  /** The steps in the VM's critical section. */
  predicate InNodeSection(l: Label) {
    l.AllocateLuns? || l.VmAttach? || l.VmRetry? || l.VmDetach? || l.VmForceDetach? || l.CheckLun?
  }

  lemma NodeStepsKeepVm(cfg: Config, s: State, l: Label)
    requires Good(cfg, s) && Enabled(cfg, s, l) && InNodeSection(l)
    ensures VmInv(cfg, Apply(cfg, s, l))
  {
    match l {
      case AllocateLuns(c, view, order) => AllocateStep(cfg, s, c, view, order);
      case VmAttach(c, disks, outcome) => VmAttachStep(cfg, s, c, disks, outcome);
      case VmRetry(c, disks, ok) => VmRetryStep(cfg, s, c, disks, ok);
      case VmDetach(c, disks, outcome) => VmDetachStep(cfg, s, c, disks, outcome);
      case VmForceDetach(c, disks, ok) => VmForceDetachStep(cfg, s, c, disks, ok);
      case CheckLun(c, view) => CheckStep(cfg, s, c, view);
    }
  }

  lemma QueueStepsKeepVm(cfg: Config, s: State, l: Label)
    requires Good(cfg, s) && Enabled(cfg, s, l) && !LeavesQueues(l)
    ensures VmInv(cfg, Apply(cfg, s, l))
  {
    match l {
      case Spawn(c, op) => SpawnKeepsVm(cfg, s, c, op);
      case Load(c) => LoadKeepsVm(cfg, s, c);
      case Insert(c) => InsertKeepsVm(cfg, s, c);
      case Drain(c) => DrainKeepsVm(cfg, s, c);
    }
  }

  lemma OtherStepsKeepVm(cfg: Config, s: State, l: Label)
    requires Good(cfg, s) && Enabled(cfg, s, l) && LeavesQueues(l) && !InNodeSection(l)
    ensures VmInv(cfg, Apply(cfg, s, l))
  {
    match l {
      case Refuse(c, gone) => PlainStepsKeepVm(cfg, s, c, Done(if gone then Gone else Failed), DoRefuse(s, c, gone));
      case AcquireKey(c) => PlainStepsKeepVm(cfg, s, c, AfterAcquire(s.calls[c]), DoAcquireKey(s, c));
      case ReleaseQueue(c) => PlainStepsKeepVm(cfg, s, c, DoReleaseQueue(s, c).calls[c].pc, DoReleaseQueue(s, c));
      case Abort(c) => PlainStepsKeepVm(cfg, s, c, Release(Failed), DoAbort(s, c));
      case SkipDetach(c) => PlainStepsKeepVm(cfg, s, c, Finish(cfg, Detached), DoSkipDetach(cfg, s, c));
      case VmUpdate(c, ok) =>
        PlainStepsKeepVm(cfg, s, c, Release(if ok then Updated else Failed), DoVmUpdate(s, c, ok));
      case Unlock(c) => PlainStepsKeepVm(cfg, s, c, Done(s.calls[c].pc.result), DoUnlock(s, c));
    }
  }

  lemma StepKeepsVm(cfg: Config, s: State, l: Label)
    requires Good(cfg, s) && Enabled(cfg, s, l)
    ensures VmInv(cfg, Apply(cfg, s, l))
  {
    if InNodeSection(l) {
      NodeStepsKeepVm(cfg, s, l);
    } else if LeavesQueues(l) {
      OtherStepsKeepVm(cfg, s, l);
    } else {
      QueueStepsKeepVm(cfg, s, l);
    }
  }

  // ---------------------------------------------------------------- every run

  ghost predicate Inv(cfg: Config, s: State) { Good(cfg, s) && ConserveInv(s) }

  lemma {:induction false} RunInv(cfg: Config, trace: seq<State>, labels: seq<Label>, i: nat)
    requires Run(cfg, trace, labels) && i < |trace|
    ensures Inv(cfg, trace[i])
  {
    if i > 0 {
      RunInv(cfg, trace, labels, i - 1);
      assert StepAt(cfg, trace, labels, i - 1);
      var s, l := trace[i - 1], labels[i - 1];
      StepKeepsShape(cfg, s, l);
      StepKeepsLocks(cfg, s, l);
      StepKeepsQueue(cfg, s, l);
      StepKeepsConserve(cfg, s, l);
      StepKeepsVm(cfg, s, l);
    }
  }
}
