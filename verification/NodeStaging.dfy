/** VolumeLocks (pkg/util/util.go): a set of volume IDs under a mutex. */
module VolumeLocks {
  class Locks {
    var locks: set<string>

    constructor () ensures locks == {} { locks := {}; }

    method TryAcquire(volumeID: string) returns (acquired: bool)
      modifies this
      ensures acquired <==> volumeID !in old(locks)
      ensures locks == old(locks) + {volumeID}
    {
      if volumeID in locks { return false; }
      locks := locks + {volumeID};
      return true;
    }

    method Release(volumeID: string)
      modifies this
      ensures locks == old(locks) - {volumeID}
    {
      locks := locks - {volumeID};
    }
  }
}

/** NodeStageVolume, NodeUnstageVolume and NodeExpandVolume (nodeserver.go) as steps on the node's
    mounts and crypt devices. Any number of calls interleave, and every step may fail. */
module NodeStaging {
  import opened VolumeLocks

  type Volume = string
  type Device = string     // the name of a crypt device: the disk name parsed from the volume ID
  type Path = string
  type CallId = int

  /** How requests name things: the disk name is a function of the volume ID; the staging path comes
      with the request, and the orchestrator always sends the same one for a volume. */
  datatype Plan = Plan(device: Volume -> Device, path: Volume -> Path)

  ghost predicate PathsDistinct(plan: Plan) {
    forall v, w :: plan.path(v) == plan.path(w) ==> v == w
  }

  ghost predicate DevicesDistinct(plan: Plan) {
    forall v, w :: plan.device(v) == plan.device(w) ==> v == w
  }

  datatype Op = Stage(volume: Volume, block: bool) | Unstage(volume: Volume) | Expand(volume: Volume, block: bool)

  datatype Pc =
    | Start
    | Locked             // holds the volume lock, from here to Release
    | EnsureMount
    | Opening            // inside OpenCryptDevice
    | Opened
    | Mounted
    | Closing            // inside CloseCryptDevice
    | Growing            // inside ResizeCryptDevice
    | Grown              // a file system is still to be resized and measured
    | Release(ok: bool)
    | Done(ok: bool)

  datatype Call = Call(op: Op, pc: Pc)

  /** `mounts` tells which device is mounted where; `open` are the crypt devices that are mapped. */
  datatype State = State(calls: map<CallId, Call>, locks: set<Volume>, mounts: map<Path, Device>, open: set<Device>)

  /** The answers of ensureMountPoint: an error that changes nothing, a valid mount, an invalid one
      that could not be or was unmounted (an error either way), or no mount. */
  datatype Ensured = EnsureError | AlreadyMounted | BadMount(unmounted: bool) | NotMounted

  datatype Label =
    | Spawn(c: CallId, op: Op)
    | TryLock(c: CallId)
    | Prepare(c: CallId, ok: bool)                     // device lookup and tuning; device path of an expansion
    | Ensure(c: CallId, answer: Ensured)
    | Open(c: CallId, ok: bool, mapped: bool)          // a failed open may leave the device mapped or not
    | Block(c: CallId)
    | Mount(c: CallId, ok: bool, mounted: bool)        // a failed mount may have happened or not
    | ResizeFs(c: CallId, ok: bool)
    | Cleanup(c: CallId, ok: bool, unmounted: bool)    // a failed cleanup may have unmounted or not
    | Close(c: CallId, ok: bool, unmapped: bool)       // a failed close may have unmapped or not
    | Grow(c: CallId, ok: bool)
    | Measure(c: CallId, ok: bool)                     // reading the size back, and the check on it
    | Unlock(c: CallId)

  predicate Enabled(plan: Plan, s: State, l: Label) {
    if l.Spawn? then l.c !in s.calls
    else
      l.c in s.calls &&
      var op, pc := s.calls[l.c].op, s.calls[l.c].pc;
      match l
      case TryLock(_) => pc.Start?
      case Prepare(_, ok) => pc.Locked? && !op.Unstage? && (op.Expand? && op.block ==> ok)
      case Ensure(_, answer) => pc.EnsureMount?
        && (answer.AlreadyMounted? ==> plan.path(op.volume) in s.mounts)
        && (answer.NotMounted? ==> plan.path(op.volume) !in s.mounts)
      case Open(_, ok, mapped) => pc.Opening? && (ok ==> mapped)
      case Block(_) => pc.Opened? && op.Stage? && op.block
      case Mount(_, ok, mounted) => pc.Opened? && !(op.Stage? && op.block) && (ok ==> mounted)
      case ResizeFs(_, _) => pc.Mounted?
      case Cleanup(_, ok, unmounted) => pc.Locked? && op.Unstage? && (ok ==> unmounted)
      case Close(_, ok, unmapped) => pc.Closing? && (ok ==> unmapped)
      case Grow(_, _) => pc.Growing?
      case Measure(_, _) => pc.Grown?
      case Unlock(_) => pc.Release?
  }

  function SetPc(s: State, c: CallId, pc: Pc): State
    requires c in s.calls
  {
    s.(calls := s.calls[c := s.calls[c].(pc := pc)])
  }

  function Apply(plan: Plan, s: State, l: Label): State
    requires Enabled(plan, s, l)
  {
    if l.Spawn? then s.(calls := s.calls[l.c := Call(l.op, Start)])
    else
      var c, op := l.c, s.calls[l.c].op;
      var device, path := plan.device(op.volume), plan.path(op.volume);
      match l
      case TryLock(_) =>
        if op.volume in s.locks then SetPc(s, c, Done(false))
        else SetPc(s, c, Locked).(locks := s.locks + {op.volume})
      case Prepare(_, ok) =>
        SetPc(s, c, if !ok then Release(false) else if op.Stage? then EnsureMount else Growing)
      case Ensure(_, answer) =>
        (match answer
         case EnsureError => SetPc(s, c, Release(false))
         case AlreadyMounted => SetPc(s, c, Release(true))
         case BadMount(unmounted) =>
           SetPc(s, c, Release(false)).(mounts := if unmounted then s.mounts - {path} else s.mounts)
         case NotMounted => SetPc(s, c, Opening))
      case Open(_, ok, mapped) =>
        SetPc(s, c, if ok then Opened else Release(false))
        .(open := if mapped then s.open + {device} else s.open - {device})
      case Block(_) => SetPc(s, c, Release(true))
      case Mount(_, ok, mounted) =>
        SetPc(s, c, if ok then Mounted else Release(false))
        .(mounts := if mounted then s.mounts[path := device] else s.mounts)
      case ResizeFs(_, ok) => SetPc(s, c, Release(ok))
      case Cleanup(_, ok, unmounted) =>
        SetPc(s, c, if ok then Closing else Release(false))
        .(mounts := if unmounted then s.mounts - {path} else s.mounts)
      case Close(_, ok, unmapped) =>
        SetPc(s, c, Release(ok)).(open := if unmapped then s.open - {device} else s.open)
      case Grow(_, ok) =>
        SetPc(s, c, if !ok then Release(false) else if op.Expand? && op.block then Release(true) else Grown)
      case Measure(_, ok) => SetPc(s, c, Release(ok))
      case Unlock(_) => SetPc(s, c, Done(s.calls[c].pc.ok)).(locks := s.locks - {op.volume})
  }

  // ---------------------------------------------------------------- what must always hold

  /** A mounted staging path has its crypt device open. */
  ghost predicate MountsOpen(s: State) {
    forall p :: p in s.mounts ==> s.mounts[p] in s.open
  }

  /** Mounts are where the plan puts them. */
  ghost predicate MountsPlanned(plan: Plan, s: State) {
    forall p :: p in s.mounts ==> exists v :: p == plan.path(v) && s.mounts[p] == plan.device(v)
  }

  predicate HoldsLock(pc: Pc) { !pc.Start? && !pc.Done? }

  ghost predicate LocksInv(s: State) {
    && (forall c :: c in s.calls && HoldsLock(s.calls[c].pc) ==> s.calls[c].op.volume in s.locks)
    && (forall c, d :: c in s.calls && d in s.calls && c != d ==>
          (HoldsLock(s.calls[c].pc) && HoldsLock(s.calls[d].pc) ==> s.calls[c].op.volume != s.calls[d].op.volume))
  }

  /** What a call knows about its own volume. */
  ghost predicate CallInv(plan: Plan, s: State, call: Call) {
    var device, path := plan.device(call.op.volume), plan.path(call.op.volume);
    && (call.pc.EnsureMount? || call.pc.Opening? || call.pc.Opened? || call.pc.Mounted? ==> call.op.Stage?)
    && (call.pc.Closing? ==> call.op.Unstage?)
    && (call.pc.Mounted? ==> call.op.Stage? && !call.op.block) && (call.pc.Grown? ==> call.op.Expand? && !call.op.block)
    && (call.pc.Growing? || call.pc.Grown? ==> call.op.Expand?)
    && (call.pc.Opening? || call.pc.Closing? ==> path !in s.mounts)
    && (call.pc.Opened? ==> path !in s.mounts && device in s.open)
    && (call.pc.Mounted? ==> path in s.mounts && device in s.open)
    && (call.pc == Release(true) && call.op.Stage? ==> device in s.open && (call.op.block || path in s.mounts))
    && (call.pc == Release(true) && call.op.Unstage? ==> path !in s.mounts && device !in s.open)
  }

  ghost predicate CallsInv(plan: Plan, s: State) {
    forall c :: c in s.calls ==> CallInv(plan, s, s.calls[c])
  }

  ghost predicate Inv(plan: Plan, s: State) {
    LocksInv(s) && MountsOpen(s) && MountsPlanned(plan, s) && CallsInv(plan, s)
  }

  // ---------------------------------------------------------------- every step keeps it

  lemma StepKeepsLocks(plan: Plan, s: State, l: Label)
    requires LocksInv(s) && Enabled(plan, s, l)
    ensures LocksInv(Apply(plan, s, l))
  {
    var s' := Apply(plan, s, l);
    OnlyOwnCallMoves(plan, s, l);
    LockFrame(s, l.c, s');
  }

  /** A step moves its own call only, and changes the locks only by taking or giving up its volume. */
  ghost predicate LockMove(s: State, c: CallId, s': State) {
    && c in s'.calls && s'.calls == s.calls[c := s'.calls[c]] && (c in s.calls ==> s'.calls[c].op == s.calls[c].op)
    && var volume := s'.calls[c].op.volume;
       var before, after := c in s.calls && HoldsLock(s.calls[c].pc), HoldsLock(s'.calls[c].pc);
       && (before == after ==> s'.locks == s.locks)
       && (!before && after ==> volume !in s.locks && s'.locks == s.locks + {volume})
       && (before && !after ==> s'.locks == s.locks - {volume})
  }

  lemma OnlyOwnCallMoves(plan: Plan, s: State, l: Label)
    requires Enabled(plan, s, l)
    ensures LockMove(s, l.c, Apply(plan, s, l))
  {
  }

  lemma LockFrame(s: State, c: CallId, s': State)
    requires LocksInv(s) && LockMove(s, c, s')
    ensures LocksInv(s')
  {
    assert forall d :: d in s.calls && d != c ==> s'.calls[d] == s.calls[d];
  }

  /** Only the volume's own device and path are touched. */
  ghost predicate TouchesOnly(plan: Plan, s: State, s': State, v: Volume) {
    && (forall d :: d != plan.device(v) ==> (d in s'.open <==> d in s.open))
    && (forall p :: p != plan.path(v) ==>
          (p in s'.mounts <==> p in s.mounts) && (p in s.mounts ==> s'.mounts[p] == s.mounts[p]))
  }

  lemma StepTouches(plan: Plan, s: State, l: Label)
    requires Enabled(plan, s, l) && l.c in s.calls
    ensures TouchesOnly(plan, s, Apply(plan, s, l), s.calls[l.c].op.volume)
    ensures !HoldsLock(s.calls[l.c].pc) ==> Apply(plan, s, l).open == s.open && Apply(plan, s, l).mounts == s.mounts
  {
  }

  /** A call on another volume is not disturbed. */
  lemma OtherCallUndisturbed(plan: Plan, s: State, s': State, v: Volume, call: Call)
    requires PathsDistinct(plan) && DevicesDistinct(plan) && TouchesOnly(plan, s, s', v)
    requires CallInv(plan, s, call) && call.op.volume != v
    ensures CallInv(plan, s', call)
  {
    assert plan.path(call.op.volume) != plan.path(v);
    assert plan.device(call.op.volume) != plan.device(v);
  }

  /** The stepping call itself. */
  lemma StepKeepsOwn(plan: Plan, s: State, l: Label)
    requires Inv(plan, s) && PathsDistinct(plan) && Enabled(plan, s, l)
    ensures CallInv(plan, Apply(plan, s, l), Apply(plan, s, l).calls[l.c])
  {
    if l.c in s.calls {
      var v := s.calls[l.c].op.volume;
      assert CallInv(plan, s, s.calls[l.c]);
      if plan.path(v) in s.mounts { MountedIsOpen(plan, s, v); }
    }
  }

  /** If a staging path is mounted, the volume's own device is open. */
  lemma MountedIsOpen(plan: Plan, s: State, v: Volume)
    requires MountsOpen(s) && MountsPlanned(plan, s) && PathsDistinct(plan) && plan.path(v) in s.mounts
    ensures s.mounts[plan.path(v)] == plan.device(v) && plan.device(v) in s.open
  {
    var w :| plan.path(v) == plan.path(w) && s.mounts[plan.path(v)] == plan.device(w);
    assert w == v;
  }

  lemma StepKeepsCalls(plan: Plan, s: State, l: Label)
    requires Inv(plan, s) && PathsDistinct(plan) && DevicesDistinct(plan) && Enabled(plan, s, l)
    ensures CallsInv(plan, Apply(plan, s, l))
  {
    var s' := Apply(plan, s, l);
    StepKeepsOwn(plan, s, l);
    forall d | d in s'.calls && d != l.c ensures CallInv(plan, s', s'.calls[d]) {
      assert d in s.calls && s'.calls[d] == s.calls[d] && CallInv(plan, s, s.calls[d]);
      if l.c in s.calls {
        StepTouches(plan, s, l);
        OtherStays(plan, s, l, d);
      }
    }
  }

  lemma OtherStays(plan: Plan, s: State, l: Label, d: CallId)
    requires Inv(plan, s) && PathsDistinct(plan) && DevicesDistinct(plan) && Enabled(plan, s, l)
    requires l.c in s.calls && d in s.calls && d != l.c
    requires TouchesOnly(plan, s, Apply(plan, s, l), s.calls[l.c].op.volume)
    requires !HoldsLock(s.calls[l.c].pc) ==> Apply(plan, s, l).open == s.open && Apply(plan, s, l).mounts == s.mounts
    ensures CallInv(plan, Apply(plan, s, l), s.calls[d])
  {
    var v := s.calls[l.c].op.volume;
    assert CallInv(plan, s, s.calls[d]);
    if HoldsLock(s.calls[d].pc) && HoldsLock(s.calls[l.c].pc) {
      OtherCallUndisturbed(plan, s, Apply(plan, s, l), v, s.calls[d]);
    }
  }

  /** Before a device is unmapped, its path has been unmounted; before a path is mounted, its device
      has been opened. */
  lemma StepKeepsMounts(plan: Plan, s: State, l: Label)
    requires Inv(plan, s) && PathsDistinct(plan) && DevicesDistinct(plan) && Enabled(plan, s, l)
    ensures MountsOpen(Apply(plan, s, l)) && MountsPlanned(plan, Apply(plan, s, l))
  {
    var s' := Apply(plan, s, l);
    if l.c in s.calls {
      var call := s.calls[l.c];
      var v := call.op.volume;
      assert CallInv(plan, s, call);
      forall p | p in s'.mounts
        ensures s'.mounts[p] in s'.open && exists w :: p == plan.path(w) && s'.mounts[p] == plan.device(w) {
        if p in s.mounts && s'.mounts[p] == s.mounts[p] {
          var w :| p == plan.path(w) && s.mounts[p] == plan.device(w);
          if s.mounts[p] == plan.device(v) { assert w == v; }
        }
      }
    }
  }

  lemma StepKeepsInv(plan: Plan, s: State, l: Label)
    requires Inv(plan, s) && PathsDistinct(plan) && DevicesDistinct(plan) && Enabled(plan, s, l)
    ensures Inv(plan, Apply(plan, s, l))
  {
    StepKeepsLocks(plan, s, l);
    StepKeepsCalls(plan, s, l);
    StepKeepsMounts(plan, s, l);
  }

  // ---------------------------------------------------------------- every run

  /** The driver starts with no call in flight; what earlier calls left mounted is open and in place. */
  ghost predicate Init(plan: Plan, s: State) {
    s.calls == map[] && s.locks == {} && MountsOpen(s) && MountsPlanned(plan, s)
  }

  ghost predicate StepAt(plan: Plan, trace: seq<State>, labels: seq<Label>, i: int)
    requires |trace| == |labels| + 1 && 0 <= i < |labels|
  {
    Enabled(plan, trace[i], labels[i]) && trace[i + 1] == Apply(plan, trace[i], labels[i])
  }

  ghost predicate Run(plan: Plan, trace: seq<State>, labels: seq<Label>) {
    && |trace| == |labels| + 1 && Init(plan, trace[0])
    && forall i :: 0 <= i < |labels| ==> StepAt(plan, trace, labels, i)
  }

  lemma {:induction false} RunInv(plan: Plan, trace: seq<State>, labels: seq<Label>, i: nat)
    requires Run(plan, trace, labels) && PathsDistinct(plan) && DevicesDistinct(plan) && i < |trace|
    ensures Inv(plan, trace[i])
  {
    if i > 0 {
      RunInv(plan, trace, labels, i - 1);
      assert StepAt(plan, trace, labels, i - 1);
      StepKeepsInv(plan, trace[i - 1], labels[i - 1]);
    }
  }

  /** The calls that are inside the crypt mapper. */
  predicate Touches(pc: Pc) { pc.Opening? || pc.Closing? || pc.Growing? }

  /** In every intermediate state of any interleaving with arbitrary failures: a mounted staging path
      has its device open, and no two calls are inside the crypt mapper for one device. */
  lemma StagingIsSafe(plan: Plan, trace: seq<State>, labels: seq<Label>, i: nat)
    requires Run(plan, trace, labels) && PathsDistinct(plan) && DevicesDistinct(plan) && i < |trace|
    ensures forall v :: plan.path(v) in trace[i].mounts ==>
      trace[i].mounts[plan.path(v)] == plan.device(v) && plan.device(v) in trace[i].open
    ensures forall c, d :: c in trace[i].calls && d in trace[i].calls && c != d ==>
      (Touches(trace[i].calls[c].pc) && Touches(trace[i].calls[d].pc) ==>
        plan.device(trace[i].calls[c].op.volume) != plan.device(trace[i].calls[d].op.volume))
  {
    RunInv(plan, trace, labels, i);
    forall v | plan.path(v) in trace[i].mounts
      ensures trace[i].mounts[plan.path(v)] == plan.device(v) && plan.device(v) in trace[i].open {
      MountedIsOpen(plan, trace[i], v);
    }
  }

  /** A call about to return success, still holding the volume lock: after an unstage neither the
      mount nor the mapping is left; after a stage the device is open and, unless it is a block
      volume, mounted. */
  lemma SuccessMeansDone(plan: Plan, trace: seq<State>, labels: seq<Label>, i: nat, c: CallId)
    requires Run(plan, trace, labels) && PathsDistinct(plan) && DevicesDistinct(plan) && i < |trace|
    requires c in trace[i].calls && trace[i].calls[c].pc == Release(true)
    ensures var op, s := trace[i].calls[c].op, trace[i];
      && op.volume in s.locks
      && (op.Unstage? ==> plan.path(op.volume) !in s.mounts && plan.device(op.volume) !in s.open)
      && (op.Stage? ==> plan.device(op.volume) in s.open)
      && (op.Stage? && !op.block ==>
            plan.path(op.volume) in s.mounts && s.mounts[plan.path(op.volume)] == plan.device(op.volume))
  {
    RunInv(plan, trace, labels, i);
    var op := trace[i].calls[c].op;
    assert CallInv(plan, trace[i], trace[i].calls[c]);
    if plan.path(op.volume) in trace[i].mounts { MountedIsOpen(plan, trace[i], op.volume); }
  }

  // ---------------------------------------------------------------- what a call returns

  /** The step goes wrong for its call. */
  predicate Blames(s: State, l: Label) {
    match l
    case TryLock(c) => c in s.calls && s.calls[c].op.volume in s.locks
    case Prepare(_, ok) => !ok
    case Ensure(_, answer) => answer.EnsureError? || answer.BadMount?
    case Open(_, ok, _) => !ok
    case Mount(_, ok, _) => !ok
    case ResizeFs(_, ok) => !ok
    case Cleanup(_, ok, _) => !ok
    case Close(_, ok, _) => !ok
    case Grow(_, ok) => !ok
    case Measure(_, ok) => !ok
    case _ => false
  }

  predicate HasFailed(pc: Pc) { pc == Release(false) || pc == Done(false) }

  lemma StepFailsIff(plan: Plan, s: State, l: Label)
    requires Enabled(plan, s, l) && l.c in s.calls
    ensures l.c in Apply(plan, s, l).calls
    ensures HasFailed(Apply(plan, s, l).calls[l.c].pc) <==>
      Blames(s, l) || (l.Unlock? && s.calls[l.c].pc == Release(false))
  {
  }

  lemma OthersStay(plan: Plan, s: State, l: Label, c: CallId)
    requires Enabled(plan, s, l) && l.c != c
    ensures c in Apply(plan, s, l).calls <==> c in s.calls
    ensures c in s.calls ==> Apply(plan, s, l).calls[c] == s.calls[c]
  {
  }

  /** Where a call stands is where its own last step put it. */
  lemma {:induction false} LastOwnStep(plan: Plan, trace: seq<State>, labels: seq<Label>, i: nat, c: CallId)
    returns (j: nat)
    requires Run(plan, trace, labels) && i < |trace| && c in trace[i].calls && !trace[i].calls[c].pc.Start?
    ensures j < i && labels[j].c == c && !labels[j].Spawn? && Enabled(plan, trace[j], labels[j])
    ensures c in trace[j].calls && trace[j].calls[c].op == trace[i].calls[c].op
    ensures c in Apply(plan, trace[j], labels[j]).calls
    ensures Apply(plan, trace[j], labels[j]).calls[c] == trace[i].calls[c]
    decreases i
  {
    assert i > 0;
    assert StepAt(plan, trace, labels, i - 1);
    if labels[i - 1].c == c {
      j := i - 1;
    } else {
      OthersStay(plan, trace[i - 1], labels[i - 1], c);
      j := LastOwnStep(plan, trace, labels, i - 1, c);
    }
  }

  /** The j-th step is the call's own and goes wrong for it. */
  ghost predicate WentWrong(trace: seq<State>, labels: seq<Label>, j: int, c: CallId)
    requires |trace| == |labels| + 1
  {
    0 <= j < |labels| && labels[j].c == c && Blames(trace[j], labels[j])
  }

  lemma StepKeepsFailed(plan: Plan, s: State, l: Label, c: CallId)
    requires Enabled(plan, s, l) && c in s.calls && HasFailed(s.calls[c].pc)
    ensures c in Apply(plan, s, l).calls && HasFailed(Apply(plan, s, l).calls[c].pc)
  {
    if l.c != c { OthersStay(plan, s, l, c); }
  }

  lemma {:induction false} FailedStays(plan: Plan, trace: seq<State>, labels: seq<Label>, h: nat, i: nat, c: CallId)
    requires Run(plan, trace, labels) && h <= i < |trace| && c in trace[h].calls && HasFailed(trace[h].calls[c].pc)
    ensures c in trace[i].calls && HasFailed(trace[i].calls[c].pc)
    decreases i
  {
    if h < i {
      FailedStays(plan, trace, labels, h, i - 1, c);
      assert StepAt(plan, trace, labels, i - 1);
      StepKeepsFailed(plan, trace[i - 1], labels[i - 1], c);
    }
  }

  lemma {:induction false} FailureHasCause(plan: Plan, trace: seq<State>, labels: seq<Label>, i: nat, c: CallId)
    returns (j: nat)
    requires Run(plan, trace, labels) && i < |trace| && c in trace[i].calls && HasFailed(trace[i].calls[c].pc)
    ensures j < i && WentWrong(trace, labels, j, c)
    decreases i
  {
    j := LastOwnStep(plan, trace, labels, i, c);
    StepFailsIff(plan, trace[j], labels[j]);
    if !Blames(trace[j], labels[j]) { j := FailureHasCause(plan, trace, labels, j, c); }
  }

  /** A finished call reports an error exactly when one of its own steps went wrong; a volume on which
      another call works is such a case. */
  lemma FailedIff(plan: Plan, trace: seq<State>, labels: seq<Label>, i: nat, c: CallId)
    requires Run(plan, trace, labels) && i < |trace| && c in trace[i].calls && trace[i].calls[c].pc.Done?
    ensures !trace[i].calls[c].pc.ok <==> exists j :: 0 <= j < i && WentWrong(trace, labels, j, c)
  {
    if !trace[i].calls[c].pc.ok {
      var j := FailureHasCause(plan, trace, labels, i, c);
    }
    if j :| 0 <= j < i && WentWrong(trace, labels, j, c) {
      assert StepAt(plan, trace, labels, j);
      StepFailsIff(plan, trace[j], labels[j]);
      FailedStays(plan, trace, labels, j + 1, i, c);
    }
  }

  /** What the last step in front of a success was. */
  predicate Concludes(op: Op, l: Label) {
    match op
    case Stage(_, block) =>
      l == Ensure(l.c, AlreadyMounted) || (if block then l == Block(l.c) else l == ResizeFs(l.c, true))
    case Unstage(_) => l.Close? && l.ok
    case Expand(_, block) => if block then l == Grow(l.c, true) else l == Measure(l.c, true)
  }

  lemma SuccessConcludes(plan: Plan, s: State, l: Label)
    requires Enabled(plan, s, l) && l.c in s.calls && CallInv(plan, s, s.calls[l.c])
    requires Apply(plan, s, l).calls[l.c].pc == Release(true)
    ensures Concludes(s.calls[l.c].op, l)
  {
  }

  /** A call that returned success was, at step j, about to give its volume up: then an unstage had left
      neither mount nor mapping, and a stage had left both (a block volume: the mapping). Its step k
      was the one that concludes such a call. */
  lemma SuccessWasDone(plan: Plan, trace: seq<State>, labels: seq<Label>, i: nat, c: CallId)
    returns (k: nat, j: nat)
    requires Run(plan, trace, labels) && PathsDistinct(plan) && DevicesDistinct(plan) && i < |trace|
    requires c in trace[i].calls && trace[i].calls[c].pc == Done(true)
    ensures k < j < i && c in trace[j].calls && trace[j].calls[c].op == trace[i].calls[c].op
    ensures trace[j].calls[c].pc == Release(true) && labels[j] == Unlock(c)
    ensures labels[k].c == c && Concludes(trace[i].calls[c].op, labels[k])
    ensures var op, s := trace[i].calls[c].op, trace[j];
      && op.volume in s.locks
      && (op.Unstage? ==> plan.path(op.volume) !in s.mounts && plan.device(op.volume) !in s.open)
      && (op.Stage? ==> plan.device(op.volume) in s.open)
      && (op.Stage? && !op.block ==>
            plan.path(op.volume) in s.mounts && s.mounts[plan.path(op.volume)] == plan.device(op.volume))
  {
    j := LastOwnStep(plan, trace, labels, i, c);
    SuccessMeansDone(plan, trace, labels, j, c);
    k := LastOwnStep(plan, trace, labels, j, c);
    RunInv(plan, trace, labels, k);
    assert CallInv(plan, trace[k], trace[k].calls[c]);
    SuccessConcludes(plan, trace[k], labels[k]);
  }

  /** The next step cannot go wrong: giving the volume up, and what is skipped for block volumes. */
  predicate CannotGoWrong(call: Call) {
    call.pc.Release? || (call.pc.Locked? && call.op.Expand? && call.op.block)
    || (call.pc.Opened? && call.op.Stage? && call.op.block)
  }

  /** A bound on the steps that a call can still take. */
  function StepsLeft(pc: Pc): nat {
    match pc
    case Start => 8
    case Locked => 7
    case EnsureMount => 6
    case Opening => 5
    case Opened => 4
    case Growing => 4
    case Mounted => 3
    case Closing => 3
    case Grown => 3
    case Release(_) => 1
    case Done(_) => 0
  }

  /** Every step of a call brings it closer to its end, so a call ends within eight of its own steps. */
  lemma CallsEnd(plan: Plan, s: State, l: Label)
    requires Enabled(plan, s, l) && !l.Spawn?
    ensures StepsLeft(Apply(plan, s, l).calls[l.c].pc) < StepsLeft(s.calls[l.c].pc) <= 8
  {
  }

  /** No call ever waits: in every state it can take a step, and the environment decides whether that
      step goes well; only the first one depends on the other calls. */
  lemma NeverWaits(plan: Plan, s: State, c: CallId, well: bool) returns (l: Label)
    requires c in s.calls && !s.calls[c].pc.Done?
    ensures l.c == c && !l.Spawn? && Enabled(plan, s, l)
    ensures s.calls[c].pc.Start? ==> (Blames(s, l) <==> s.calls[c].op.volume in s.locks)
    ensures !s.calls[c].pc.Start? ==> (Blames(s, l) <==> !well && !CannotGoWrong(s.calls[c]))
  {
    var op := s.calls[c].op;
    match s.calls[c].pc
    case Start => l := TryLock(c);
    case Locked =>
      l := if op.Unstage? then Cleanup(c, well, well) else Prepare(c, well || (op.Expand? && op.block));
    case EnsureMount =>
      var mounted := plan.path(op.volume) in s.mounts;
      l := Ensure(c, if !well then EnsureError else if mounted then AlreadyMounted else NotMounted);
    case Opening => l := Open(c, well, well);
    case Opened => l := if op.Stage? && op.block then Block(c) else Mount(c, well, well);
    case Mounted => l := ResizeFs(c, well);
    case Closing => l := Close(c, well, well);
    case Growing => l := Grow(c, well);
    case Grown => l := Measure(c, well);
    case Release(_) => l := Unlock(c);
  }

  /** An expansion of a file system is measured only after the crypt device was resized. */
  lemma MeasuredAfterGrowth(plan: Plan, trace: seq<State>, labels: seq<Label>, i: nat, c: CallId) returns (k: nat)
    requires Run(plan, trace, labels) && i < |labels| && labels[i].Measure? && labels[i].c == c
    ensures k < i && labels[k] == Grow(c, true)
  {
    assert StepAt(plan, trace, labels, i);
    k := LastOwnStep(plan, trace, labels, i, c);
  }

  /** A block volume is never mounted by its stage. */
  lemma BlockStageMountsNothing(plan: Plan, s: State, l: Label)
    requires Enabled(plan, s, l) && l.c in s.calls && s.calls[l.c].op.Stage? && s.calls[l.c].op.block
    ensures Apply(plan, s, l).mounts.Keys <= s.mounts.Keys
  {
  }

  /** A mount that the environment took away is gone. */
  lemma UnmountTakesEffect(plan: Plan, s: State, l: Label)
    requires Enabled(plan, s, l) && l.c in s.calls
    requires l == Ensure(l.c, BadMount(true)) || (l.Cleanup? && l.unmounted)
    ensures plan.path(s.calls[l.c].op.volume) !in Apply(plan, s, l).mounts
  {
  }

  /** A volume is locked exactly while some call works on it. */
  ghost predicate LocksHaveHolders(s: State) {
    forall v :: v in s.locks ==> exists c :: HoldsVolume(s, c, v)
  }

  ghost predicate HoldsVolume(s: State, c: CallId, v: Volume) {
    c in s.calls && HoldsLock(s.calls[c].pc) && s.calls[c].op.volume == v
  }

  lemma StepKeepsHolders(plan: Plan, s: State, l: Label)
    requires LocksInv(s) && LocksHaveHolders(s) && Enabled(plan, s, l)
    ensures LocksHaveHolders(Apply(plan, s, l))
  {
    var s' := Apply(plan, s, l);
    OnlyOwnCallMoves(plan, s, l);
    forall v | v in s'.locks ensures exists c :: HoldsVolume(s', c, v) {
      if v in s.locks {
        var c :| HoldsVolume(s, c, v);
        assert HoldsVolume(s', c, v) || c == l.c;
        assert HoldsVolume(s', c, v);
      } else {
        assert HoldsVolume(s', l.c, v);
      }
    }
  }

  lemma {:induction false} RunHolders(plan: Plan, trace: seq<State>, labels: seq<Label>, i: nat)
    requires Run(plan, trace, labels) && i < |trace|
    ensures LocksInv(trace[i]) && LocksHaveHolders(trace[i])
  {
    if i > 0 {
      RunHolders(plan, trace, labels, i - 1);
      assert StepAt(plan, trace, labels, i - 1);
      StepKeepsLocks(plan, trace[i - 1], labels[i - 1]);
      StepKeepsHolders(plan, trace[i - 1], labels[i - 1]);
    }
  }

  // ---------------------------------------------------------------- the volume locks, as the code keeps them

  /** TryAcquire carries out the step by which a call takes its volume: the calls that hold a lock
      are exactly those that were told so, and the set of IDs is theirs. */
  method LockVolume(locks: Locks, plan: Plan, ghost s: State, c: CallId, volume: Volume) returns (acquired: bool)
    requires LocksInv(s) && Enabled(plan, s, TryLock(c)) && s.calls[c].op.volume == volume && locks.locks == s.locks
    modifies locks
    ensures locks.locks == Apply(plan, s, TryLock(c)).locks && LocksInv(Apply(plan, s, TryLock(c)))
    ensures acquired <==> HoldsLock(Apply(plan, s, TryLock(c)).calls[c].pc)
  {
    StepKeepsLocks(plan, s, TryLock(c));
    acquired := locks.TryAcquire(volume);
  }

  /** Release by the holder gives up its own ID: the next caller can take it, and every other call
      that holds a volume still holds it. */
  method UnlockVolume(locks: Locks, plan: Plan, ghost s: State, c: CallId, volume: Volume)
    requires LocksInv(s) && Enabled(plan, s, Unlock(c)) && s.calls[c].op.volume == volume && locks.locks == s.locks
    modifies locks
    ensures locks.locks == Apply(plan, s, Unlock(c)).locks && volume !in locks.locks
    ensures forall d :: d in s.calls && d != c && HoldsLock(s.calls[d].pc) ==> s.calls[d].op.volume in locks.locks
  {
    StepKeepsLocks(plan, s, Unlock(c));
    locks.Release(volume);
  }

  // ---------------------------------------------------------------- distinct disk names are needed

  ghost predicate Reachable(plan: Plan, s: State) {
    exists trace, labels :: Run(plan, trace, labels) && trace[|labels|] == s
  }

  lemma ReachStep(plan: Plan, s: State, l: Label)
    requires Reachable(plan, s) && Enabled(plan, s, l)
    ensures Reachable(plan, Apply(plan, s, l))
  {
    var trace, labels :| Run(plan, trace, labels) && trace[|labels|] == s;
    var trace', labels' := trace + [Apply(plan, s, l)], labels + [l];
    forall i | 0 <= i < |labels'| ensures StepAt(plan, trace', labels', i) {
      if i < |labels| {
        assert StepAt(plan, trace, labels, i);
        assert trace'[i] == trace[i] && trace'[i + 1] == trace[i + 1] && labels'[i] == labels[i];
      } else {
        assert trace'[i] == s && labels'[i] == l;
      }
    }
    assert Run(plan, trace', labels') && trace'[|labels'|] == Apply(plan, s, l);
  }

  /** One volume is staged from start to finish. */
  lemma StageAlone(plan: Plan, s: State, c: CallId, v: Volume) returns (s': State)
    requires Reachable(plan, s) && s.locks == {} && c !in s.calls && plan.path(v) !in s.mounts
    ensures Reachable(plan, s')
    ensures s' == State(s.calls[c := Call(Stage(v, false), Done(true))], {},
                        s.mounts[plan.path(v) := plan.device(v)], s.open + {plan.device(v)})
  {
    var op := Stage(v, false);
    ReachStep(plan, s, Spawn(c, op));
    var s1 := Apply(plan, s, Spawn(c, op));
    ReachStep(plan, s1, TryLock(c));
    var s2 := Apply(plan, s1, TryLock(c));
    ReachStep(plan, s2, Prepare(c, true));
    var s3 := Apply(plan, s2, Prepare(c, true));
    assert s3 == State(s.calls[c := Call(op, EnsureMount)], {v}, s.mounts, s.open);
    s' := StageFromMount(plan, s3, c, v);
  }

  lemma StageFromMount(plan: Plan, s: State, c: CallId, v: Volume) returns (s': State)
    requires Reachable(plan, s) && s.locks == {v} && plan.path(v) !in s.mounts
    requires c in s.calls && s.calls[c] == Call(Stage(v, false), EnsureMount)
    ensures Reachable(plan, s')
    ensures s' == State(s.calls[c := Call(Stage(v, false), Done(true))], {},
                        s.mounts[plan.path(v) := plan.device(v)], s.open + {plan.device(v)})
  {
    ReachStep(plan, s, Ensure(c, NotMounted));
    var s1 := Apply(plan, s, Ensure(c, NotMounted));
    ReachStep(plan, s1, Open(c, true, true));
    var s2 := Apply(plan, s1, Open(c, true, true));
    ReachStep(plan, s2, Mount(c, true, true));
    var s3 := Apply(plan, s2, Mount(c, true, true));
    ReachStep(plan, s3, ResizeFs(c, true));
    var s4 := Apply(plan, s3, ResizeFs(c, true));
    ReachStep(plan, s4, Unlock(c));
    s' := Apply(plan, s4, Unlock(c));
  }

  /** Two volumes whose disks share a name share a crypt device: unstaging one pulls the device from
      under the other's mount. */
  lemma NamesakePullsDevice(plan: Plan, v: Volume, w: Volume) returns (s: State)
    requires PathsDistinct(plan) && v != w && plan.device(v) == plan.device(w)
    ensures Reachable(plan, s) && !MountsOpen(s)
  {
    var s0 := State(map[], {}, map[], {});
    var trace, labels: seq<Label> := [s0], [];
    assert Run(plan, trace, labels) && trace[|labels|] == s0;
    assert plan.path(v) != plan.path(w);
    var s1 := StageAlone(plan, s0, 0, v);
    var s2 := StageAlone(plan, s1, 1, w);
    ReachStep(plan, s2, Spawn(2, Unstage(v)));
    var s3 := Apply(plan, s2, Spawn(2, Unstage(v)));
    ReachStep(plan, s3, TryLock(2));
    var s4 := Apply(plan, s3, TryLock(2));
    ReachStep(plan, s4, Cleanup(2, true, true));
    var s5 := Apply(plan, s4, Cleanup(2, true, true));
    ReachStep(plan, s5, Close(2, true, true));
    s := Apply(plan, s5, Close(2, true, true));
    assert plan.path(w) in s.mounts && s.mounts[plan.path(w)] == plan.device(w) && plan.device(w) !in s.open;
  }

  /** With one staging path for each volume, mounts always have their device open exactly when disk
      names are distinct. */
  lemma MountsOpenIff(plan: Plan)
    requires PathsDistinct(plan)
    ensures (forall s :: Reachable(plan, s) ==> MountsOpen(s)) <==> DevicesDistinct(plan)
  {
    if DevicesDistinct(plan) {
      forall s | Reachable(plan, s) ensures MountsOpen(s) {
        var trace, labels :| Run(plan, trace, labels) && trace[|labels|] == s;
        RunInv(plan, trace, labels, |labels|);
      }
    } else {
      var v, w :| plan.device(v) == plan.device(w) && v != w;
      var s := NamesakePullsDevice(plan, v, w);
    }
  }
}
