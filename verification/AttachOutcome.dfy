/** What a call returns, from the steps that it took: an error exactly if one of them went wrong, and
    otherwise what the VM and the check told it. */
module AttachOutcome {
  import opened Wrappers
  import opened LunAllocator
  import opened AttachProtocol
  import opened AttachInvariants
  import opened AttachSafety
  import opened AttachTheorems
  import opened AttachProgress
  import opened AttachProvenance
  import opened AttachServed

  // ---------------------------------------------------------------- the last step of a call

  /** Where a call stands is where its own last step put it. */
  lemma {:induction false} LastOwnStep(cfg: Config, trace: seq<State>, labels: seq<Label>, i: nat, c: CallId)
    returns (j: nat)
    requires Run(cfg, trace, labels) && i < |trace| && c in trace[i].calls && !trace[i].calls[c].pc.Start?
    ensures j < i && labels[j].c == c && !labels[j].Spawn? && Enabled(cfg, trace[j], labels[j])
    ensures c in trace[j].calls && trace[j].calls[c].op == trace[i].calls[c].op && CallShape(trace[j].calls[c])
    ensures c in Apply(cfg, trace[j], labels[j]).calls
    ensures Apply(cfg, trace[j], labels[j]).calls[c] == trace[i].calls[c]
    decreases i
  {
    assert i > 0;
    RunShape(cfg, trace, labels, i - 1);
    assert StepAt(cfg, trace, labels, i - 1);
    var s, l := trace[i - 1], labels[i - 1];
    if l.c == c {
      OwnStep(cfg, s, l);
      j := i - 1;
    } else {
      WasThere(cfg, s, l, c);
      j := LastOwnStep(cfg, trace, labels, i - 1, c);
    }
  }

  lemma OwnStep(cfg: Config, s: State, l: Label)
    requires ShapeInv(s) && Enabled(cfg, s, l) && l.c in Apply(cfg, s, l).calls
    requires !Apply(cfg, s, l).calls[l.c].pc.Start?
    ensures !l.Spawn? && l.c in s.calls && CallShape(s.calls[l.c])
    ensures s.calls[l.c].op == Apply(cfg, s, l).calls[l.c].op
  {
    if !l.Spawn? { StepLowersRank(cfg, s, l); }
  }

  lemma WasThere(cfg: Config, s: State, l: Label, c: CallId)
    requires ShapeInv(s) && Enabled(cfg, s, l) && l.c != c && c in Apply(cfg, s, l).calls
    ensures c in s.calls && s.calls[c] == Apply(cfg, s, l).calls[c]
  {
    if LeavesQueues(l) { StepMoves(cfg, s, l); } else { StepQueues(cfg, s, l); }
  }

  // ---------------------------------------------------------------- errors

  /** The step goes wrong for its call: an early refusal, an error in front of the VM call, no LUNs to
      allocate, an error of the VM that is not retried, or a check that contradicts the outcome. */
  predicate Blames(cfg: Config, s: State, l: Label) {
    l.c in s.calls &&
    var op := s.calls[l.c].op;
    match l
    case Refuse(_, gone) => !gone
    case Abort(_) => true
    case AllocateLuns(_, view, order) => op.Attach? && !Allocate(view, op.uri, order, op.occupied).Assigned?
    case VmAttach(_, _, outcome) => outcome != Nil && outcome != Preempted
    case VmRetry(_, _, ok) => !ok
    case VmDetach(_, _, outcome) =>
      outcome == Error(true) || (outcome == Error(false) && !cfg.forceDetach) || outcome == Preempted
    case VmForceDetach(_, _, ok) => !ok
    case VmUpdate(_, ok) => !ok
    case CheckLun(_, view) =>
      if op.Attach? then !FindLun(view, op.name, op.uri).Lun?
      else !op.Update? && FindLun(view, op.name, op.uri) != NoLun
    case _ => false
  }

  predicate HasFailed(pc: Pc) { pc == Release(Failed) || pc == Done(Failed) }

  /** Steps in front of and around the VM call. */
  lemma PlainStepFailsIff(cfg: Config, s: State, l: Label)
    requires Enabled(cfg, s, l) && l.c in s.calls && CallShape(s.calls[l.c]) && !InNodeSection(l) && LeavesQueues(l)
    ensures HasFailed(Apply(cfg, s, l).calls[l.c].pc) <==>
      Blames(cfg, s, l) || (l.Unlock? && s.calls[l.c].pc == Release(Failed))
  {
  }

  /** Steps on the queues never end a call. */
  lemma QueueStepFailsNot(cfg: Config, s: State, l: Label)
    requires Enabled(cfg, s, l) && l.c in s.calls && CallShape(s.calls[l.c]) && !LeavesQueues(l)
    ensures !HasFailed(Apply(cfg, s, l).calls[l.c].pc) && !Blames(cfg, s, l)
  {
    StepQueues(cfg, s, l);
    QueueStepReleasesNot(cfg, s, l);
  }

  lemma QueueStepReleasesNot(cfg: Config, s: State, l: Label)
    requires Enabled(cfg, s, l) && !LeavesQueues(l)
    ensures l.c in Apply(cfg, s, l).calls && !Apply(cfg, s, l).calls[l.c].pc.Release?
  {
  }

  /** Steps in the VM's critical section. */
  lemma NodeStepFailsIff(cfg: Config, s: State, l: Label)
    requires Enabled(cfg, s, l) && l.c in s.calls && CallShape(s.calls[l.c]) && InNodeSection(l)
    ensures HasFailed(Apply(cfg, s, l).calls[l.c].pc) <==> Blames(cfg, s, l)
  {
  }

  lemma StepFailsIff(cfg: Config, s: State, l: Label)
    requires Enabled(cfg, s, l) && l.c in s.calls && CallShape(s.calls[l.c])
    ensures l.c in Apply(cfg, s, l).calls
    ensures HasFailed(Apply(cfg, s, l).calls[l.c].pc) <==>
      Blames(cfg, s, l) || (l.Unlock? && s.calls[l.c].pc == Release(Failed))
  {
    if InNodeSection(l) {
      NodeStepFailsIff(cfg, s, l);
    } else if LeavesQueues(l) {
      PlainStepFailsIff(cfg, s, l);
    } else {
      QueueStepFailsNot(cfg, s, l);
    }
  }

  lemma StepKeepsFailed(cfg: Config, s: State, l: Label, c: CallId)
    requires ShapeInv(s) && Enabled(cfg, s, l) && c in s.calls && HasFailed(s.calls[c].pc)
    ensures c in Apply(cfg, s, l).calls && HasFailed(Apply(cfg, s, l).calls[c].pc)
  {
    if l.c == c {
      OnlyUnlockIsLeft(cfg, s, l);
      StepFailsIff(cfg, s, l);
    } else {
      StepKeepsCall(cfg, s, l, c);
    }
  }

  lemma OnlyUnlockIsLeft(cfg: Config, s: State, l: Label)
    requires Enabled(cfg, s, l) && l.c in s.calls && HasFailed(s.calls[l.c].pc)
    ensures l.Unlock? && s.calls[l.c].pc == Release(Failed)
  {
  }

  lemma {:induction false} FailedStays(cfg: Config, trace: seq<State>, labels: seq<Label>, h: nat, i: nat, c: CallId)
    requires Run(cfg, trace, labels) && h <= i < |trace| && c in trace[h].calls && HasFailed(trace[h].calls[c].pc)
    ensures c in trace[i].calls && HasFailed(trace[i].calls[c].pc)
    decreases i
  {
    if h < i {
      FailedStays(cfg, trace, labels, h, i - 1, c);
      RunShape(cfg, trace, labels, i - 1);
      assert StepAt(cfg, trace, labels, i - 1);
      StepKeepsFailed(cfg, trace[i - 1], labels[i - 1], c);
    }
  }

  /** The j-th step is the call's own and goes wrong for it. */
  ghost predicate WentWrong(cfg: Config, trace: seq<State>, labels: seq<Label>, j: int, c: CallId)
    requires |trace| == |labels| + 1
  {
    0 <= j < |labels| && labels[j].c == c && Blames(cfg, trace[j], labels[j])
  }

  lemma {:induction false} FailureHasCause(cfg: Config, trace: seq<State>, labels: seq<Label>, i: nat, c: CallId)
    returns (j: nat)
    requires Run(cfg, trace, labels) && i < |trace| && c in trace[i].calls && HasFailed(trace[i].calls[c].pc)
    ensures j < i && WentWrong(cfg, trace, labels, j, c)
    decreases i
  {
    j := LastOwnStep(cfg, trace, labels, i, c);
    StepFailsIff(cfg, trace[j], labels[j]);
    if !Blames(cfg, trace[j], labels[j]) {
      j := FailureHasCause(cfg, trace, labels, j, c);
    }
  }

  lemma CauseMeansFailure(cfg: Config, trace: seq<State>, labels: seq<Label>, i: nat, j: nat, c: CallId)
    requires Run(cfg, trace, labels) && j < i < |trace| && WentWrong(cfg, trace, labels, j, c)
    ensures c in trace[i].calls && HasFailed(trace[i].calls[c].pc)
  {
    RunShape(cfg, trace, labels, j);
    assert StepAt(cfg, trace, labels, j);
    assert CallShape(trace[j].calls[c]);
    StepFailsIff(cfg, trace[j], labels[j]);
    FailedStays(cfg, trace, labels, j + 1, i, c);
  }

  /** A finished call returns an error exactly when one of its own steps went wrong: AttachDisk,
      DetachDisk and UpdateVM succeed whenever everything goes well. */
  lemma FailedIff(cfg: Config, trace: seq<State>, labels: seq<Label>, i: nat, c: CallId)
    requires Run(cfg, trace, labels) && i < |trace| && c in trace[i].calls && trace[i].calls[c].pc.Done?
    ensures trace[i].calls[c].pc.result == Failed <==>
      exists j :: 0 <= j < i && WentWrong(cfg, trace, labels, j, c)
  {
    if trace[i].calls[c].pc.result == Failed {
      var j := FailureHasCause(cfg, trace, labels, i, c);
    }
    if j :| 0 <= j < i && WentWrong(cfg, trace, labels, j, c) {
      CauseMeansFailure(cfg, trace, labels, i, j, c);
    }
  }

  // ---------------------------------------------------------------- what AttachDisk returns

  /** The VM has taken the batch. */
  predicate AttachWorked(l: Label) { (l.VmAttach? && l.outcome == Nil) || (l.VmRetry? && l.ok) }

  /** The pcs from which a LUN can come. */
  predicate OnTheWay(pc: Pc) { pc.Attaching? || pc.Retrying? || pc.Check? || (pc.Release? && pc.result.Success?) }

  /** Only the steps in the VM's critical section lead to a LUN. */
  lemma OtherStepsLeadNowhere(cfg: Config, s: State, l: Label)
    requires Enabled(cfg, s, l) && l.c in s.calls && CallShape(s.calls[l.c]) && s.calls[l.c].op.Attach?
    requires l.c in Apply(cfg, s, l).calls && OnTheWay(Apply(cfg, s, l).calls[l.c].pc)
    ensures InNodeSection(l) && (l.AllocateLuns? || l.VmAttach? || l.VmRetry? || l.CheckLun?)
  {
  }

  /** Allocation leads to the VM call with the allocated LUNs, or past it with an empty batch. */
  lemma AllocationLeadsTo(cfg: Config, s: State, c: CallId, view: View, order: seq<Uri>)
    requires CanAllocate(cfg, s, c, view, order) && OnTheWay(DoAllocate(cfg, s, c, view, order).calls[c].pc)
    ensures var op, pc := s.calls[c].op, DoAllocate(cfg, s, c, view, order).calls[c].pc;
      var r := Allocate(view, op.uri, order, op.occupied);
      && r.Assigned?
      && (order == [] ==> pc == if cfg.lunCheck then Check else Release(Success(r.lun)))
      && (order != [] ==> s.calls[c].pc.batch.Some? && pc == Attaching(s.calls[c].pc.batch.value, r.luns, r.lun))
  {
    if order != [] { assert order[0] in Requests(s, s.calls[c].pc.batch); }
  }

  lemma AttachLeadsTo(cfg: Config, s: State, c: CallId, disks: Disks, outcome: VmOutcome)
    requires CanVmAttach(s, c, disks, outcome) && OnTheWay(DoVmAttach(cfg, s, c, disks, outcome).calls[c].pc)
    ensures var pc, pc' := s.calls[c].pc, DoVmAttach(cfg, s, c, disks, outcome).calls[c].pc;
      && (outcome == Nil || outcome == Preempted)
      && (outcome == Preempted ==> pc' == Retrying(pc.m, pc.luns, pc.lun))
      && (outcome == Nil ==> pc' == if cfg.lunCheck then Check else Release(Success(pc.lun)))
  {
  }

  lemma RetryLeadsTo(cfg: Config, s: State, c: CallId, disks: Disks, ok: bool)
    requires CanVmRetry(cfg, s, c, disks, ok) && OnTheWay(DoVmRetry(cfg, s, c, disks, ok).calls[c].pc)
    ensures var pc, pc' := s.calls[c].pc, DoVmRetry(cfg, s, c, disks, ok).calls[c].pc;
      ok && pc' == if cfg.lunCheck then Check else Release(Success(pc.lun))
  {
  }

  lemma CheckLeadsTo(cfg: Config, s: State, c: CallId, view: View)
    requires CanCheckLun(cfg, s, c, view) && s.calls[c].op.Attach? && OnTheWay(DoCheckLun(cfg, s, c, view).calls[c].pc)
    ensures var op, pc' := s.calls[c].op, DoCheckLun(cfg, s, c, view).calls[c].pc;
      pc'.Release? && FindLun(view, op.name, op.uri) == Lun(pc'.result.lun)
  {
  }

  /** The call's allocation, the a-th step, and what the VM said to it, the v-th. */
  ghost predicate Served(cfg: Config, trace: seq<State>, labels: seq<Label>, i: nat, c: CallId, op: Op, a: nat, v: nat)
    requires |trace| == |labels| + 1
  {
    && a < i <= |labels| && labels[a].AllocateLuns? && labels[a].c == c && op.Attach?
    && Allocate(labels[a].view, op.uri, labels[a].order, op.occupied).Assigned?
    && (labels[a].order != [] ==> a < v < i && labels[v].c == c && AttachWorked(labels[v]))
  }

  /** The LUN that was allocated to the call's disk. */
  function AllocatedLun(op: Op, l: Label): int
    requires op.Attach? && l.AllocateLuns? && Allocate(l.view, op.uri, l.order, op.occupied).Assigned?
  {
    Allocate(l.view, op.uri, l.order, op.occupied).lun
  }

  /** A call in front of the VM or in its retry: whose LUNs it asks for. */
  lemma {:induction false} AskingFrom(cfg: Config, trace: seq<State>, labels: seq<Label>, i: nat, c: CallId)
    returns (a: nat)
    requires Run(cfg, trace, labels) && i < |trace| && c in trace[i].calls && trace[i].calls[c].op.Attach?
    requires trace[i].calls[c].pc.Attaching? || trace[i].calls[c].pc.Retrying?
    ensures var op, pc := trace[i].calls[c].op, trace[i].calls[c].pc;
      && a < i && labels[a].AllocateLuns? && labels[a].c == c && labels[a].order != [] && Distinct(labels[a].order)
      && Allocate(labels[a].view, op.uri, labels[a].order, op.occupied) == Assigned(pc.lun, pc.luns)
    decreases i
  {
    a := LastOwnStep(cfg, trace, labels, i, c);
    var s, l := trace[a], labels[a];
    OtherStepsLeadNowhere(cfg, s, l);
    if l.AllocateLuns? {
      AllocationLeadsTo(cfg, s, c, l.view, l.order);
    } else if l.VmAttach? {
      AttachLeadsTo(cfg, s, c, l.disks, l.outcome);
      a := AskingFrom(cfg, trace, labels, a, c);
    } else if l.VmRetry? {
      RetryLeadsTo(cfg, s, c, l.disks, l.ok);
    } else {
      CheckLeadsTo(cfg, s, c, l.view);
    }
  }

  /** The LUNs that a call asks the VM for are none of those that it was told are occupied. */
  lemma AskedLunsAvoidOccupied(cfg: Config, trace: seq<State>, labels: seq<Label>, i: nat, c: CallId, u: Uri)
    requires Run(cfg, trace, labels) && i < |trace| && c in trace[i].calls && trace[i].calls[c].op.Attach?
    requires trace[i].calls[c].pc.Attaching? || trace[i].calls[c].pc.Retrying?
    requires u in trace[i].calls[c].pc.luns
    ensures trace[i].calls[c].pc.luns[u] !in trace[i].calls[c].op.occupied
  {
    var a := AskingFrom(cfg, trace, labels, i, c);
    var op := trace[i].calls[c].op;
    AssignedAvoidsOccupied(labels[a].view, op.uri, labels[a].order, op.occupied, u);
  }

  /** A call past the VM call, in front of the check or, without one, about to return a LUN. */
  lemma PastVm(cfg: Config, trace: seq<State>, labels: seq<Label>, i: nat, c: CallId) returns (a: nat, v: nat)
    requires Run(cfg, trace, labels) && i < |trace| && c in trace[i].calls && trace[i].calls[c].op.Attach?
    requires var pc := trace[i].calls[c].pc;
      pc.Check? || (pc.Release? && pc.result.Success? && !cfg.lunCheck)
    ensures var op, pc := trace[i].calls[c].op, trace[i].calls[c].pc;
      && Served(cfg, trace, labels, i, c, op, a, v)
      && (!cfg.lunCheck ==> pc.Release? && pc.result.lun == AllocatedLun(op, labels[a]))
  {
    v := LastOwnStep(cfg, trace, labels, i, c);
    var s, l := trace[v], labels[v];
    OtherStepsLeadNowhere(cfg, s, l);
    if l.AllocateLuns? {
      AllocationLeadsTo(cfg, s, c, l.view, l.order);
      a := v;
    } else if l.VmAttach? {
      AttachLeadsTo(cfg, s, c, l.disks, l.outcome);
      a := AskingFrom(cfg, trace, labels, v, c);
    } else if l.VmRetry? {
      RetryLeadsTo(cfg, s, c, l.disks, l.ok);
      a := AskingFrom(cfg, trace, labels, v, c);
    } else {
      CheckLeadsTo(cfg, s, c, l.view);
      CheckNeedsSwitch(cfg, trace, labels, v, c);
      a := v;
    }
  }

  lemma CheckNeedsSwitch(cfg: Config, trace: seq<State>, labels: seq<Label>, i: nat, c: CallId)
    requires Run(cfg, trace, labels) && i < |trace| && c in trace[i].calls && trace[i].calls[c].pc.Check?
    ensures cfg.lunCheck
  {
    RunInv(cfg, trace, labels, i);
    assert CallFacts(cfg, trace[i], trace[i].calls[c]);
  }

  /** AttachDisk that returns a LUN has allocated LUNs for its batch and, unless the batch was empty, the
      VM has taken it; the LUN is the one that the check read or, without a check, the one that was
      allocated to its disk. */
  lemma AttachReturns(cfg: Config, trace: seq<State>, labels: seq<Label>, i: nat, c: CallId)
    returns (a: nat, v: nat, k: nat)
    requires Run(cfg, trace, labels) && i < |trace| && c in trace[i].calls && trace[i].calls[c].op.Attach?
    requires trace[i].calls[c].pc.Done? && trace[i].calls[c].pc.result.Success?
    ensures Served(cfg, trace, labels, i, c, trace[i].calls[c].op, a, v)
    ensures var op, lun := trace[i].calls[c].op, trace[i].calls[c].pc.result.lun;
      if cfg.lunCheck
      then k < i && labels[k].CheckLun? && labels[k].c == c && FindLun(labels[k].view, op.name, op.uri) == Lun(lun)
      else lun == AllocatedLun(op, labels[a])
  {
    k := DoneWasReleasing(cfg, trace, labels, i, c);
    if cfg.lunCheck {
      k := LastOwnStep(cfg, trace, labels, k, c);
      OtherStepsLeadNowhere(cfg, trace[k], labels[k]);
      LunIsChecked(cfg, trace[k], labels[k]);
    }
    a, v := PastVm(cfg, trace, labels, k, c);
  }

  lemma LunIsChecked(cfg: Config, s: State, l: Label)
    requires cfg.lunCheck && Enabled(cfg, s, l) && l.c in s.calls && s.calls[l.c].op.Attach? && InNodeSection(l)
    requires l.AllocateLuns? || l.VmAttach? || l.VmRetry? || l.CheckLun?
    requires Apply(cfg, s, l).calls[l.c].pc.Release? && Apply(cfg, s, l).calls[l.c].pc.result.Success?
    ensures l.CheckLun? && s.calls[l.c].pc.Check?
    ensures FindLun(l.view, s.calls[l.c].op.name, s.calls[l.c].op.uri)
         == Lun(Apply(cfg, s, l).calls[l.c].pc.result.lun)
  {
    if l.AllocateLuns? {
      AllocationLeadsTo(cfg, s, l.c, l.view, l.order);
    } else if l.VmAttach? {
      AttachLeadsTo(cfg, s, l.c, l.disks, l.outcome);
    } else if l.VmRetry? {
      RetryLeadsTo(cfg, s, l.c, l.disks, l.ok);
    } else {
      CheckLeadsTo(cfg, s, l.c, l.view);
    }
  }

  // ---------------------------------------------------------------- what DetachDisk and UpdateVM return

  /** There was nothing to detach, or the VM has detached the batch, forced or not. */
  predicate DetachWorked(s: State, l: Label) {
    l.c in s.calls &&
    (|| (l.SkipDetach? && s.calls[l.c].pc.Work? && Requests(s, s.calls[l.c].pc.batch) == map[])
     || (l.VmDetach? && l.outcome == Nil)
     || (l.VmForceDetach? && l.ok))
  }

  /** What a step of DetachDisk leads to. */
  ghost predicate DetachLeadsTo(cfg: Config, s: State, l: Label, pc': Pc)
    requires l.c in s.calls && !s.calls[l.c].op.Update?
  {
    var op := s.calls[l.c].op;
    && (pc'.Check? ==> DetachWorked(s, l))
    && (pc' == Release(Detached) ==>
          || (l.CheckLun? && s.calls[l.c].pc.Check? && FindLun(l.view, op.name, op.uri) == NoLun)
          || (!cfg.lunCheck && DetachWorked(s, l)))
    && (pc' == Release(Gone) ==> l.VmDetach? && l.outcome == NotFound)
    && (pc'.Forcing? ==> cfg.forceDetach && l.VmDetach? && l.outcome == Error(false))
  }

  lemma VmDetachLeadsTo(cfg: Config, s: State, c: CallId, disks: Disks, outcome: VmOutcome)
    requires CanVmDetach(cfg, s, c, disks, outcome)
    ensures DetachLeadsTo(cfg, s, VmDetach(c, disks, outcome), DoVmDetach(cfg, s, c, disks, outcome).calls[c].pc)
  {
  }

  lemma VmForceDetachLeadsTo(cfg: Config, s: State, c: CallId, disks: Disks, ok: bool)
    requires CanVmForceDetach(s, c, disks, ok)
    ensures DetachLeadsTo(cfg, s, VmForceDetach(c, disks, ok), DoVmForceDetach(cfg, s, c, disks, ok).calls[c].pc)
  {
  }

  lemma DetachCheckLeadsTo(cfg: Config, s: State, c: CallId, view: View)
    requires CanCheckLun(cfg, s, c, view) && s.calls[c].op.Detach?
    ensures DetachLeadsTo(cfg, s, CheckLun(c, view), DoCheckLun(cfg, s, c, view).calls[c].pc)
  {
  }

  lemma PlainDetachStep(cfg: Config, s: State, l: Label)
    requires Enabled(cfg, s, l) && l.c in s.calls && s.calls[l.c].op.Detach? && !InNodeSection(l)
    requires l.c in Apply(cfg, s, l).calls
    ensures DetachLeadsTo(cfg, s, l, Apply(cfg, s, l).calls[l.c].pc)
  {
  }

  lemma DetachStep(cfg: Config, s: State, l: Label)
    requires Enabled(cfg, s, l) && l.c in s.calls && CallShape(s.calls[l.c]) && s.calls[l.c].op.Detach?
    requires l.c in Apply(cfg, s, l).calls
    ensures DetachLeadsTo(cfg, s, l, Apply(cfg, s, l).calls[l.c].pc)
  {
    if l.VmDetach? {
      VmDetachLeadsTo(cfg, s, l.c, l.disks, l.outcome);
    } else if l.VmForceDetach? {
      VmForceDetachLeadsTo(cfg, s, l.c, l.disks, l.ok);
    } else if l.CheckLun? {
      DetachCheckLeadsTo(cfg, s, l.c, l.view);
    } else {
      OnlyThoseAreDetach(cfg, s, l);
      PlainDetachStep(cfg, s, l);
    }
  }

  lemma OnlyThoseAreDetach(cfg: Config, s: State, l: Label)
    requires Enabled(cfg, s, l) && l.c in s.calls && s.calls[l.c].op.Detach?
    requires !l.VmDetach? && !l.VmForceDetach? && !l.CheckLun?
    ensures !InNodeSection(l)
  {
  }

  lemma ForcedFrom(cfg: Config, trace: seq<State>, labels: seq<Label>, v: nat, c: CallId) returns (u: nat)
    requires Run(cfg, trace, labels) && v < |labels| && labels[v].VmForceDetach? && labels[v].c == c
    ensures u < v && cfg.forceDetach && labels[u].c == c && labels[u].VmDetach? && labels[u].outcome == Error(false)
  {
    assert StepAt(cfg, trace, labels, v);
    u := LastOwnStep(cfg, trace, labels, v, c);
    DetachStep(cfg, trace[u], labels[u]);
  }

  /** DetachDisk that reports "detached" had nothing to detach or the VM detached its batch, by force
      only after an error that was not throttling and only if that is enabled; with the check on, the
      check did not find the disk. */
  lemma DetachReturns(cfg: Config, trace: seq<State>, labels: seq<Label>, i: nat, c: CallId)
    returns (v: nat, k: nat)
    requires Run(cfg, trace, labels) && i < |trace| && c in trace[i].calls && trace[i].calls[c].op.Detach?
    requires trace[i].calls[c].pc == Done(Detached)
    ensures v < i && labels[v].c == c && DetachWorked(trace[v], labels[v])
    ensures labels[v].VmForceDetach? ==>
      cfg.forceDetach
      && exists u :: 0 <= u < v && labels[u].c == c && labels[u].VmDetach? && labels[u].outcome == Error(false)
    ensures cfg.lunCheck ==>
      k < i && labels[k].CheckLun? && labels[k].c == c
      && FindLun(labels[k].view, trace[i].calls[c].op.name, trace[i].calls[c].op.uri) == NoLun
  {
    k := DoneWasReleasing(cfg, trace, labels, i, c);
    k := LastOwnStep(cfg, trace, labels, k, c);
    DetachStep(cfg, trace[k], labels[k]);
    v := k;
    if labels[k].CheckLun? {
      v := LastOwnStep(cfg, trace, labels, k, c);
      DetachStep(cfg, trace[v], labels[v]);
    }
    if labels[v].VmForceDetach? { var u := ForcedFrom(cfg, trace, labels, v, c); }
  }

  /** A call that ends because its VM or node was not found. */
  ghost predicate NotFoundAt(labels: seq<Label>, j: int, c: CallId) {
    0 <= j < |labels| && labels[j].c == c
    && (ReturnsEarly(labels[j], c) || (labels[j].VmDetach? && labels[j].outcome == NotFound))
  }

  lemma GoneStep(cfg: Config, s: State, l: Label)
    requires Enabled(cfg, s, l) && l.c in s.calls && CallShape(s.calls[l.c])
    requires ReturnsEarly(l, l.c) || (l.VmDetach? && l.outcome == NotFound)
    ensures l.c in Apply(cfg, s, l).calls
    ensures Apply(cfg, s, l).calls[l.c].pc == Release(Gone) || Apply(cfg, s, l).calls[l.c].pc == Done(Gone)
  {
  }

  lemma StepKeepsGone(cfg: Config, s: State, l: Label, c: CallId)
    requires ShapeInv(s) && Enabled(cfg, s, l) && c in s.calls
    requires s.calls[c].pc == Release(Gone) || s.calls[c].pc == Done(Gone)
    ensures c in Apply(cfg, s, l).calls
    ensures Apply(cfg, s, l).calls[c].pc == Release(Gone) || Apply(cfg, s, l).calls[c].pc == Done(Gone)
  {
    if l.c != c { StepKeepsCall(cfg, s, l, c); }
  }

  lemma {:induction false} GoneStays(cfg: Config, trace: seq<State>, labels: seq<Label>, h: nat, i: nat, c: CallId)
    requires Run(cfg, trace, labels) && h <= i < |trace| && c in trace[h].calls
    requires trace[h].calls[c].pc == Release(Gone) || trace[h].calls[c].pc == Done(Gone)
    ensures c in trace[i].calls
    ensures trace[i].calls[c].pc == Release(Gone) || trace[i].calls[c].pc == Done(Gone)
    decreases i
  {
    if h < i {
      GoneStays(cfg, trace, labels, h, i - 1, c);
      RunShape(cfg, trace, labels, i - 1);
      assert StepAt(cfg, trace, labels, i - 1);
      StepKeepsGone(cfg, trace[i - 1], labels[i - 1], c);
    }
  }

  lemma GoneHasCause(cfg: Config, trace: seq<State>, labels: seq<Label>, i: nat, c: CallId) returns (j: nat)
    requires Run(cfg, trace, labels) && i < |trace| && c in trace[i].calls && trace[i].calls[c].pc == Done(Gone)
    ensures j < i && NotFoundAt(labels, j, c)
  {
    RunShape(cfg, trace, labels, i);
    assert CallShape(trace[i].calls[c]);
    j := DoneWasReleasing(cfg, trace, labels, i, c);
    if !ReturnsEarly(labels[j], c) {
      j := LastOwnStep(cfg, trace, labels, j, c);
      DetachStep(cfg, trace[j], labels[j]);
    }
  }

  lemma CauseMeansGone(cfg: Config, trace: seq<State>, labels: seq<Label>, i: nat, j: nat, c: CallId)
    requires Run(cfg, trace, labels) && j < i < |trace| && NotFoundAt(labels, j, c)
    ensures c in trace[i].calls
    ensures trace[i].calls[c].pc == Release(Gone) || trace[i].calls[c].pc == Done(Gone)
  {
    RunShape(cfg, trace, labels, j);
    assert StepAt(cfg, trace, labels, j);
    GoneStep(cfg, trace[j], labels[j]);
    GoneStays(cfg, trace, labels, j + 1, i, c);
  }

  /** DetachDisk assumes the disk to be gone exactly when its node or its VM was not found. */
  lemma GoneIff(cfg: Config, trace: seq<State>, labels: seq<Label>, i: nat, c: CallId)
    requires Run(cfg, trace, labels) && i < |trace| && c in trace[i].calls && trace[i].calls[c].pc.Done?
    ensures trace[i].calls[c].pc.result == Gone <==> exists j :: 0 <= j < i && NotFoundAt(labels, j, c)
  {
    if trace[i].calls[c].pc.result == Gone {
      var j := GoneHasCause(cfg, trace, labels, i, c);
    }
    if j :| 0 <= j < i && NotFoundAt(labels, j, c) {
      CauseMeansGone(cfg, trace, labels, i, j, c);
    }
  }

  /** UpdateVM succeeds only with the VM's own success. */
  lemma UpdateReturns(cfg: Config, trace: seq<State>, labels: seq<Label>, i: nat, c: CallId) returns (v: nat)
    requires Run(cfg, trace, labels) && i < |trace| && c in trace[i].calls && trace[i].calls[c].op.Update?
    requires trace[i].calls[c].pc.Done? && trace[i].calls[c].pc.result != Failed
    ensures trace[i].calls[c].pc.result == Updated && v < i && labels[v] == VmUpdate(c, true)
  {
    RunShape(cfg, trace, labels, i);
    assert CallShape(trace[i].calls[c]);
    v := DoneWasReleasing(cfg, trace, labels, i, c);
    v := LastOwnStep(cfg, trace, labels, v, c);
    UpdateStep(cfg, trace[v], labels[v]);
  }

  lemma UpdateStep(cfg: Config, s: State, l: Label)
    requires Enabled(cfg, s, l) && l.c in s.calls && CallShape(s.calls[l.c]) && s.calls[l.c].op.Update?
    requires l.c in Apply(cfg, s, l).calls && Apply(cfg, s, l).calls[l.c].pc == Release(Updated)
    ensures l == VmUpdate(l.c, true)
  {
  }
}
