/** What a call can count on for the batch that it drained itself. */
module AttachServed {
  import opened Wrappers
  import opened LunAllocator
  import opened AttachProtocol
  import opened AttachInvariants
  import opened AttachSafety
  import opened AttachProgress
  import opened AttachLimits

  /** The labels that can change what is on a VM. */
  predicate CallsVm(l: Label) { l.VmAttach? || l.VmRetry? || l.VmDetach? || l.VmForceDetach? }

  lemma QueueStepsLeaveVms(cfg: Config, s: State, l: Label)
    requires Enabled(cfg, s, l) && !LeavesQueues(l)
    ensures Apply(cfg, s, l).vms == s.vms
  {
  }

  lemma OnlyVmCallsChangeVms(cfg: Config, s: State, l: Label)
    requires Enabled(cfg, s, l) && LeavesQueues(l) && !CallsVm(l)
    ensures Apply(cfg, s, l).vms == s.vms
  {
  }

  lemma VmCallsStayHome(cfg: Config, s: State, l: Label, node: Node)
    requires Enabled(cfg, s, l) && CallsVm(l)
    ensures l.c in s.calls && s.calls[l.c].op.node in Held(s.calls[l.c])
    ensures node != s.calls[l.c].op.node ==> DisksOn(Apply(cfg, s, l), node) == DisksOn(s, node)
  {
  }

  lemma StepKeepsCall(cfg: Config, s: State, l: Label, c: CallId)
    requires ShapeInv(s) && Enabled(cfg, s, l) && c in s.calls && l.c != c
    ensures c in Apply(cfg, s, l).calls && Apply(cfg, s, l).calls[c] == s.calls[c]
  {
    if LeavesQueues(l) { StepMoves(cfg, s, l); } else { StepQueues(cfg, s, l); }
  }

  /** Nobody else touches the VM of a call that holds its node lock. */
  lemma HolderIsAlone(cfg: Config, s: State, l: Label, c: CallId)
    requires LocksInv(s) && Enabled(cfg, s, l) && c in s.calls && l.c != c
    requires s.calls[c].op.node in Held(s.calls[c])
    ensures DisksOn(Apply(cfg, s, l), s.calls[c].op.node) == DisksOn(s, s.calls[c].op.node)
  {
    if CallsVm(l) {
      VmCallsStayHome(cfg, s, l, s.calls[c].op.node);
      if s.calls[l.c].op.node == s.calls[c].op.node { Exclusive(s, c, l.c, s.calls[c].op.node); }
    } else if LeavesQueues(l) {
      OnlyVmCallsChangeVms(cfg, s, l);
    } else {
      QueueStepsLeaveVms(cfg, s, l);
    }
  }

  // ---------------------------------------------------------------- a batch with a disk that is on already

  /** The call is bound to fail, or has failed. */
  ghost predicate Doomed(s: State, c: CallId) {
    c in s.calls && s.calls[c].op.Attach?
    && (Blocked(s, c) || s.calls[c].pc == Release(Failed) || s.calls[c].pc == Done(Failed))
  }

  /** A disk of the batch that is on at another LUN stays there, and rules a nil out. */
  lemma BlockedAttachStep(cfg: Config, s: State, c: CallId, disks: Disks, outcome: VmOutcome)
    requires Inv(cfg, s) && Doomed(s, c) && CanVmAttach(s, c, disks, outcome)
    ensures Doomed(DoVmAttach(cfg, s, c, disks, outcome), c)
  {
    var call, s' := s.calls[c], DoVmAttach(cfg, s, c, disks, outcome);
    assert CallFacts(cfg, s, call);
    AskedIsLuns(s, call.op.node, call.pc.m, call.pc.luns);
    var u :| u in call.pc.luns && u in DisksOn(s, call.op.node) && DisksOn(s, call.op.node)[u] != call.pc.luns[u];
    assert DisksOn(s', call.op.node) == disks && u in disks && disks[u] != call.pc.luns[u];
  }

  lemma BlockedRetryStep(cfg: Config, s: State, c: CallId, disks: Disks, ok: bool)
    requires Inv(cfg, s) && cfg.retryCompletes && Doomed(s, c) && CanVmRetry(cfg, s, c, disks, ok)
    ensures Doomed(DoVmRetry(cfg, s, c, disks, ok), c)
  {
    var call := s.calls[c];
    assert CallFacts(cfg, s, call);
    AskedIsLuns(s, call.op.node, call.pc.m, call.pc.luns);
    var u :| u in call.pc.luns && u in DisksOn(s, call.op.node) && DisksOn(s, call.op.node)[u] != call.pc.luns[u];
    assert u in disks && disks[u] != call.pc.luns[u];
  }

  lemma OwnStepKeepsDoomed(cfg: Config, s: State, l: Label)
    requires Inv(cfg, s) && cfg.retryCompletes && Enabled(cfg, s, l) && Doomed(s, l.c)
    ensures Doomed(Apply(cfg, s, l), l.c)
  {
    if l.VmAttach? {
      BlockedAttachStep(cfg, s, l.c, l.disks, l.outcome);
    } else if l.VmRetry? {
      BlockedRetryStep(cfg, s, l.c, l.disks, l.ok);
    } else {
      DoomedLabels(cfg, s, l);
    }
  }

  /** Nothing but the VM call is left to a doomed call, or its way out. */
  lemma DoomedLabels(cfg: Config, s: State, l: Label)
    requires Enabled(cfg, s, l) && Doomed(s, l.c) && !l.VmAttach? && !l.VmRetry?
    ensures l == Abort(l.c) || (l == Unlock(l.c) && s.calls[l.c].pc == Release(Failed))
  {
  }

  lemma StepKeepsDoomed(cfg: Config, s: State, l: Label, c: CallId)
    requires Inv(cfg, s) && cfg.retryCompletes && Enabled(cfg, s, l) && Doomed(s, c)
    ensures Doomed(Apply(cfg, s, l), c)
  {
    if l.c == c {
      OwnStepKeepsDoomed(cfg, s, l);
    } else {
      StepKeepsCall(cfg, s, l, c);
      if !s.calls[c].pc.Done? { HolderIsAlone(cfg, s, l, c); }
    }
  }

  lemma {:induction false} DoomedStays(cfg: Config, trace: seq<State>, labels: seq<Label>, h: nat, i: nat, c: CallId)
    requires Run(cfg, trace, labels) && h <= i < |trace| && cfg.retryCompletes && Doomed(trace[h], c)
    ensures Doomed(trace[i], c)
    decreases i
  {
    if h < i {
      DoomedStays(cfg, trace, labels, h, i - 1, c);
      RunInv(cfg, trace, labels, i - 1);
      assert StepAt(cfg, trace, labels, i - 1);
      StepKeepsDoomed(cfg, trace[i - 1], labels[i - 1], c);
    }
  }

  /** A call about to attach a batch with a disk that is already on the VM fails in every
      continuation, whoever's disk it is, and with it every request of the batch is dropped. */
  lemma BatchWithAttachedDiskFails(cfg: Config, trace: seq<State>, labels: seq<Label>, h: nat, i: nat,
                                   c: CallId, u: Uri)
    requires Run(cfg, trace, labels) && h <= i < |trace| && cfg.retryCompletes
    requires c in trace[h].calls && trace[h].calls[c].pc.Attaching?
    requires u in Requests(trace[h], Some(trace[h].calls[c].pc.m)) && u in DisksOn(trace[h], trace[h].calls[c].op.node)
    requires c in trace[i].calls && trace[i].calls[c].pc.Done?
    ensures trace[i].calls[c].pc.result == Failed
  {
    RunInv(cfg, trace, labels, h);
    assert CallFacts(cfg, trace[h], trace[h].calls[c]);
    assert Blocked(trace[h], c);
    DoomedStays(cfg, trace, labels, h, i, c);
  }

  // ---------------------------------------------------------------- the truth about one's own batch

  /** Each call drains at most once, and refers to no other batch. */
  ghost predicate DrainsOnce(s: State) {
    forall k :: 0 <= k < |s.history| ==> DrainedBy(s, s.history[k].drainer, s.history[k].m)
  }

  ghost predicate DrainedBy(s: State, d: CallId, m: MapId) {
    && d in s.calls && !s.calls[d].op.Update? && Rank(s.calls[d].pc) <= Rank(Drained(None))
    && (BatchRef(s.calls[d].pc).Some? ==> BatchRef(s.calls[d].pc) == Some(m))
    && (s.calls[d].pc.Work? ==> s.calls[d].pc.batch == Some(m))
    && (s.calls[d].pc.Drained? ==> s.calls[d].pc.batch == Some(m))
  }

  lemma MoveKeepsDrainedBy(s: State, l: Label, s': State, d: CallId, m: MapId)
    requires DrainedBy(s, d, m) && StepShape(s, l.c, s')
    ensures DrainedBy(s', d, m)
  {
  }

  lemma StepKeepsDrainsOnce(cfg: Config, s: State, l: Label)
    requires ShapeInv(s) && QueueInv(s) && DrainsOnce(s) && Enabled(cfg, s, l)
    ensures DrainsOnce(Apply(cfg, s, l))
  {
    var s' := Apply(cfg, s, l);
    if LeavesQueues(l) {
      StepMoves(cfg, s, l);
      forall k | 0 <= k < |s'.history| ensures DrainedBy(s', s'.history[k].drainer, s'.history[k].m) {
        assert DrainedBy(s, s.history[k].drainer, s.history[k].m);
        MoveKeepsDrainedBy(s, l, s', s.history[k].drainer, s.history[k].m);
      }
    } else {
      StepQueues(cfg, s, l);
      NewBatchOnly(cfg, s, l);
      forall k | 0 <= k < |s'.history| ensures DrainedBy(s', s'.history[k].drainer, s'.history[k].m) {
        if k < |s.history| { assert DrainedBy(s, s.history[k].drainer, s.history[k].m); }
      }
    }
  }

  /** A queue step adds at most the batch that its own call drains; that call has drained none before. */
  lemma NewBatchOnly(cfg: Config, s: State, l: Label)
    requires QueueInv(s) && Enabled(cfg, s, l) && !LeavesQueues(l)
    ensures var s' := Apply(cfg, s, l);
      && s.history <= s'.history
      && (l.c in s.calls ==> Rank(s.calls[l.c].pc) > Rank(Drained(None)))
      && forall k :: |s.history| <= k < |s'.history| ==>
           s'.history[k].drainer == l.c && DrainedBy(s', l.c, s'.history[k].m)
  {
    if l.Drain? { DrainRecords(s, l.c); }
  }

  lemma {:induction false} RunDrainsOnce(cfg: Config, trace: seq<State>, labels: seq<Label>, i: nat)
    requires Run(cfg, trace, labels) && i < |trace|
    ensures DrainsOnce(trace[i])
  {
    if i > 0 {
      RunDrainsOnce(cfg, trace, labels, i - 1);
      RunInv(cfg, trace, labels, i - 1);
      assert StepAt(cfg, trace, labels, i - 1);
      StepKeepsDrainsOnce(cfg, trace[i - 1], labels[i - 1]);
    }
  }

  /** The LUN that the call is about to return is the disk's own on the VM. */
  ghost predicate Truthful(s: State, c: CallId) {
    c in s.calls && s.calls[c].op.Attach? && s.calls[c].pc.Release? && s.calls[c].pc.result.Success? ==>
      IsOn(DisksOn(s, s.calls[c].op.node), s.calls[c].op.uri, s.calls[c].pc.result.lun)
  }

  /** A call whose own batch holds its disk works on that batch. */
  lemma OwnBatchIsMine(s: State, c: CallId)
    requires QueueInv(s) && DrainsOnce(s) && OwnBatch(s, c)
    ensures s.calls[c].pc.Work? ==>
      s.calls[c].pc.batch.Some? && s.calls[c].op.uri in Requests(s, s.calls[c].pc.batch)
    ensures s.calls[c].pc.Attaching? || s.calls[c].pc.Retrying? ==>
      s.calls[c].op.uri in Requests(s, Some(s.calls[c].pc.m))
  {
    var k :| 0 <= k < |s.history| && s.history[k].drainer == c && s.calls[c].op.uri in s.history[k].requests;
    assert DrainedBy(s, c, s.history[k].m);
    assert Retired(s, s.history[k].m) && s.maps[s.history[k].m] == s.history[k].requests;
  }

  // Without the LUN check, and with retries that complete: what a step of the call itself makes true.

  lemma OwnAttachIsTruthful(cfg: Config, s: State, c: CallId, disks: Disks, outcome: VmOutcome)
    requires Inv(cfg, s) && DrainsOnce(s) && OwnBatch(s, c) && !cfg.lunCheck && CanVmAttach(s, c, disks, outcome)
    ensures Truthful(DoVmAttach(cfg, s, c, disks, outcome), c)
  {
    var call := s.calls[c];
    assert CallFacts(cfg, s, call);
    OwnBatchIsMine(s, c);
    AskedIsLuns(s, call.op.node, call.pc.m, call.pc.luns);
    assert DisksOn(DoVmAttach(cfg, s, c, disks, outcome), call.op.node) == disks;
  }

  lemma OwnRetryIsTruthful(cfg: Config, s: State, c: CallId, disks: Disks, ok: bool)
    requires Inv(cfg, s) && DrainsOnce(s) && OwnBatch(s, c) && !cfg.lunCheck && cfg.retryCompletes
    requires CanVmRetry(cfg, s, c, disks, ok)
    ensures Truthful(DoVmRetry(cfg, s, c, disks, ok), c)
  {
    var call := s.calls[c];
    assert CallFacts(cfg, s, call);
    OwnBatchIsMine(s, c);
    AskedIsLuns(s, call.op.node, call.pc.m, call.pc.luns);
    assert DisksOn(DoVmRetry(cfg, s, c, disks, ok), call.op.node) == disks;
  }

  /** Allocation does not end the call: its batch is not empty. */
  lemma OwnAllocationGoesOn(cfg: Config, s: State, c: CallId, view: View, order: seq<Uri>)
    requires QueueInv(s) && DrainsOnce(s) && OwnBatch(s, c) && CanAllocate(cfg, s, c, view, order)
    ensures Truthful(DoAllocate(cfg, s, c, view, order), c)
  {
    OwnBatchIsMine(s, c);
    assert s.calls[c].op.uri in order;
  }

  lemma OwnStepIsTruthful(cfg: Config, s: State, l: Label)
    requires Inv(cfg, s) && DrainsOnce(s) && !cfg.lunCheck && cfg.retryCompletes && Enabled(cfg, s, l)
    requires l.c in s.calls && OwnBatch(s, l.c)
    ensures Truthful(Apply(cfg, s, l), l.c)
  {
    if l.AllocateLuns? {
      OwnAllocationGoesOn(cfg, s, l.c, l.view, l.order);
    } else if l.VmAttach? {
      OwnAttachIsTruthful(cfg, s, l.c, l.disks, l.outcome);
    } else if l.VmRetry? {
      OwnRetryIsTruthful(cfg, s, l.c, l.disks, l.ok);
    } else {
      assert CallFacts(cfg, s, s.calls[l.c]);
      OtherStepEndsNothing(cfg, s, l);
    }
  }

  /** No other step ends in a LUN, when there is no check. */
  lemma OtherStepEndsNothing(cfg: Config, s: State, l: Label)
    requires Enabled(cfg, s, l) && l.c in s.calls && !s.calls[l.c].pc.Check?
    requires !l.AllocateLuns? && !l.VmAttach? && !l.VmRetry?
    ensures Truthful(Apply(cfg, s, l), l.c)
  {
  }

  lemma OwnBatchWas(cfg: Config, s: State, l: Label, c: CallId)
    requires ShapeInv(s) && QueueInv(s) && Enabled(cfg, s, l) && c in s.calls && OwnBatch(Apply(cfg, s, l), c)
    ensures OwnBatch(s, c) || (l.Drain? && l.c == c)
  {
    var s' := Apply(cfg, s, l);
    HistoryAfter(cfg, s, l, c);
    var k :| 0 <= k < |s'.history| && s'.history[k].drainer == c && s'.calls[c].op.uri in s'.history[k].requests;
    if k < |s.history| { assert s.history[k] == s'.history[k]; }
  }

  /** What a step adds to the record is its own call's batch. */
  lemma HistoryAfter(cfg: Config, s: State, l: Label, c: CallId)
    requires ShapeInv(s) && QueueInv(s) && Enabled(cfg, s, l) && c in s.calls
    ensures var s' := Apply(cfg, s, l);
      && c in s'.calls && s'.calls[c].op == s.calls[c].op && s.history <= s'.history
      && (|s.history| < |s'.history| ==> l.Drain?)
      && forall k :: |s.history| <= k < |s'.history| ==> s'.history[k].drainer == l.c
  {
    if LeavesQueues(l) {
      StepMoves(cfg, s, l);
    } else {
      StepQueues(cfg, s, l);
      NewBatchOnly(cfg, s, l);
      if !l.Drain? { OnlyDrainRecords(cfg, s, l); }
    }
  }

  lemma OnlyDrainRecords(cfg: Config, s: State, l: Label)
    requires Enabled(cfg, s, l) && !LeavesQueues(l) && !l.Drain?
    ensures Apply(cfg, s, l).history == s.history
  {
  }

  lemma OthersStepKeepsTruthful(cfg: Config, s: State, l: Label, c: CallId)
    requires Inv(cfg, s) && Enabled(cfg, s, l) && c in s.calls && l.c != c && Truthful(s, c)
    ensures Truthful(Apply(cfg, s, l), c)
  {
    StepKeepsCall(cfg, s, l, c);
    if s.calls[c].pc.Release? { HolderIsAlone(cfg, s, l, c); }
  }

  lemma DrainIsTruthful(cfg: Config, s: State, l: Label)
    requires Enabled(cfg, s, l) && l.Drain?
    ensures Truthful(Apply(cfg, s, l), l.c)
  {
  }

  lemma StepKeepsTruthful(cfg: Config, s: State, l: Label, c: CallId)
    requires Inv(cfg, s) && DrainsOnce(s) && !cfg.lunCheck && cfg.retryCompletes && Enabled(cfg, s, l) && c in s.calls
    requires OwnBatch(s, c) ==> Truthful(s, c)
    ensures OwnBatch(Apply(cfg, s, l), c) ==> Truthful(Apply(cfg, s, l), c)
  {
    if OwnBatch(Apply(cfg, s, l), c) {
      OwnBatchWas(cfg, s, l, c);
      if !OwnBatch(s, c) {
        DrainIsTruthful(cfg, s, l);
      } else if l.c == c {
        OwnStepIsTruthful(cfg, s, l);
      } else {
        OthersStepKeepsTruthful(cfg, s, l, c);
      }
    }
  }

  lemma NewCallIsTruthful(cfg: Config, s: State, l: Label, c: CallId)
    requires ShapeInv(s) && Enabled(cfg, s, l) && c !in s.calls
    ensures Truthful(Apply(cfg, s, l), c)
  {
    if LeavesQueues(l) { StepMoves(cfg, s, l); } else { StepQueues(cfg, s, l); }
  }

  lemma StepKeepsOwnTrue(cfg: Config, s: State, l: Label)
    requires Inv(cfg, s) && DrainsOnce(s) && !cfg.lunCheck && cfg.retryCompletes && Enabled(cfg, s, l)
    requires OwnReturnsTrue(s)
    ensures OwnReturnsTrue(Apply(cfg, s, l))
  {
    forall c | OwnBatch(Apply(cfg, s, l), c) ensures Truthful(Apply(cfg, s, l), c) {
      assert OwnBatch(s, c) ==> Truthful(s, c);
      if c in s.calls { StepKeepsTruthful(cfg, s, l, c); } else { NewCallIsTruthful(cfg, s, l, c); }
    }
  }

  lemma NextOwnTrue(cfg: Config, trace: seq<State>, labels: seq<Label>, i: nat)
    requires Run(cfg, trace, labels) && i < |labels| && !cfg.lunCheck && cfg.retryCompletes
    requires OwnReturnsTrue(trace[i])
    ensures OwnReturnsTrue(trace[i + 1])
  {
    RunInv(cfg, trace, labels, i);
    RunDrainsOnce(cfg, trace, labels, i);
    assert StepAt(cfg, trace, labels, i);
    StepKeepsOwnTrue(cfg, trace[i], labels[i]);
  }

  lemma {:induction false} RunOwnTrue(cfg: Config, trace: seq<State>, labels: seq<Label>, i: nat)
    requires Run(cfg, trace, labels) && i < |trace| && !cfg.lunCheck && cfg.retryCompletes
    ensures OwnReturnsTrue(trace[i])
  {
    if i > 0 {
      RunOwnTrue(cfg, trace, labels, i - 1);
      NextOwnTrue(cfg, trace, labels, i - 1);
    }
  }

  /** What the returned LUN depends on for a call whose own batch held its disk: with the check,
      exact views and faithful names; without it, only a retry that completes. */
  predicate SoundOwnAttach(cfg: Config) {
    if cfg.lunCheck then cfg.exactViews && cfg.namesFaithful else cfg.retryCompletes
  }

  /** Such a call's returned LUN is always true exactly under that condition. */
  lemma OwnReturnsTrueIff(cfg: Config)
    ensures (forall s :: Reachable(cfg, s) ==> OwnReturnsTrue(s)) <==> SoundOwnAttach(cfg)
  {
    if SoundOwnAttach(cfg) {
      forall s | Reachable(cfg, s) ensures OwnReturnsTrue(s) {
        var trace, labels :| Run(cfg, trace, labels) && trace[|labels|] == s;
        if cfg.lunCheck {
          RunInv(cfg, trace, labels, |labels|);
          forall c | OwnBatch(s, c) ensures Truthful(s, c) { assert CallFacts(cfg, s, s.calls[c]); }
        } else {
          RunOwnTrue(cfg, trace, labels, |labels|);
        }
      }
    } else if !cfg.lunCheck {
      var s := RetryMisleads(cfg);
    } else if !cfg.exactViews {
      var s := StaleEntryMisleads(cfg);
    } else {
      var s := NamesakeMisleads(cfg);
    }
  }
}
