/** Who put a disk on a VM: what becomes of an attach request that another call drained. */
module AttachProvenance {
  import opened AttachProtocol
  import opened AttachInvariants
  import opened AttachSafety
  import opened AttachTheorems
  import opened AttachProgress

  // ---------------------------------------------------------------- calls only move forward

  lemma StepKeepsOp(cfg: Config, s: State, l: Label, c: CallId)
    requires ShapeInv(s) && Enabled(cfg, s, l) && c in s.calls
    ensures var s' := Apply(cfg, s, l);
      c in s'.calls && s'.calls[c].op == s.calls[c].op && Rank(s'.calls[c].pc) <= Rank(s.calls[c].pc)
  {
    if l.Spawn? { StepQueues(cfg, s, l); } else { StepLowersRank(cfg, s, l); }
  }

  /** A call keeps its operation and never goes back. */
  lemma {:induction false} CallsMoveForward(cfg: Config, trace: seq<State>, labels: seq<Label>, h: nat, i: nat,
                                            c: CallId)
    requires Run(cfg, trace, labels) && h <= i < |trace| && c in trace[h].calls
    ensures c in trace[i].calls && trace[i].calls[c].op == trace[h].calls[c].op
    ensures Rank(trace[i].calls[c].pc) <= Rank(trace[h].calls[c].pc)
    decreases i
  {
    if h < i {
      CallsMoveForward(cfg, trace, labels, h, i - 1, c);
      RunShape(cfg, trace, labels, i - 1);
      assert StepAt(cfg, trace, labels, i - 1);
      StepKeepsOp(cfg, trace[i - 1], labels[i - 1], c);
    }
  }

  // ---------------------------------------------------------------- whose batch it was

  /** Call d works on the k-th drained batch. */
  ghost predicate WorksOn(s: State, d: CallId, k: int) {
    d in s.calls && BatchRef(s.calls[d].pc).Some? && !s.calls[d].op.Update? && 0 <= k < |s.history|
    && s.history[k].drainer == d && s.history[k].m == BatchRef(s.calls[d].pc).value
    && s.history[k].queue == QueueOf(s.calls[d].op)
  }

  lemma StepKeepsBatch(cfg: Config, s: State, l: Label, d: CallId, k: int)
    requires ShapeInv(s) && Enabled(cfg, s, l) && WorksOn(s, d, k)
    requires d in Apply(cfg, s, l).calls && BatchRef(Apply(cfg, s, l).calls[d].pc).Some?
    requires d == l.c ==> LeavesQueues(l)
    ensures WorksOn(Apply(cfg, s, l), d, k)
  {
    if LeavesQueues(l) { StepMoves(cfg, s, l); } else { StepQueues(cfg, s, l); }
  }

  /** A call comes to a batch only by draining it. */
  lemma StepBringsBatch(cfg: Config, s: State, l: Label, d: CallId) returns (k: int)
    requires ShapeInv(s) && QueueInv(s) && Enabled(cfg, s, l)
    requires var s' := Apply(cfg, s, l); d in s'.calls && BatchRef(s'.calls[d].pc).Some?
    requires d == l.c && !LeavesQueues(l)
    ensures WorksOn(Apply(cfg, s, l), d, k)
  {
    match l {
      case Drain(c) =>
        DrainRecords(s, c);
        k := |s.history|;
      case _ => k := 0;
    }
  }

  /** The batch that a call works on is one that it drained itself, on record. */
  lemma {:induction false} BatchIsOwn(cfg: Config, trace: seq<State>, labels: seq<Label>, i: nat, d: CallId)
    returns (k: int)
    requires Run(cfg, trace, labels) && i < |trace| && d in trace[i].calls && BatchRef(trace[i].calls[d].pc).Some?
    ensures WorksOn(trace[i], d, k)
    decreases i
  {
    assert i > 0;
    RunInv(cfg, trace, labels, i - 1);
    assert StepAt(cfg, trace, labels, i - 1);
    var s, l := trace[i - 1], labels[i - 1];
    if d == l.c && !LeavesQueues(l) {
      k := StepBringsBatch(cfg, s, l, d);
    } else {
      HadBatch(cfg, s, l, d);
      k := BatchIsOwn(cfg, trace, labels, i - 1, d);
      StepKeepsBatch(cfg, s, l, d, k);
    }
  }

  lemma HadBatch(cfg: Config, s: State, l: Label, d: CallId)
    requires ShapeInv(s) && Enabled(cfg, s, l) && (d == l.c ==> LeavesQueues(l))
    requires var s' := Apply(cfg, s, l); d in s'.calls && BatchRef(s'.calls[d].pc).Some?
    ensures d in s.calls && BatchRef(s.calls[d].pc).Some?
  {
    if LeavesQueues(l) { StepMoves(cfg, s, l); } else { StepQueues(cfg, s, l); }
  }

  // ---------------------------------------------------------------- who put the disk on

  /** Step j puts disk u on the VM at `lun`, for the request r of the k-th batch. */
  ghost predicate PutsOn(trace: seq<State>, labels: seq<Label>, j: int, node: Node, u: Uri, lun: int, k: int, r: CallId)
    requires |trace| == |labels| + 1
  {
    && 0 <= j < |labels| && (labels[j].VmAttach? || labels[j].VmRetry?)
    && u !in DisksOn(trace[j], node) && IsOn(DisksOn(trace[j + 1], node), u, lun)
    && WorksOn(trace[j], labels[j].c, k) && trace[j].calls[labels[j].c].op.node == node
    && InBatch(trace[j], r, k, u)
  }

  /** The step at which a disk got where it is, if it was not there before. */
  lemma {:induction false} LastPutOn(cfg: Config, trace: seq<State>, labels: seq<Label>, h: nat, i: nat,
                                     node: Node, u: Uri)
    returns (j: nat, k: int, r: CallId)
    requires Run(cfg, trace, labels) && h <= i < |trace|
    requires u !in DisksOn(trace[h], node) && u in DisksOn(trace[i], node)
    ensures h <= j < i && PutsOn(trace, labels, j, node, u, DisksOn(trace[i], node)[u], k, r)
    decreases i
  {
    assert StepAt(cfg, trace, labels, i - 1);
    var s, l := trace[i - 1], labels[i - 1];
    StepPutsOn(cfg, s, l, node, u);
    if u in DisksOn(s, node) {
      j, k, r := LastPutOn(cfg, trace, labels, h, i - 1, node, u);
    } else {
      j := i - 1;
      k, r := WhoPutsOn(cfg, trace, labels, j, node, u);
    }
  }

  lemma WhoPutsOn(cfg: Config, trace: seq<State>, labels: seq<Label>, j: nat, node: Node, u: Uri)
    returns (k: int, r: CallId)
    requires Run(cfg, trace, labels) && j < |labels|
    requires u !in DisksOn(trace[j], node) && u in DisksOn(trace[j + 1], node)
    ensures PutsOn(trace, labels, j, node, u, DisksOn(trace[j + 1], node)[u], k, r)
  {
    assert StepAt(cfg, trace, labels, j);
    var s, l := trace[j], labels[j];
    StepPutsOn(cfg, s, l, node, u);
    k := BatchIsOwn(cfg, trace, labels, j, l.c);
    RunQueues(cfg, trace, labels, j);
    BatchContents(s, l.c, k);
    r := s.history[k].requests[u];
  }

  lemma RunQueues(cfg: Config, trace: seq<State>, labels: seq<Label>, i: nat)
    requires Run(cfg, trace, labels) && i < |trace|
    ensures QueueInv(trace[i])
  {
    RunInv(cfg, trace, labels, i);
  }

  lemma BatchContents(s: State, d: CallId, k: int)
    requires QueueInv(s) && WorksOn(s, d, k)
    ensures BatchRef(s.calls[d].pc).value < |s.maps|
    ensures s.maps[BatchRef(s.calls[d].pc).value] == s.history[k].requests
  {
    assert Retired(s, s.history[k].m);
  }

  /** AttachDisk works on attach requests and DetachDisk on detach requests only, all of them for its
      own node, each under the disk that its call named. */
  lemma BatchServesItsKind(cfg: Config, trace: seq<State>, labels: seq<Label>, i: nat, d: CallId, u: Uri)
    requires Run(cfg, trace, labels) && i < |trace| && d in trace[i].calls
    requires u in Requests(trace[i], BatchRef(trace[i].calls[d].pc))
    ensures var op, r := trace[i].calls[d].op, Requests(trace[i], BatchRef(trace[i].calls[d].pc))[u];
      r in trace[i].calls && trace[i].calls[r].op.node == op.node
      && (if op.Attach? then trace[i].calls[r].op.Attach? else op.Detach? && trace[i].calls[r].op.Detach?)
      && trace[i].calls[r].op.uri == u
  {
    var s := trace[i];
    var k := BatchIsOwn(cfg, trace, labels, i, d);
    RunQueues(cfg, trace, labels, i);
    RunConserves(cfg, trace, labels, i);
    BatchContents(s, d, k);
    assert InBatch(s, s.history[k].requests[u], k, u);
  }

  /** A LUN that AttachDisk returns, for a disk that was off the VM while the call was still waiting
      for the node lock, was given to the disk by some call's own batch in the meantime. */
  lemma SuccessWasPutOn(cfg: Config, trace: seq<State>, labels: seq<Label>, h: nat, i: nat, c: CallId)
    returns (j: nat, k: int, r: CallId)
    requires Run(cfg, trace, labels) && h <= i < |trace| && c in trace[h].calls && SoundAttach(cfg)
    requires trace[h].calls[c].op.Attach? && trace[h].calls[c].pc.WantNode?
    requires trace[h].calls[c].op.uri !in DisksOn(trace[h], trace[h].calls[c].op.node)
    requires c in trace[i].calls && trace[i].calls[c].pc.Done? && trace[i].calls[c].pc.result.Success?
    ensures var op := trace[h].calls[c].op;
      h <= j < i && PutsOn(trace, labels, j, op.node, op.uri, trace[i].calls[c].pc.result.lun, k, r)
  {
    CallsMoveForward(cfg, trace, labels, h, i, c);
    var n := AttachSuccessWasOn(cfg, trace, labels, i, c);
    assert n > h by {
      if n <= h { CallsMoveForward(cfg, trace, labels, n, h, c); }
    }
    j, k, r := LastPutOn(cfg, trace, labels, h, n, trace[h].calls[c].op.node, trace[h].calls[c].op.uri);
  }

  // ---------------------------------------------------------------- a request that another call took away

  /** The request that stands for a call is settled when the call has queued. */
  lemma StepKeepsCoveredBy(cfg: Config, s: State, l: Label, c: CallId)
    requires CoverInv(s) && Enabled(cfg, s, l) && c in s.coveredBy
    ensures c in Apply(cfg, s, l).coveredBy && Apply(cfg, s, l).coveredBy[c] == s.coveredBy[c]
  {
    assert Covered(s, c);
  }

  lemma {:induction false} CoveredByStays(cfg: Config, trace: seq<State>, labels: seq<Label>, h: nat, i: nat, c: CallId)
    requires Run(cfg, trace, labels) && h <= i < |trace| && c in trace[h].coveredBy
    ensures c in trace[i].coveredBy && trace[i].coveredBy[c] == trace[h].coveredBy[c]
    decreases i
  {
    if h < i {
      CoveredByStays(cfg, trace, labels, h, i - 1, c);
      RunConserves(cfg, trace, labels, i - 1);
      assert StepAt(cfg, trace, labels, i - 1);
      StepKeepsCoveredBy(cfg, trace[i - 1], labels[i - 1], c);
    }
  }

  lemma RunConserves(cfg: Config, trace: seq<State>, labels: seq<Label>, i: nat)
    requires Run(cfg, trace, labels) && i < |trace|
    ensures ShapeInv(trace[i]) && ConserveInv(trace[i])
  {
    RunInv(cfg, trace, labels, i);
  }

  /** A call that waits for the node lock is represented by a request, and by the time it is done
      that request is in a batch, which it drained itself or another call did. */
  lemma RequestOf(cfg: Config, trace: seq<State>, labels: seq<Label>, h: nat, i: nat, c: CallId)
    returns (r: CallId, k: int)
    requires Run(cfg, trace, labels) && h <= i < |trace| && c in trace[h].calls
    requires trace[h].calls[c].op.Attach? && trace[h].calls[c].pc.WantNode?
    requires c in trace[i].calls && trace[i].calls[c].pc.Done?
    ensures c in trace[h].coveredBy && r == trace[h].coveredBy[c]
    ensures InBatch(trace[i], r, k, trace[h].calls[c].op.uri)
  {
    RunConserves(cfg, trace, labels, h);
    CoveredByStays(cfg, trace, labels, h, i, c);
    CallsMoveForward(cfg, trace, labels, h, i, c);
    RunConserves(cfg, trace, labels, i);
    assert Covered(trace[i], c);
    r := trace[h].coveredBy[c];
    assert Accounted(trace[i], r);
    k := trace[i].drainedIn[r];
  }

  /** The request standing for a call was drained by another call. Then, if its disk was off the VM
      while it waited for the node lock, the call fails, unless another call attached the disk in the
      meantime: the drainer did put the disk on, or it was put on for another call's request. */
  lemma DroppedRequestFails(cfg: Config, trace: seq<State>, labels: seq<Label>, h: nat, i: nat, c: CallId, mine: int)
    requires Run(cfg, trace, labels) && h <= i < |trace| && c in trace[h].calls && SoundAttach(cfg)
    requires trace[h].calls[c].op.Attach? && trace[h].calls[c].pc.WantNode?
    requires trace[h].calls[c].op.uri !in DisksOn(trace[h], trace[h].calls[c].op.node)
    requires c in trace[i].calls && trace[i].calls[c].pc.Done?
    requires c in trace[h].coveredBy && InBatch(trace[i], trace[h].coveredBy[c], mine, trace[h].calls[c].op.uri)
    requires trace[i].history[mine].drainer != c
    ensures var op, result := trace[h].calls[c].op, trace[i].calls[c].pc.result;
      result == Failed || (result.Success? &&
        exists j, k, r ::
          && h <= j < i && PutsOn(trace, labels, j, op.node, op.uri, result.lun, k, r)
          && (if r == trace[h].coveredBy[c] then labels[j].c == trace[i].history[mine].drainer else r != c))
  {
    CallsMoveForward(cfg, trace, labels, h, i, c);
    RunConserves(cfg, trace, labels, i);
    assert CallShape(trace[i].calls[c]);
    if trace[i].calls[c].pc.result.Success? {
      var j, k, r := SuccessWasPutOn(cfg, trace, labels, h, i, c);
      CoveredByStays(cfg, trace, labels, h, i, c);
      DrainedMapsNeverChange(cfg, trace, labels, j, i, k);
      assert InBatch(trace[i], r, k, trace[h].calls[c].op.uri);
    }
  }
}
