/** The main results about AttachDisk, DetachDisk and UpdateVM, for every run of the protocol. */
module AttachTheorems {
  import opened AttachProtocol
  import opened AttachInvariants
  import opened AttachSafety

  /** In every reachable state of every interleaving, the disks on each VM have pairwise distinct
      LUNs in 0..63. The only thing asked of the environment is that a view read under the node
      lock contains every disk really on the VM. */
  lemma LunsAlwaysDistinct(cfg: Config, trace: seq<State>, labels: seq<Label>, i: nat, node: Node)
    requires Run(cfg, trace, labels) && i < |trace|
    ensures DistinctLuns(DisksOn(trace[i], node))
  {
    RunInv(cfg, trace, labels, i);
  }

  /** At most one call holds a key. */
  lemma OneHolderPerKey(cfg: Config, trace: seq<State>, labels: seq<Label>, i: nat, c: CallId, d: CallId)
    requires Run(cfg, trace, labels) && i < |trace| && c in trace[i].calls && d in trace[i].calls && c != d
    ensures Held(trace[i].calls[c]) !! Held(trace[i].calls[d])
  {
    RunInv(cfg, trace, labels, i);
    forall k | k in Held(trace[i].calls[c]) && k in Held(trace[i].calls[d]) ensures false {
      Exclusive(trace[i], c, d, k);
    }
  }

  // ---------------------------------------------------------------- return values

  /** Step j is the early return of a DetachDisk whose node was not found. */
  predicate ReturnsEarly(l: Label, c: CallId) { l == Refuse(c, true) }

  /** A call that is done without an error passed through the state in which it was about to unlock
      with that result, or took the early return. */
  lemma {:induction false} DoneWasReleasing(cfg: Config, trace: seq<State>, labels: seq<Label>, i: nat, c: CallId)
    returns (j: nat)
    requires Run(cfg, trace, labels) && i < |trace| && c in trace[i].calls
    requires trace[i].calls[c].pc.Done? && trace[i].calls[c].pc.result != Failed
    ensures j < i && c in trace[j].calls && trace[j].calls[c].op == trace[i].calls[c].op
    ensures trace[j].calls[c].pc == Release(trace[i].calls[c].pc.result)
            || (trace[i].calls[c].pc.result == Gone && ReturnsEarly(labels[j], c))
    decreases i
  {
    assert i > 0;
    RunInv(cfg, trace, labels, i - 1);
    assert StepAt(cfg, trace, labels, i - 1);
    var stays := BecameDone(cfg, trace[i - 1], labels[i - 1], c, trace[i]);
    if stays {
      j := DoneWasReleasing(cfg, trace, labels, i - 1, c);
    } else {
      j := i - 1;
    }
  }

  lemma BecameDone(cfg: Config, s: State, l: Label, c: CallId, s': State) returns (stays: bool)
    requires ShapeInv(s) && Enabled(cfg, s, l) && s' == Apply(cfg, s, l)
    requires c in s'.calls && s'.calls[c].pc.Done? && s'.calls[c].pc.result != Failed
    ensures c in s.calls && s.calls[c].op == s'.calls[c].op
    ensures stays ==> s.calls[c] == s'.calls[c]
    ensures !stays ==> s.calls[c].pc == Release(s'.calls[c].pc.result)
                       || (s'.calls[c].pc.result == Gone && ReturnsEarly(l, c))
  {
    if LeavesQueues(l) { StepMoves(cfg, s, l); } else { StepQueues(cfg, s, l); }
    stays := c != l.c;
    if !stays && s.calls[c].pc.Start? { StartEndsEarly(cfg, s, l); }
  }

  lemma StartEndsEarly(cfg: Config, s: State, l: Label)
    requires Enabled(cfg, s, l) && l.c in s.calls && s.calls[l.c].pc.Start?
    requires Apply(cfg, s, l).calls[l.c].pc == Done(Gone)
    ensures ReturnsEarly(l, l.c)
  {
  }

  /** AttachDisk returns a LUN only if, while it held the node lock, its disk was on the VM at that
      LUN: also when its request was served, or dropped, by another call's batch, and also with the
      LUN check switched off. */
  lemma AttachSuccessWasOn(cfg: Config, trace: seq<State>, labels: seq<Label>, i: nat, c: CallId)
    returns (j: nat)
    requires Run(cfg, trace, labels) && i < |trace| && c in trace[i].calls && SoundAttach(cfg)
    requires trace[i].calls[c].op.Attach? && trace[i].calls[c].pc.Done? && trace[i].calls[c].pc.result.Success?
    ensures j < i && c in trace[j].calls && trace[j].calls[c].pc == Release(trace[i].calls[c].pc.result)
    ensures var op := trace[i].calls[c].op;
      && op.node in trace[j].locks && trace[j].locks[op.node] == c
      && IsOn(DisksOn(trace[j], op.node), op.uri, trace[i].calls[c].pc.result.lun)
  {
    j := DoneWasReleasing(cfg, trace, labels, i, c);
    RunInv(cfg, trace, labels, j);
    var s := trace[j];
    assert CallFacts(cfg, s, s.calls[c]);
    assert s.calls[c].op.node in Held(s.calls[c]);
  }

  /** DetachDisk returns nil, whichever way, only if its disk was off the VM: while the call held the
      node lock, or at the moment of the early return, which takes no lock. */
  lemma DetachSuccessWasOff(cfg: Config, trace: seq<State>, labels: seq<Label>, i: nat, c: CallId)
    returns (j: nat)
    requires Run(cfg, trace, labels) && i < |trace| && c in trace[i].calls && SoundDetach(cfg)
    requires trace[i].calls[c].op.Detach? && trace[i].calls[c].pc.Done? && trace[i].calls[c].pc.result != Failed
    ensures j < i && c in trace[j].calls
    ensures var op := trace[i].calls[c].op;
      && op.uri !in DisksOn(trace[j], op.node)
      && ((op.node in trace[j].locks && trace[j].locks[op.node] == c) || ReturnsEarly(labels[j], c))
  {
    j := DoneWasReleasing(cfg, trace, labels, i, c);
    RunInv(cfg, trace, labels, j);
    if trace[j].calls[c].pc == Release(trace[i].calls[c].pc.result) {
      ReleasedWasOff(cfg, trace[j], c);
    } else {
      assert StepAt(cfg, trace, labels, j);
      EarlyWasOff(cfg, trace[j], labels[j], c);
    }
  }

  lemma ReleasedWasOff(cfg: Config, s: State, c: CallId)
    requires Inv(cfg, s) && SoundDetach(cfg) && c in s.calls && s.calls[c].op.Detach?
    requires s.calls[c].pc.Release? && s.calls[c].pc.result != Failed
    ensures s.calls[c].op.uri !in DisksOn(s, s.calls[c].op.node)
    ensures s.calls[c].op.node in s.locks && s.locks[s.calls[c].op.node] == c
  {
    assert CallShape(s.calls[c]) && CallFacts(cfg, s, s.calls[c]);
    assert s.calls[c].op.node in Held(s.calls[c]);
  }

  lemma EarlyWasOff(cfg: Config, s: State, l: Label, c: CallId)
    requires SoundDetach(cfg) && Enabled(cfg, s, l) && ReturnsEarly(l, c)
    ensures c in s.calls && DisksOn(s, s.calls[c].op.node) == map[]
  {
  }

  // ---------------------------------------------------------------- conservation

  /** Every queued request is in its queue, or in exactly one drained batch and not in the queue. */
  lemma RequestsLeaveExactlyOnce(cfg: Config, trace: seq<State>, labels: seq<Label>, i: nat, r: CallId)
    requires Run(cfg, trace, labels) && i < |trace| && r in trace[i].enqueued
    ensures var s := trace[i];
      r in s.calls && !s.calls[r].op.Update? &&
      var q, u := QueueOf(s.calls[r].op), s.calls[r].op.uri;
      || (Queued(s, r, q, u) && forall k, v :: !InBatch(s, r, k, v))
      || ((forall p, v :: !Queued(s, r, p, v)) &&
          exists k :: InBatch(s, r, k, u) && s.history[k].queue == q
            && forall k', v :: InBatch(s, r, k', v) ==> k' == k && v == u)
  {
    RunInv(cfg, trace, labels, i);
    var s := trace[i];
    assert Accounted(s, r);
    if r in s.drainedIn {
      var k := s.drainedIn[r];
      assert InBatch(s, r, k, s.calls[r].op.uri);
      assert forall k', v :: InBatch(s, r, k', v) ==> k' == k && v == s.calls[r].op.uri;
      assert forall p, v :: !Queued(s, r, p, v);
    } else {
      assert forall k, v :: !InBatch(s, r, k, v);
    }
  }

  /** A call that has drained its queue, and every call that has finished after queueing, finds the
      request that stands for it drained: by itself or by an earlier batch. */
  lemma DrainedNoLaterThanOwner(cfg: Config, trace: seq<State>, labels: seq<Label>, i: nat, c: CallId)
    returns (r: CallId, k: int)
    requires Run(cfg, trace, labels) && i < |trace| && c in trace[i].coveredBy
    requires c in trace[i].calls ==> !Waiting(trace[i].calls[c].pc)
    ensures c in trace[i].calls && !trace[i].calls[c].op.Update?
    ensures r in trace[i].enqueued && IsRequest(trace[i], r, QueueOf(trace[i].calls[c].op), trace[i].calls[c].op.uri)
    ensures InBatch(trace[i], r, k, trace[i].calls[c].op.uri)
    ensures c in trace[i].enqueued ==> r == c
  {
    RunInv(cfg, trace, labels, i);
    var s := trace[i];
    assert Covered(s, c);
    r := s.coveredBy[c];
    assert Accounted(s, r);
    k := s.drainedIn[r];
  }

  /** Whenever no call is in flight, every queue is empty. */
  lemma QuietMeansEmptyQueues(cfg: Config, trace: seq<State>, labels: seq<Label>, i: nat, q: QueueId)
    requires Run(cfg, trace, labels) && i < |trace|
    requires forall c :: c in trace[i].calls ==> trace[i].calls[c].pc.Done?
    ensures QueueMap(trace[i], q) == map[]
  {
    RunInv(cfg, trace, labels, i);
    var s := trace[i];
    forall u | u in QueueMap(s, q) ensures false {
      assert Queued(s, QueueMap(s, q)[u], q, u);
    }
  }

  lemma HistoryGrows(cfg: Config, s: State, l: Label)
    requires ShapeInv(s) && Enabled(cfg, s, l)
    ensures s.history <= Apply(cfg, s, l).history
  {
    if LeavesQueues(l) { StepMoves(cfg, s, l); } else { StepQueues(cfg, s, l); }
  }

  /** A map that has been drained is never written again, whatever is inserted later. */
  lemma {:induction false} DrainedMapsNeverChange(cfg: Config, trace: seq<State>, labels: seq<Label>, i: nat,
                                                  j: nat, k: nat)
    requires Run(cfg, trace, labels) && i <= j < |trace| && k < |trace[i].history|
    ensures k < |trace[j].history| && trace[j].history[k] == trace[i].history[k]
    ensures trace[i].history[k].m < |trace[j].maps|
    ensures trace[j].maps[trace[i].history[k].m] == trace[i].history[k].requests
    decreases j
  {
    RunInv(cfg, trace, labels, j);
    if i < j {
      DrainedMapsNeverChange(cfg, trace, labels, i, j - 1, k);
      RunInv(cfg, trace, labels, j - 1);
      assert StepAt(cfg, trace, labels, j - 1);
      HistoryGrows(cfg, trace[j - 1], labels[j - 1]);
    }
    assert Retired(trace[j], trace[j].history[k].m);
  }
}
