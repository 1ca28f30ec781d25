/** Progress of the attach/detach protocol: no deadlock, and no endless run without new calls. */
module AttachProgress {
  import opened Wrappers
  import opened GoStrings
  import opened LunAllocator
  import opened AttachProtocol
  import opened AttachInvariants
  import opened AttachSafety
  import opened AttachTheorems

  // ---------------------------------------------------------------- what puts a disk on a VM

  /** A step leaves every VM alone but that of its own call's node, and disks never change LUN. A
      disk that a step puts on a VM is in the batch of an attach call for that VM's node, at the
      LUN asked for. */
  lemma StepPutsOn(cfg: Config, s: State, l: Label, node: Node, u: Uri)
    requires Enabled(cfg, s, l) && u in DisksOn(Apply(cfg, s, l), node)
    ensures var s' := Apply(cfg, s, l);
      if u in DisksOn(s, node) then DisksOn(s', node)[u] == DisksOn(s, node)[u]
      else
        && (l.VmAttach? || l.VmRetry?) && l.c in s.calls && s.calls[l.c].op.Attach? && s.calls[l.c].op.node == node
        && (s.calls[l.c].pc.Attaching? || s.calls[l.c].pc.Retrying?)
        && u in Requests(s, Some(s.calls[l.c].pc.m))
        && DisksOn(s', node)[u] == Asked(s, s.calls[l.c].pc.m, s.calls[l.c].pc.luns)[u]
  {
  }

  /** VMs carry disks by their lower-cased IDs in every state of every run. */
  lemma {:induction false} VmsFolded(cfg: Config, trace: seq<State>, labels: seq<Label>, i: nat, node: Node)
    requires Run(cfg, trace, labels) && i < |trace|
    ensures Folded(DisksOn(trace[i], node))
  {
    if i > 0 {
      VmsFolded(cfg, trace, labels, i - 1, node);
      RunInv(cfg, trace, labels, i - 1);
      assert StepAt(cfg, trace, labels, i - 1);
      StepKeepsFolded(cfg, trace[i - 1], labels[i - 1], node);
    }
  }

  lemma StepKeepsFolded(cfg: Config, s: State, l: Label, node: Node)
    requires KeysLower(s) && Folded(DisksOn(s, node)) && Enabled(cfg, s, l)
    ensures Folded(DisksOn(Apply(cfg, s, l), node))
  {
    forall u | u in DisksOn(Apply(cfg, s, l), node) ensures Lower(u) == u { StepPutsOn(cfg, s, l, node, u); }
  }

  // ---------------------------------------------------------------- every answer of the environment exists

  lemma {:induction false} OrderOf(requests: map<Uri, CallId>) returns (order: seq<Uri>)
    ensures VisitsAll(order, requests)
    decreases |requests|
  {
    if requests == map[] {
      order := [];
    } else {
      var u :| u in requests;
      var rest := map v | v in requests && v != u :: requests[v];
      assert rest.Keys == requests.Keys - {u} && |rest| == |rest.Keys| && |requests| == |requests.Keys|;
      var tail := OrderOf(rest);
      order := [u] + tail;
      assert u !in tail;
    }
  }

  /** Whatever is on a VM, there is a view that meets every contract. */
  lemma ViewExists(cfg: Config, disks: Disks, op: Op) returns (view: View)
    requires Folded(disks) && !op.Update?
    ensures ViewOk(cfg, view, disks, op)
  {
    var order := OrderOf(disks);
    view := seq(|order|, i requires 0 <= i < |order| && order[i] in disks =>
      DataDisk(Some(disks[order[i]]), None, None, Some(order[i]), false));
    forall u | u in disks ensures Shows(view, u, disks[u]) {
      var i :| 0 <= i < |order| && order[i] == u;
      assert IsDiskAt(view[i], u, disks[u]);
    }
  }

  // ---------------------------------------------------------------- deadlock-freedom

  /** Steps that belong to the protocol's own progress: not a new call, not an early refusal, and not
      an error in front of the VM call that cuts the call short. */
  predicate Advances(l: Label) { !l.Spawn? && !l.Refuse? && !l.Abort? }

  /** The VM call returns an error. */
  predicate Fails(l: Label) {
    || ((l.VmAttach? || l.VmDetach?) && !l.outcome.Nil?)
    || ((l.VmRetry? || l.VmForceDetach? || l.VmUpdate?) && !l.ok)
  }

  /** A batch that the VM cannot attach: one of its disks is on already, at another LUN. */
  predicate Blocked(s: State, c: CallId) {
    c in s.calls && (s.calls[c].pc.Attaching? || s.calls[c].pc.Retrying?) &&
    exists u :: u in s.calls[c].pc.luns && u in DisksOn(s, s.calls[c].op.node)
      && DisksOn(s, s.calls[c].op.node)[u] != s.calls[c].pc.luns[u]
  }

  /** The call can take this step forward; the VM call in it succeeds wherever it can. */
  ghost predicate CanAdvance(cfg: Config, s: State, l: Label, c: CallId) {
    Enabled(cfg, s, l) && Advances(l) && l.c == c && (Fails(l) ==> Blocked(s, c))
  }

  /** The states in which progress is claimed. */
  ghost predicate Live(cfg: Config, s: State) {
    Inv(cfg, s) && forall n :: Folded(DisksOn(s, n))
  }

  /** Nested acquisitions take a strictly longer key, so no call waits for a key it holds. */
  lemma NestedKeysAreLonger(call: Call)
    requires CallShape(call) && Wanted(call).Some?
    ensures forall k :: k in Held(call) ==> |k| < |Wanted(call).value|
  {
    if !call.op.Update? { QueueKeyIsLonger(QueueOf(call.op)); }
  }

  /** The steps of a queueing call before it has drained. */
  lemma QueueingCallSteps(cfg: Config, s: State, c: CallId) returns (l: Label)
    requires Inv(cfg, s) && c in s.calls
    requires var pc := s.calls[c].pc;
      pc.QueueLoad? || pc.QueueInsert? || pc.QueueDone? || pc.Draining? || pc.Drained?
    ensures CanAdvance(cfg, s, l, c)
  {
    var call := s.calls[c];
    assert CallShape(call);
    match call.pc {
      case QueueLoad => l := Load(c);
      case QueueInsert(m) =>
        InserterCanInsert(s, c);
        l := Insert(c);
      case QueueDone =>
        QueueHolderCanRelease(s, c);
        l := ReleaseQueue(c);
      case Draining => l := Drain(c);
      case Drained(batch) =>
        QueueHolderCanRelease(s, c);
        l := ReleaseQueue(c);
    }
  }

  lemma InserterCanInsert(s: State, c: CallId)
    requires QueueInv(s) && c in s.calls && s.calls[c].pc.QueueInsert? && !s.calls[c].op.Update?
    ensures CanInsert(s, c)
  {
    var q := QueueOf(s.calls[c].op);
    assert InsertsInto(s.calls[c], q);
    assert s.queues[q] == s.calls[c].pc.m && s.queues[q] < |s.maps|;
  }

  lemma QueueHolderCanRelease(s: State, c: CallId)
    requires LocksInv(s) && c in s.calls && !s.calls[c].op.Update?
    requires s.calls[c].pc.QueueDone? || s.calls[c].pc.Drained?
    ensures CanReleaseQueue(s, c)
  {
    assert QueueKey(QueueOf(s.calls[c].op)) in Held(s.calls[c]);
  }

  /** The disks of a batch that is not blocked can be added at the LUNs asked for. */
  lemma BatchFits(s: State, c: CallId)
    requires c in s.calls && (s.calls[c].pc.Attaching? || s.calls[c].pc.Retrying?) && !Blocked(s, c)
    requires Ready(s, s.calls[c].op.node, s.calls[c].pc.m, s.calls[c].pc.luns)
    ensures var before, luns := DisksOn(s, s.calls[c].op.node), s.calls[c].pc.luns;
      && Asked(s, s.calls[c].pc.m, luns) == luns
      && AttachEffect(before, luns, before + luns) && AllOn(luns, before + luns)
  {
    AskedIsLuns(s, s.calls[c].op.node, s.calls[c].pc.m, s.calls[c].pc.luns);
  }

  /** A nil from the VM's attach is possible exactly when no disk of the batch is on the VM: allocation
      gave each of them a LUN that is free, and a disk at another LUN is an error. One disk that is
      already on drops everybody's request. */
  lemma NilAttachIff(cfg: Config, s: State, c: CallId)
    requires Inv(cfg, s) && c in s.calls && s.calls[c].pc.Attaching?
    ensures (exists disks :: CanVmAttach(s, c, disks, Nil)) <==>
      s.maps[s.calls[c].pc.m].Keys !! DisksOn(s, s.calls[c].op.node).Keys
  {
    var before, luns := DisksOn(s, s.calls[c].op.node), s.calls[c].pc.luns;
    assert CallFacts(cfg, s, s.calls[c]);
    AskedIsLuns(s, s.calls[c].op.node, s.calls[c].pc.m, luns);
    if luns.Keys !! before.Keys {
      BatchFits(s, c);
      assert CanVmAttach(s, c, before + luns, Nil);
    }
  }

  /** A call to the VM may succeed, unless an attach is blocked. */
  lemma VmCallSteps(cfg: Config, s: State, c: CallId) returns (l: Label)
    requires Live(cfg, s) && c in s.calls
    requires s.calls[c].pc.Attaching? || s.calls[c].pc.Retrying? || s.calls[c].pc.Forcing?
    ensures CanAdvance(cfg, s, l, c)
  {
    assert CallShape(s.calls[c]) && CallFacts(cfg, s, s.calls[c]);
    var disks := DisksOn(s, s.calls[c].op.node);
    match s.calls[c].pc {
      case Attaching(m, luns, lun) => l := AttachingSteps(cfg, s, c);
      case Retrying(m, luns, lun) => l := RetryingSteps(cfg, s, c);
      case Forcing(m) =>
        assert CanVmForceDetach(s, c, disks - Requests(s, Some(m)).Keys, true);
        l := VmForceDetach(c, disks - Requests(s, Some(m)).Keys, true);
    }
  }

  lemma AttachingSteps(cfg: Config, s: State, c: CallId) returns (l: Label)
    requires c in s.calls && s.calls[c].op.Attach? && s.calls[c].pc.Attaching?
    requires Ready(s, s.calls[c].op.node, s.calls[c].pc.m, s.calls[c].pc.luns)
    ensures CanAdvance(cfg, s, l, c)
  {
    var disks := DisksOn(s, s.calls[c].op.node);
    if Blocked(s, c) {
      assert CanVmAttach(s, c, disks, Error(false));
      l := VmAttach(c, disks, Error(false));
    } else {
      BatchFits(s, c);
      assert CanVmAttach(s, c, disks + s.calls[c].pc.luns, Nil);
      l := VmAttach(c, disks + s.calls[c].pc.luns, Nil);
    }
  }

  lemma RetryingSteps(cfg: Config, s: State, c: CallId) returns (l: Label)
    requires c in s.calls && s.calls[c].op.Attach? && s.calls[c].pc.Retrying?
    requires Ready(s, s.calls[c].op.node, s.calls[c].pc.m, s.calls[c].pc.luns)
    ensures CanAdvance(cfg, s, l, c)
  {
    var disks := DisksOn(s, s.calls[c].op.node);
    if Blocked(s, c) {
      assert CanVmRetry(cfg, s, c, disks, false);
      l := VmRetry(c, disks, false);
    } else {
      BatchFits(s, c);
      assert CanVmRetry(cfg, s, c, disks + s.calls[c].pc.luns, true);
      l := VmRetry(c, disks + s.calls[c].pc.luns, true);
    }
  }

  lemma ReleasingCallSteps(cfg: Config, s: State, c: CallId) returns (l: Label)
    requires LocksInv(s) && c in s.calls && s.calls[c].pc.Release?
    ensures CanAdvance(cfg, s, l, c)
  {
    assert s.calls[c].op.node in Held(s.calls[c]);
    l := Unlock(c);
  }

  lemma CheckingCallSteps(cfg: Config, s: State, c: CallId) returns (l: Label)
    requires Live(cfg, s) && c in s.calls && s.calls[c].pc.Check?
    ensures CanAdvance(cfg, s, l, c)
  {
    assert CallShape(s.calls[c]);
    var view := ViewExists(cfg, DisksOn(s, s.calls[c].op.node), s.calls[c].op);
    l := CheckLun(c, view);
  }

  /** The first step of a call that has its batch. */
  lemma WorkingCallSteps(cfg: Config, s: State, c: CallId) returns (l: Label)
    requires Live(cfg, s) && c in s.calls && s.calls[c].pc.Work?
    ensures CanAdvance(cfg, s, l, c)
  {
    match s.calls[c].op {
      case Update(_) => l := VmUpdate(c, true);
      case Attach(_, _, _, _) => l := AllocationSteps(cfg, s, c);
      case Detach(_, _, _) => l := DetachmentSteps(cfg, s, c);
    }
  }

  lemma AllocationSteps(cfg: Config, s: State, c: CallId) returns (l: Label)
    requires Live(cfg, s) && c in s.calls && s.calls[c].pc.Work? && s.calls[c].op.Attach?
    ensures CanAdvance(cfg, s, l, c)
  {
    var view := ViewExists(cfg, DisksOn(s, s.calls[c].op.node), s.calls[c].op);
    var order := OrderOf(Requests(s, s.calls[c].pc.batch));
    assert CanAllocate(cfg, s, c, view, order);
    l := AllocateLuns(c, view, order);
  }

  lemma DetachmentSteps(cfg: Config, s: State, c: CallId) returns (l: Label)
    requires c in s.calls && s.calls[c].pc.Work? && s.calls[c].op.Detach?
    ensures CanAdvance(cfg, s, l, c)
  {
    var requests, disks := Requests(s, s.calls[c].pc.batch), DisksOn(s, s.calls[c].op.node);
    if requests == map[] {
      l := SkipDetach(c);
    } else {
      assert CanVmDetach(cfg, s, c, disks - requests.Keys, Nil);
      l := VmDetach(c, disks - requests.Keys, Nil);
    }
  }

  /** A call that is not done and does not wait for a held key can step. */
  lemma UnblockedCallSteps(cfg: Config, s: State, c: CallId) returns (l: Label)
    requires Live(cfg, s) && c in s.calls && !s.calls[c].pc.Done?
    requires Wanted(s.calls[c]).Some? ==> Wanted(s.calls[c]).value !in s.locks
    ensures CanAdvance(cfg, s, l, c)
  {
    var pc := s.calls[c].pc;
    if pc.Start? || pc.WantNode? || pc.WantDrain? {
      assert CallShape(s.calls[c]);
      l := AcquireKey(c);
    } else if pc.Work? {
      l := WorkingCallSteps(cfg, s, c);
    } else if pc.Check? {
      l := CheckingCallSteps(cfg, s, c);
    } else if pc.QueueLoad? || pc.QueueInsert? || pc.QueueDone? || pc.Draining? || pc.Drained? {
      l := QueueingCallSteps(cfg, s, c);
    } else if pc.Release? {
      l := ReleasingCallSteps(cfg, s, c);
    } else {
      l := VmCallSteps(cfg, s, c);
    }
  }

  /** `c` waits for a key that `d` holds. */
  predicate WaitsFor(s: State, c: CallId, d: CallId) {
    c in s.calls && Wanted(s.calls[c]).Some? && Wanted(s.calls[c]).value in s.locks
    && s.locks[Wanted(s.calls[c]).value] == d
  }

  /** A chain of calls, each waiting for the next. */
  ghost predicate WaitChain(s: State, chain: seq<CallId>) {
    chain != [] && forall i :: 0 <= i < |chain| - 1 ==> WaitsFor(s, chain[i], chain[i + 1])
  }

  /** Following the holder of the wanted key leads to ever longer keys, hence to a call that can step. */
  lemma {:induction false} SomeCallSteps(cfg: Config, s: State, c: CallId, bound: nat)
    returns (chain: seq<CallId>, l: Label)
    requires Live(cfg, s) && c in s.calls && !s.calls[c].pc.Done?
    requires forall d :: d in s.calls && Wanted(s.calls[d]).Some? ==> |Wanted(s.calls[d]).value| <= bound
    ensures WaitChain(s, chain) && chain[0] == c && CanAdvance(cfg, s, l, chain[|chain| - 1])
    decreases if Wanted(s.calls[c]).Some? then bound - |Wanted(s.calls[c]).value| + 1 else 0
  {
    var wanted := Wanted(s.calls[c]);
    if wanted.Some? && wanted.value in s.locks {
      var holder := s.locks[wanted.value];
      assert wanted.value in Held(s.calls[holder]);
      if Wanted(s.calls[holder]).Some? { NestedKeysAreLonger(s.calls[holder]); }
      var rest;
      rest, l := SomeCallSteps(cfg, s, holder, bound);
      chain := [c] + rest;
    } else {
      l := UnblockedCallSteps(cfg, s, c);
      chain := [c];
    }
  }

  lemma {:induction false} KeyBound(s: State, calls: set<CallId>) returns (bound: nat)
    requires forall c :: c in calls ==> c in s.calls
    ensures forall c :: c in calls && Wanted(s.calls[c]).Some? ==> |Wanted(s.calls[c]).value| <= bound
    decreases |calls|
  {
    bound := 0;
    if c :| c in calls {
      bound := KeyBound(s, calls - {c});
      if Wanted(s.calls[c]).Some? && |Wanted(s.calls[c]).value| > bound { bound := |Wanted(s.calls[c]).value|; }
    }
  }

  lemma RunLive(cfg: Config, trace: seq<State>, labels: seq<Label>, i: nat)
    requires Run(cfg, trace, labels) && i < |trace|
    ensures Live(cfg, trace[i])
  {
    RunInv(cfg, trace, labels, i);
    forall n ensures Folded(DisksOn(trace[i], n)) { VmsFolded(cfg, trace, labels, i, n); }
  }

  /** In every reachable state, every call in flight either can step itself or waits, through a chain
      of holders, for a call that can: even if node names collide with suffixed queue keys, without
      counting on a new call, an early refusal or an error in front of the VM call, and with a VM call
      that succeeds unless a disk of its batch is on the VM at another LUN. */
  lemma DeadlockFree(cfg: Config, trace: seq<State>, labels: seq<Label>, i: nat, c: CallId)
    returns (chain: seq<CallId>, l: Label)
    requires Run(cfg, trace, labels) && i < |trace| && c in trace[i].calls && !trace[i].calls[c].pc.Done?
    ensures WaitChain(trace[i], chain) && chain[0] == c && CanAdvance(cfg, trace[i], l, chain[|chain| - 1])
  {
    RunLive(cfg, trace, labels, i);
    var bound := KeyBound(trace[i], trace[i].calls.Keys);
    chain, l := SomeCallSteps(cfg, trace[i], c, bound);
  }

  // ---------------------------------------------------------------- termination

  /** Every step but a new call takes its own call forward and no other call anywhere. */
  lemma StepLowersRank(cfg: Config, s: State, l: Label)
    requires ShapeInv(s) && Enabled(cfg, s, l) && !l.Spawn?
    ensures var s' := Apply(cfg, s, l);
      && l.c in s.calls && l.c in s'.calls && s'.calls == s.calls[l.c := s'.calls[l.c]]
      && s'.calls[l.c].op == s.calls[l.c].op && Rank(s'.calls[l.c].pc) < Rank(s.calls[l.c].pc)
  {
    if LeavesQueues(l) { StepMoves(cfg, s, l); } else { StepQueues(cfg, s, l); }
  }

  /** `ids` lists every call once. */
  ghost predicate Lists(ids: seq<CallId>, calls: map<CallId, Call>) {
    Distinct(ids) && (forall i :: 0 <= i < |ids| ==> ids[i] in calls) && forall c :: c in calls ==> c in ids
  }

  /** How many steps the listed calls have left at most, all together. */
  function StepsLeft(ids: seq<CallId>, calls: map<CallId, Call>): nat
    requires forall i :: 0 <= i < |ids| ==> ids[i] in calls
  {
    if ids == [] then 0 else Rank(calls[ids[0]].pc) + StepsLeft(ids[1..], calls)
  }

  lemma {:induction false} ListsOf(calls: map<CallId, Call>, keys: set<CallId>) returns (ids: seq<CallId>)
    requires keys <= calls.Keys
    ensures Distinct(ids) && (forall i :: 0 <= i < |ids| ==> ids[i] in keys) && (forall c :: c in keys ==> c in ids)
    ensures StepsLeft(ids, calls) <= MAX_RANK * |keys|
    decreases |keys|
  {
    ids := [];
    if c :| c in keys {
      var rest := ListsOf(calls, keys - {c});
      ids := [c] + rest;
      assert ids[1..] == rest;
    }
  }

  lemma {:induction false} StepsLeftFrame(ids: seq<CallId>, calls: map<CallId, Call>, c: CallId, call: Call)
    requires forall i :: 0 <= i < |ids| ==> ids[i] in calls && ids[i] != c
    ensures StepsLeft(ids, calls[c := call]) == StepsLeft(ids, calls)
  {
    if ids != [] {
      StepsLeftFrame(ids[1..], calls, c, call);
    }
  }

  lemma {:induction false} StepsLeftShrinks(ids: seq<CallId>, calls: map<CallId, Call>, c: CallId, call: Call)
    requires Distinct(ids) && (forall i :: 0 <= i < |ids| ==> ids[i] in calls)
    requires c in ids && Rank(call.pc) < Rank(calls[c].pc)
    ensures StepsLeft(ids, calls[c := call]) < StepsLeft(ids, calls)
  {
    if ids[0] == c {
      StepsLeftFrame(ids[1..], calls, c, call);
    } else {
      StepsLeftShrinks(ids[1..], calls, c, call);
    }
  }

  lemma StepShrinks(cfg: Config, s: State, l: Label, ids: seq<CallId>)
    requires ShapeInv(s) && Enabled(cfg, s, l) && !l.Spawn? && Lists(ids, s.calls)
    ensures var s' := Apply(cfg, s, l);
      Lists(ids, s'.calls) && StepsLeft(ids, s'.calls) < StepsLeft(ids, s.calls)
  {
    StepLowersRank(cfg, s, l);
    StepsLeftShrinks(ids, s.calls, l.c, Apply(cfg, s, l).calls[l.c]);
  }

  lemma RunShape(cfg: Config, trace: seq<State>, labels: seq<Label>, i: nat)
    requires Run(cfg, trace, labels) && i < |trace|
    ensures ShapeInv(trace[i])
  {
    RunInv(cfg, trace, labels, i);
  }

  lemma {:induction false} StepsSpent(cfg: Config, trace: seq<State>, labels: seq<Label>, h: nat, i: nat,
                                      ids: seq<CallId>)
    requires Run(cfg, trace, labels) && h <= i < |trace| && forall j :: h <= j < i ==> !labels[j].Spawn?
    requires Lists(ids, trace[h].calls)
    ensures Lists(ids, trace[i].calls)
    ensures i - h + StepsLeft(ids, trace[i].calls) <= StepsLeft(ids, trace[h].calls)
    decreases i
  {
    if h < i {
      StepsSpent(cfg, trace, labels, h, i - 1, ids);
      RunShape(cfg, trace, labels, i - 1);
      assert StepAt(cfg, trace, labels, i - 1);
      StepShrinks(cfg, trace[i - 1], labels[i - 1], ids);
    }
  }

  /** Without new calls a run ends: it has at most 14 steps for each call. */
  lemma RunsEnd(cfg: Config, trace: seq<State>, labels: seq<Label>, h: nat, i: nat)
    requires Run(cfg, trace, labels) && h <= i < |trace| && forall j :: h <= j < i ==> !labels[j].Spawn?
    ensures i - h <= MAX_RANK * |trace[h].calls.Keys|
  {
    var ids := ListsOf(trace[h].calls, trace[h].calls.Keys);
    StepsSpent(cfg, trace, labels, h, i, ids);
  }

  /** All calls have returned, nothing is queued and nothing is locked. */
  ghost predicate Quiet(s: State) {
    && (forall c :: c in s.calls ==> s.calls[c].pc.Done?)
    && (forall q :: QueueMap(s, q) == map[])
    && s.locks == map[]
  }

  /** A reachable state in which no call can advance is quiet: so a run that stops without new calls
      has served everybody. */
  lemma StuckMeansQuiet(cfg: Config, trace: seq<State>, labels: seq<Label>, i: nat)
    requires Run(cfg, trace, labels) && i < |trace|
    requires forall l :: Advances(l) ==> !Enabled(cfg, trace[i], l)
    ensures Quiet(trace[i])
  {
    forall c | c in trace[i].calls ensures trace[i].calls[c].pc.Done? {
      if !trace[i].calls[c].pc.Done? {
        var chain, l := DeadlockFree(cfg, trace, labels, i, c);
      }
    }
    AllDoneIsQuiet(cfg, trace, labels, i);
  }

  lemma AllDoneIsQuiet(cfg: Config, trace: seq<State>, labels: seq<Label>, i: nat)
    requires Run(cfg, trace, labels) && i < |trace|
    requires forall c :: c in trace[i].calls ==> trace[i].calls[c].pc.Done?
    ensures Quiet(trace[i])
  {
    forall q ensures QueueMap(trace[i], q) == map[] { QuietMeansEmptyQueues(cfg, trace, labels, i, q); }
    RunInv(cfg, trace, labels, i);
    DoneHoldNothing(trace[i]);
  }

  lemma DoneHoldNothing(s: State)
    requires LocksInv(s) && forall c :: c in s.calls ==> s.calls[c].pc.Done?
    ensures s.locks == map[]
  {
    forall c | c in s.calls ensures Held(s.calls[c]) == {} { assert s.calls[c].pc.Done?; }
    assert forall k :: k !in s.locks;
  }

  /** From step h on, calls only advance, and VM calls succeed unless they are blocked. */
  ghost predicate GoesWell(trace: seq<State>, labels: seq<Label>, h: nat)
    requires |trace| == |labels| + 1
  {
    forall j :: h <= j < |labels| ==> Advances(labels[j]) && (Fails(labels[j]) ==> Blocked(trace[j], labels[j].c))
  }

  lemma {:induction false} BringHome(cfg: Config, trace: seq<State>, labels: seq<Label>, ids: seq<CallId>)
    returns (trace': seq<State>, labels': seq<Label>)
    requires Run(cfg, trace, labels) && Lists(ids, trace[|labels|].calls)
    ensures Run(cfg, trace', labels') && trace <= trace' && labels <= labels'
    ensures GoesWell(trace', labels', |labels|) && Quiet(trace'[|labels'|])
    decreases StepsLeft(ids, trace[|labels|].calls)
  {
    var s := trace[|labels|];
    if c :| c in s.calls && !s.calls[c].pc.Done? {
      var chain, l := DeadlockFree(cfg, trace, labels, |labels|, c);
      RunShape(cfg, trace, labels, |labels|);
      StepShrinks(cfg, s, l, ids);
      RunExtends(cfg, trace, labels, l);
      trace', labels' := BringHome(cfg, trace + [Apply(cfg, s, l)], labels + [l], ids);
      assert labels'[|labels|] == l && trace'[|labels|] == s;
    } else {
      AllDoneIsQuiet(cfg, trace, labels, |labels|);
      trace', labels' := trace, labels;
    }
  }

  /** From every reachable state the calls in flight can all be brought home, without a new call and
      with VM calls that succeed, except for batches with a disk that is on already. */
  lemma CanBecomeQuiet(cfg: Config, trace: seq<State>, labels: seq<Label>)
    returns (trace': seq<State>, labels': seq<Label>)
    requires Run(cfg, trace, labels)
    ensures Run(cfg, trace', labels') && trace <= trace' && labels <= labels'
    ensures GoesWell(trace', labels', |labels|) && Quiet(trace'[|labels'|])
  {
    var ids := ListsOf(trace[|labels|].calls, trace[|labels|].calls.Keys);
    trace', labels' := BringHome(cfg, trace, labels, ids);
  }
}
