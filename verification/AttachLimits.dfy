/** How far the return values of AttachDisk and DetachDisk can be trusted, exactly: each condition
    that the theorems ask for is needed, and runs that break the promise without it are given. */
module AttachLimits {
  import opened Wrappers
  import opened GoStrings
  import opened LunAllocator
  import opened AttachProtocol
  import opened AttachInvariants
  import opened AttachSafety

  ghost predicate Reachable(cfg: Config, s: State) {
    exists trace, labels :: Run(cfg, trace, labels) && trace[|labels|] == s
  }

  /** Whoever is about to return a LUN, still holding the node lock, has its disk on the VM there. */
  ghost predicate AttachReturnsTrue(s: State) {
    forall c :: c in s.calls && s.calls[c].op.Attach? && s.calls[c].pc.Release? && s.calls[c].pc.result.Success? ==>
      IsOn(DisksOn(s, s.calls[c].op.node), s.calls[c].op.uri, s.calls[c].pc.result.lun)
  }

  /** The same for the calls whose own batch held their disk. */
  ghost predicate OwnReturnsTrue(s: State) {
    forall c :: OwnBatch(s, c) && s.calls[c].op.Attach? && s.calls[c].pc.Release? && s.calls[c].pc.result.Success? ==>
      IsOn(DisksOn(s, s.calls[c].op.node), s.calls[c].op.uri, s.calls[c].pc.result.lun)
  }

  /** DetachDisk is about to return nil: still holding the node lock, because the disk was detached or
      the VM was not found, or at the early return. A caller cannot tell these apart. */
  predicate ReturnsNil(cfg: Config, s: State, c: CallId) {
    c in s.calls && s.calls[c].op.Detach?
    && (s.calls[c].pc == Release(Detached) || s.calls[c].pc == Release(Gone) || CanRefuse(cfg, s, c, true))
  }

  /** Whoever is about to return nil from DetachDisk has its disk off the VM. */
  ghost predicate DetachReturnsTrue(cfg: Config, s: State) {
    forall c :: ReturnsNil(cfg, s, c) ==> s.calls[c].op.uri !in DisksOn(s, s.calls[c].op.node)
  }

  lemma ReachInit(cfg: Config, s: State)
    requires Init(s)
    ensures Reachable(cfg, s)
  {
    var trace, labels: seq<Label> := [s], [];
    assert Run(cfg, trace, labels) && trace[|labels|] == s;
  }

  lemma ReachStep(cfg: Config, s: State, l: Label)
    requires Reachable(cfg, s) && Enabled(cfg, s, l)
    ensures Reachable(cfg, Apply(cfg, s, l))
  {
    var trace, labels :| Run(cfg, trace, labels) && trace[|labels|] == s;
    RunExtends(cfg, trace, labels, l);
    var trace', labels' := trace + [Apply(cfg, s, l)], labels + [l];
    assert Run(cfg, trace', labels') && trace'[|labels'|] == Apply(cfg, s, l);
  }

  lemma ReachVmAttach(cfg: Config, s: State, c: CallId, disks: Disks, outcome: VmOutcome)
    requires Reachable(cfg, s) && CanVmAttach(s, c, disks, outcome)
    ensures Reachable(cfg, DoVmAttach(cfg, s, c, disks, outcome))
  {
    ReachStep(cfg, s, VmAttach(c, disks, outcome));
  }

  lemma ReachVmRetry(cfg: Config, s: State, c: CallId, disks: Disks, ok: bool)
    requires Reachable(cfg, s) && CanVmRetry(cfg, s, c, disks, ok)
    ensures Reachable(cfg, DoVmRetry(cfg, s, c, disks, ok))
  {
    ReachStep(cfg, s, VmRetry(c, disks, ok));
  }

  lemma ReachCheckLun(cfg: Config, s: State, c: CallId, view: View)
    requires Reachable(cfg, s) && CanCheckLun(cfg, s, c, view)
    ensures Reachable(cfg, DoCheckLun(cfg, s, c, view))
  {
    ReachStep(cfg, s, CheckLun(c, view));
  }

  // ---------------------------------------------------------------- building blocks of runs

  ghost function Start0(vms: map<Node, Disks>): State {
    State(map[], map[], map[], [], vms, [], {}, map[], map[])
  }

  ghost predicate QueueWellFormed(s: State) {
    forall q :: q in s.queues ==> s.queues[q] < |s.maps|
  }

  /** A call enters the critical section of its queue while nobody holds a lock. */
  lemma EnterQueue(cfg: Config, s: State, c: CallId, op: Op) returns (s': State)
    requires Reachable(cfg, s) && s.locks == map[] && CanSpawn(s, c, op) && !op.Update?
    ensures Reachable(cfg, s')
    ensures s' == s.(calls := s.calls[c := Call(op, QueueLoad)], locks := map[QueueKey(QueueOf(op)) := c])
  {
    ReachStep(cfg, s, Spawn(c, op));
    ReachStep(cfg, DoSpawn(s, c, op), AcquireKey(c));
    s' := DoAcquireKey(DoSpawn(s, c, op), c);
  }

  /** ... and finds, or creates, the map of its node. */
  lemma LoadQueue(cfg: Config, s: State, c: CallId, op: Op) returns (s': State)
    requires Reachable(cfg, s) && QueueWellFormed(s) && c in s.calls && s.calls[c] == Call(op, QueueLoad) && !op.Update?
    ensures Reachable(cfg, s') && QueueWellFormed(s') && s'.vms == s.vms && s'.locks == s.locks
    ensures var q := QueueOf(op);
      && q in s'.queues && s'.maps[s'.queues[q]] == QueueMap(s, q)
      && s'.calls == s.calls[c := Call(op, QueueInsert(s'.queues[q]))]
  {
    ReachStep(cfg, s, Load(c));
    LoadAdds(s, c);
    s' := DoLoad(s, c);
  }

  /** A call queues its request while nobody holds a lock. */
  lemma QueueUp(cfg: Config, s: State, c: CallId, op: Op) returns (s': State)
    requires Reachable(cfg, s) && QueueWellFormed(s) && s.locks == map[] && CanSpawn(s, c, op) && !op.Update?
    ensures Reachable(cfg, s') && QueueWellFormed(s') && s'.locks == map[] && s'.vms == s.vms
    ensures s'.calls == s.calls[c := Call(op, WantNode)]
    ensures var q := QueueOf(op);
      q in s'.queues && s'.maps[s'.queues[q]] ==
        (if op.uri in QueueMap(s, q) then QueueMap(s, q) else QueueMap(s, q)[op.uri := c])
  {
    var s1 := EnterQueue(cfg, s, c, op);
    var s2 := LoadQueue(cfg, s1, c, op);
    assert QueueMap(s1, QueueOf(op)) == QueueMap(s, QueueOf(op));
    s' := WriteQueue(cfg, s2, c, op);
  }

  lemma WriteQueue(cfg: Config, s: State, c: CallId, op: Op) returns (s': State)
    requires Reachable(cfg, s) && QueueWellFormed(s) && c in s.calls && !op.Update? && QueueOf(op) in s.queues
    requires s.calls[c] == Call(op, QueueInsert(s.queues[QueueOf(op)])) && s.locks == map[QueueKey(QueueOf(op)) := c]
    ensures Reachable(cfg, s') && QueueWellFormed(s') && s'.locks == map[] && s'.vms == s.vms
    ensures s'.calls == s.calls[c := Call(op, WantNode)] && s'.queues == s.queues
    ensures var m := s.maps[s.queues[QueueOf(op)]];
      s'.maps[s'.queues[QueueOf(op)]] == if op.uri in m then m else m[op.uri := c]
  {
    ReachStep(cfg, s, Insert(c));
    var s1 := DoInsert(s, c);
    ReachStep(cfg, s1, ReleaseQueue(c));
    s' := DoReleaseQueue(s1, c);
  }

  /** A call takes the node lock and then the queue lock while nobody holds a lock. */
  lemma LockBoth(cfg: Config, s: State, c: CallId) returns (s': State)
    requires Reachable(cfg, s) && s.locks == map[] && c in s.calls && s.calls[c].pc.WantNode? && !s.calls[c].op.Update?
    ensures Reachable(cfg, s')
    ensures s' == Move(s, c, Draining, map[s.calls[c].op.node := c, QueueKey(QueueOf(s.calls[c].op)) := c], s.vms)
  {
    var op := s.calls[c].op;
    QueueKeyIsLonger(QueueOf(op));
    ReachStep(cfg, s, AcquireKey(c));
    var s1 := DoAcquireKey(s, c);
    assert s1 == Move(s, c, WantDrain, map[op.node := c], s.vms);
    assert QueueKey(QueueOf(op)) != op.node;
    ReachStep(cfg, s1, AcquireKey(c));
    s' := DoAcquireKey(s1, c);
  }

  /** ... and drains the queue. */
  lemma DrainQueue(cfg: Config, s: State, c: CallId) returns (s': State, m: MapId)
    requires Reachable(cfg, s) && QueueWellFormed(s) && s.locks == map[]
    requires c in s.calls && s.calls[c].pc.WantNode? && !s.calls[c].op.Update? && QueueOf(s.calls[c].op) in s.queues
    ensures Reachable(cfg, s') && QueueWellFormed(s') && s'.vms == s.vms
    ensures s'.locks == map[s.calls[c].op.node := c]
    ensures m < |s'.maps| && s'.calls == s.calls[c := Call(s.calls[c].op, Work(Some(m)))]
    ensures var q := QueueOf(s.calls[c].op);
      && s'.maps[m] == s.maps[s.queues[q]] && q in s'.queues && s'.maps[s'.queues[q]] == map[]
      && s'.history == s.history + [Batch(c, q, m, s'.maps[m])]
  {
    var s1 := LockBoth(cfg, s, c);
    s', m := TakeBatch(cfg, s1, c, s.calls[c].op);
  }

  lemma TakeBatch(cfg: Config, s: State, c: CallId, op: Op) returns (s': State, m: MapId)
    requires Reachable(cfg, s) && QueueWellFormed(s) && c in s.calls && s.calls[c] == Call(op, Draining)
    requires !op.Update? && QueueOf(op) in s.queues
    requires s.locks == map[op.node := c, QueueKey(QueueOf(op)) := c]
    ensures Reachable(cfg, s') && QueueWellFormed(s') && s'.vms == s.vms && s'.locks == map[op.node := c]
    ensures m < |s'.maps| && s'.calls == s.calls[c := Call(op, Work(Some(m)))]
    ensures s'.maps[m] == s.maps[s.queues[QueueOf(op)]]
    ensures QueueOf(op) in s'.queues && s'.maps[s'.queues[QueueOf(op)]] == map[]
    ensures s'.history == s.history + [Batch(c, QueueOf(op), m, s'.maps[m])]
  {
    QueueKeyIsLonger(QueueOf(op));
    m := s.queues[QueueOf(op)];
    ReachStep(cfg, s, Drain(c));
    var s1 := DoDrain(s, c);
    assert s1.locks == s.locks && s1.calls[c] == Call(op, Drained(Some(m)));
    ReachStep(cfg, s1, ReleaseQueue(c));
    s' := DoReleaseQueue(s1, c);
    assert s'.locks == map[op.node := c];
  }

  /** The holder of the node lock gives up, leaving no lock behind. */
  lemma GiveUp(cfg: Config, s: State, c: CallId) returns (s': State)
    requires Reachable(cfg, s) && QueueWellFormed(s) && c in s.calls && s.calls[c].pc == Release(Failed)
    requires s.locks == map[s.calls[c].op.node := c]
    ensures Reachable(cfg, s') && QueueWellFormed(s') && s'.locks == map[]
    ensures s' == Move(s, c, Done(Failed), map[], s.vms)
  {
    ReachStep(cfg, s, Unlock(c));
    s' := DoUnlock(s, c);
  }

  const ATTACH_D: Op := Attach("n", "d", "d", [])
  const DETACH_D: Op := Detach("n", "d", "d")

  lemma LowerD()
    ensures Lower("d") == "d" && Lower("x") == "x"
  {
  }

  lemma FreshStart(cfg: Config, vms: map<Node, Disks>)
    requires forall n :: n in vms ==> DistinctLuns(vms[n]) && Folded(vms[n])
    ensures Reachable(cfg, Start0(vms))
  {
    ReachInit(cfg, Start0(vms));
  }

  /** One attach call alone, up to the point where it calls the VM. */
  lemma SingleAttach(cfg: Config, vms: map<Node, Disks>, view: View) returns (s: State, m: MapId)
    requires forall n :: n in vms ==> DistinctLuns(vms[n]) && Folded(vms[n])
    requires ViewOk(cfg, view, DisksOn(Start0(vms), "n"), ATTACH_D)
    requires ViewInRange(view) && 0 !in ViewLuns(view)
    ensures Reachable(cfg, s) && s.vms == vms && m < |s.maps| && s.maps[m].Keys == {"d"} && OwnBatch(s, 0)
    ensures s.calls == map[0 := Call(ATTACH_D, Attaching(m, map["d" := 0], 0))]
  {
    LowerD();
    FreshStart(cfg, vms);
    s := QueueUp(cfg, Start0(vms), 0, ATTACH_D);
    s, m := DrainQueue(cfg, s, 0);
    s := SingleAllocate(cfg, s, m, view);
    assert s.history[|s.history| - 1].drainer == 0 && "d" in s.history[|s.history| - 1].requests;
  }

  lemma SingleAllocate(cfg: Config, s: State, m: MapId, view: View) returns (s': State)
    requires Reachable(cfg, s) && m < |s.maps| && s.maps[m].Keys == {"d"}
    requires s.calls == map[0 := Call(ATTACH_D, Work(Some(m)))]
    requires ViewOk(cfg, view, DisksOn(s, "n"), ATTACH_D)
    requires ViewInRange(view) && 0 !in ViewLuns(view)
    ensures Reachable(cfg, s') && s'.vms == s.vms && s'.maps == s.maps && s'.history == s.history
    ensures s'.calls == map[0 := Call(ATTACH_D, Attaching(m, map["d" := 0], 0))]
  {
    LowerD();
    FirstFree(view);
    assert VisitsAll(["d"], Requests(s, Some(m)));
    ReachStep(cfg, s, AllocateLuns(0, view, ["d"]));
    s' := DoAllocate(cfg, s, 0, view, ["d"]);
  }

  lemma FirstFree(view: View)
    requires ViewInRange(view) && 0 !in ViewLuns(view)
    ensures Allocate(view, "d", ["d"], []) == Assigned(0, map["d" := 0])
  {
    var used := UsedLuns(view, []);
    assert FreeFrom(used, 0) == [0] + FreeFrom(used, 1);
    var free := FreeFrom(used, 0);
    assert ["d"][..0] == [];
    assert AssignInOrder(["d"], free) == AssignInOrder([], free)["d" := 0];
    assert LunInBatch(["d"], free, "d", -1) == 0;
  }

  /** The first of two calls for one disk drains both requests and fails. */
  lemma FirstFails(cfg: Config, s0: State, op: Op, disks: Disks) returns (s: State)
    requires op == ATTACH_D || (op == DETACH_D && disks.Keys == {"d"})
    requires Reachable(cfg, s0) && QueueWellFormed(s0) && s0.locks == map[] && DisksOn(s0, "n") == disks
    requires s0.calls == map[0 := Call(op, WantNode), 1 := Call(op, WantNode)]
    requires QueueOf(op) in s0.queues && s0.maps[s0.queues[QueueOf(op)]] == map["d" := 0]
    ensures Reachable(cfg, s) && QueueWellFormed(s) && s.locks == map[] && DisksOn(s, "n") == disks
    ensures 1 in s.calls && s.calls[1] == Call(op, WantNode)
    ensures QueueOf(op) in s.queues && s.maps[s.queues[QueueOf(op)]] == map[]
  {
    var s1, m := DrainQueue(cfg, s0, 0);
    if op == ATTACH_D {
      ReachStep(cfg, s1, Abort(0));
      s := GiveUp(cfg, DoAbort(s1, 0), 0);
    } else {
      assert "d" in Requests(s1, Some(m));
      assert DisksOn(s1, "n") == disks;
      ReachStep(cfg, s1, VmDetach(0, disks, Error(true)));
      s := GiveUp(cfg, DoVmDetach(cfg, s1, 0, disks, Error(true)), 0);
    }
  }

  lemma TwoQueued(cfg: Config, op: Op, disks: Disks) returns (s: State)
    requires (op == ATTACH_D || op == DETACH_D) && DistinctLuns(disks) && Folded(disks)
    ensures Reachable(cfg, s) && QueueWellFormed(s) && s.locks == map[] && DisksOn(s, "n") == disks
    ensures s.calls == map[0 := Call(op, WantNode), 1 := Call(op, WantNode)]
    ensures QueueOf(op) in s.queues && s.maps[s.queues[QueueOf(op)]] == map["d" := 0]
  {
    LowerD();
    FreshStart(cfg, map["n" := disks]);
    var s0 := Start0(map["n" := disks]);
    var s1 := QueueUp(cfg, s0, 0, op);
    assert QueueMap(s0, QueueOf(op)) == map[];
    assert QueueMap(s1, QueueOf(op)) == map["d" := 0];
    s := QueueUp(cfg, s1, 1, op);
  }

  /** ... and the second then finds nothing queued. */
  lemma DroppedByAnother(cfg: Config, op: Op, disks: Disks) returns (s: State, m: MapId)
    requires op == ATTACH_D || (op == DETACH_D && disks.Keys == {"d"})
    requires DistinctLuns(disks) && Folded(disks)
    ensures Reachable(cfg, s) && DisksOn(s, "n") == disks
    ensures 1 in s.calls && s.calls[1] == Call(op, Work(Some(m))) && m < |s.maps| && s.maps[m] == map[]
  {
    var s0 := TwoQueued(cfg, op, disks);
    var s1 := FirstFails(cfg, s0, op, disks);
    s, m := DrainQueue(cfg, s1, 1);
  }

  // ---------------------------------------------------------------- what goes wrong

  /** A view that reports only disk d, at LUN 0. */
  function OnlyD(flagged: bool): View { [DataDisk(Some(0), None, None, Some("d"), flagged)] }

  lemma OnlyDFacts(cfg: Config, flagged: bool, op: Op, disks: Disks)
    requires (op == ATTACH_D || op == DETACH_D) && (cfg.noDetachFlags ==> !flagged)
    requires disks == map["d" := 0] || (disks == map[] && !cfg.exactViews)
    ensures ViewOk(cfg, OnlyD(flagged), disks, op)
    ensures Allocate(OnlyD(flagged), "d", [], []) == Assigned(0, map[])
    ensures FindLun(OnlyD(flagged), "d", "d") == if flagged then NoLun else Lun(0)
  {
    var view := OnlyD(flagged);
    LowerD();
    assert IsDiskAt(view[0], "d", 0);
    assert view[..0] == [] && view[1..] == [];
    assert LunOfUri(view, "d") == 0;
    assert FindLun(view[1..], "d", "d") == NoLun;
  }

  /** A view that still reports a disk that is gone turns a dropped request into a success. */
  lemma StaleViewMisleads(cfg: Config) returns (s: State)
    requires !cfg.exactViews
    ensures Reachable(cfg, s) && !AttachReturnsTrue(s)
  {
    var s0, m := DroppedByAnother(cfg, ATTACH_D, map[]);
    OnlyDFacts(cfg, false, ATTACH_D, map[]);
    ReachStep(cfg, s0, AllocateLuns(1, OnlyD(false), []));
    s := DoAllocate(cfg, s0, 1, OnlyD(false), []);
    if cfg.lunCheck {
      ReachCheckLun(cfg, s, 1, OnlyD(false));
      s := DoCheckLun(cfg, s, 1, OnlyD(false));
    }
    assert s.calls[1] == Call(ATTACH_D, Release(Success(0))) && "d" !in DisksOn(s, "n");
  }

  const NAMESAKE := DataDisk(Some(5), Some("d"), None, Some("x"), false)
  const DISK_D := DataDisk(Some(0), Some("d"), None, Some("d"), false)

  lemma NamesakeFacts(cfg: Config)
    requires !cfg.namesFaithful
    ensures ViewOk(cfg, [NAMESAKE], map["x" := 5], ATTACH_D)
    ensures ViewInRange([NAMESAKE]) && 0 !in ViewLuns([NAMESAKE])
    ensures ViewOk(cfg, [NAMESAKE, DISK_D], map["x" := 5, "d" := 0], ATTACH_D)
    ensures FindLun([NAMESAKE, DISK_D], "d", "d") == Lun(5)
  {
    LowerD();
    assert IsDiskAt([NAMESAKE][0], "x", 5);
    assert ViewLuns([NAMESAKE]) == {5};
    var view := [NAMESAKE, DISK_D];
    assert IsDiskAt(view[0], "x", 5) && IsDiskAt(view[1], "d", 0);
    assert Shows(view, "x", 5) && Shows(view, "d", 0);
  }

  /** A call attaches its disk at LUN 0 and then reads another LUN from the view of the check. */
  lemma CheckReadsWrongLun(cfg: Config, vms: map<Node, Disks>, first: View, after: Disks, second: View)
    returns (s: State)
    requires cfg.lunCheck && forall n :: n in vms ==> DistinctLuns(vms[n]) && Folded(vms[n])
    requires ViewOk(cfg, first, DisksOn(Start0(vms), "n"), ATTACH_D) && ViewInRange(first) && 0 !in ViewLuns(first)
    requires AttachEffect(DisksOn(Start0(vms), "n"), map["d" := 0], after) && "d" in after && after["d"] == 0
    requires ViewOk(cfg, second, after, ATTACH_D) && FindLun(second, "d", "d") == Lun(5)
    ensures Reachable(cfg, s) && !OwnReturnsTrue(s)
  {
    var s0, m := SingleAttach(cfg, vms, first);
    assert Asked(s0, m, map["d" := 0]) == map["d" := 0];
    ReachVmAttach(cfg, s0, 0, after, Nil);
    s := CheckWrongly(cfg, DoVmAttach(cfg, s0, 0, after, Nil), second);
  }

  lemma CheckWrongly(cfg: Config, s: State, view: View) returns (s': State)
    requires Reachable(cfg, s) && 0 in s.calls && s.calls[0] == Call(ATTACH_D, Check) && OwnBatch(s, 0)
    requires ViewOk(cfg, view, DisksOn(s, "n"), ATTACH_D) && FindLun(view, "d", "d") == Lun(5)
    requires "d" in DisksOn(s, "n") && DisksOn(s, "n")["d"] == 0
    ensures Reachable(cfg, s') && !OwnReturnsTrue(s')
  {
    ReachCheckLun(cfg, s, 0, view);
    s' := DoCheckLun(cfg, s, 0, view);
    assert s'.calls[0] == Call(ATTACH_D, Release(Success(5)));
    assert OwnBatch(s', 0);
  }

  /** The LUN check matches disks by name, so a namesake's LUN can be returned instead. */
  lemma NamesakeMisleads(cfg: Config) returns (s: State)
    requires cfg.lunCheck && !cfg.namesFaithful
    ensures Reachable(cfg, s) && !OwnReturnsTrue(s)
  {
    LowerD();
    NamesakeFacts(cfg);
    s := CheckReadsWrongLun(cfg, map["n" := map["x" := 5]], [NAMESAKE], map["x" := 5, "d" := 0], [NAMESAKE, DISK_D]);
  }

  /** Without the check, a preempted attach whose retry does nothing is reported as a success. */
  lemma RetryMisleads(cfg: Config) returns (s: State)
    requires !cfg.lunCheck && !cfg.retryCompletes
    ensures Reachable(cfg, s) && !OwnReturnsTrue(s)
  {
    var m;
    s, m := SingleAttach(cfg, map[], []);
    assert Asked(s, m, map["d" := 0]) == map["d" := 0];
    ReachVmAttach(cfg, s, 0, map[], Preempted);
    s := DoVmAttach(cfg, s, 0, map[], Preempted);
    ReachVmRetry(cfg, s, 0, map[], true);
    s := DoVmRetry(cfg, s, 0, map[], true);
    assert s.calls[0] == Call(ATTACH_D, Release(Success(0))) && "d" !in DisksOn(s, "n");
    assert OwnBatch(s, 0);
  }

  /** With the check, a stale entry in front of the true one misleads a call that attached its disk
      itself. */
  lemma StaleEntryMisleads(cfg: Config) returns (s: State)
    requires cfg.lunCheck && !cfg.exactViews
    ensures Reachable(cfg, s) && !OwnReturnsTrue(s)
  {
    LowerD();
    StaleFacts(cfg);
    s := CheckReadsWrongLun(cfg, map[], [], map["d" := 0], [STALE_D, DISK_D]);
  }

  const STALE_D := DataDisk(Some(5), Some("d"), None, Some("d"), false)

  lemma StaleFacts(cfg: Config)
    requires !cfg.exactViews
    ensures ViewOk(cfg, [STALE_D, DISK_D], map["d" := 0], ATTACH_D)
    ensures FindLun([STALE_D, DISK_D], "d", "d") == Lun(5)
  {
    LowerD();
    var view := [STALE_D, DISK_D];
    assert IsDiskAt(view[1], "d", 0);
    assert Shows(view, "d", 0);
  }

  /** DetachDisk with an empty batch never asks the VM: without the check it reports success for a
      request that another call dropped; with it, a flagged disk counts as gone. */
  lemma DroppedDetachMisleads(cfg: Config) returns (s: State)
    requires !cfg.lunCheck || !cfg.noDetachFlags
    ensures Reachable(cfg, s) && !DetachReturnsTrue(cfg, s)
  {
    LowerD();
    var disks: Disks := map["d" := 0];
    var s0, m := DroppedByAnother(cfg, DETACH_D, disks);
    ReachStep(cfg, s0, SkipDetach(1));
    s := DoSkipDetach(cfg, s0, 1);
    if cfg.lunCheck {
      OnlyDFacts(cfg, true, DETACH_D, disks);
      ReachCheckLun(cfg, s, 1, OnlyD(true));
      s := DoCheckLun(cfg, s, 1, OnlyD(true));
    }
    assert s.calls[1] == Call(DETACH_D, Release(Detached)) && "d" in DisksOn(s, "n");
    assert ReturnsNil(cfg, s, 1);
  }

  /** A VM that is reported as not found is taken to carry no disk; if it does, DetachDisk still
      returns nil. */
  lemma NotFoundMisleads(cfg: Config) returns (s: State)
    requires !cfg.goneIsEmpty
    ensures Reachable(cfg, s) && !DetachReturnsTrue(cfg, s)
  {
    LowerD();
    var disks: Disks := map["d" := 0];
    var s0 := TwoQueued(cfg, DETACH_D, disks);
    var s1, m := DrainQueue(cfg, s0, 0);
    assert "d" in Requests(s1, Some(m));
    ReachStep(cfg, s1, VmDetach(0, disks, NotFound));
    s := DoVmDetach(cfg, s1, 0, disks, NotFound);
    assert s.calls[0] == Call(DETACH_D, Release(Gone)) && "d" in DisksOn(s, "n");
    assert ReturnsNil(cfg, s, 0);
  }

  // ---------------------------------------------------------------- the exact conditions

  lemma ReachableGood(cfg: Config, s: State)
    requires Reachable(cfg, s)
    ensures Inv(cfg, s)
  {
    var trace, labels :| Run(cfg, trace, labels) && trace[|labels|] == s;
    RunInv(cfg, trace, labels, |labels|);
  }

  /** AttachDisk's returned LUN is always true exactly when views are exact and, with the check on,
      names are faithful, or with the check off, a successful retry completes the attach. */
  lemma AttachReturnsTrueIff(cfg: Config)
    ensures (forall s :: Reachable(cfg, s) ==> AttachReturnsTrue(s)) <==> SoundAttach(cfg)
  {
    if SoundAttach(cfg) {
      forall s | Reachable(cfg, s) ensures AttachReturnsTrue(s) {
        ReachableGood(cfg, s);
        forall c | c in s.calls && s.calls[c].pc.Release? ensures CallFacts(cfg, s, s.calls[c]) {
        }
      }
    } else if !cfg.exactViews {
      var s := StaleViewMisleads(cfg);
    } else if cfg.lunCheck {
      var s := NamesakeMisleads(cfg);
    } else {
      var s := RetryMisleads(cfg);
    }
  }

  /** A nil from DetachDisk always means that the disk is off exactly when the check is on, views never
      flag disks, and a VM that is not found carries none. */
  lemma DetachReturnsTrueIff(cfg: Config)
    ensures (forall s :: Reachable(cfg, s) ==> DetachReturnsTrue(cfg, s)) <==> SoundDetach(cfg)
  {
    if SoundDetach(cfg) {
      forall s | Reachable(cfg, s) ensures DetachReturnsTrue(cfg, s) {
        ReachableGood(cfg, s);
        forall c | c in s.calls && s.calls[c].pc.Release? ensures CallFacts(cfg, s, s.calls[c]) {
        }
      }
    } else if !cfg.goneIsEmpty {
      var s := NotFoundMisleads(cfg);
    } else {
      var s := DroppedDetachMisleads(cfg);
    }
  }
}
