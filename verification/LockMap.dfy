/** The lock that lockMap is meant to be: at most one holder for each key, taken and given back in one step. */
module AtomicLock {
  type Key = string
  type Table = map<Key, int>

  predicate CanAcquire(locks: Table, key: Key) { key !in locks }

  function Acquire(locks: Table, key: Key, holder: int): Table
    requires CanAcquire(locks, key)
  {
    locks[key := holder]
  }

  predicate CanRelease(locks: Table, key: Key, holder: int) { key in locks && locks[key] == holder }

  function Release(locks: Table, key: Key, holder: int): Table
    requires CanRelease(locks, key, holder)
  {
    locks - {key}
  }
}

/** lockMap (util.go): LockEntry looks a mutex up, or creates it, under the map's own mutex, and
    locks it after letting the map go; UnlockEntry unlocks while it holds the map. Every step below
    is one atomic action of one goroutine, so a run is any interleaving. */
module LockMap {
  import opened Wrappers
  import opened AtomicLock

  type Tid = int
  type MutexId = nat

  datatype Pc =
    | Idle
    | LockWantMap(key: Key)                  // before lm.Lock() in LockEntry
    | LockLookup(key: Key)                   // holds the map
    | LockLeaveMap(key: Key, mutex: MutexId) // holds the map, has the mutex
    | LockWait(key: Key, mutex: MutexId)     // before mutex.Lock()
    | UnlockWantMap(key: Key)                // before lm.Lock() in UnlockEntry
    | UnlockLookup(key: Key)                 // holds the map
    | UnlockLeaveMap                         // holds the map

  /** `held` are the keys whose LockEntry returned and whose UnlockEntry has not yet unlocked. */
  datatype Thread = Thread(pc: Pc, held: set<Key>)

  datatype State = State(
    mapOwner: Option<Tid>,
    mutexMap: map<Key, MutexId>,
    created: nat,
    owner: map<MutexId, Tid>,
    threads: map<Tid, Thread>)

  datatype Label =
    | CallLock(t: Tid, key: Key)
    | CallUnlock(t: Tid, key: Key)
    | EnterMap(t: Tid)
    | Lookup(t: Tid)
    | LeaveMap(t: Tid)
    | Take(t: Tid)

  predicate InMap(pc: Pc) { pc.LockLookup? || pc.LockLeaveMap? || pc.UnlockLookup? || pc.UnlockLeaveMap? }

  ghost predicate Init(s: State) {
    s.mapOwner == None && s.mutexMap == map[] && s.created == 0 && s.owner == map[]
    && forall t :: t in s.threads ==> s.threads[t] == Thread(Idle, {})
  }

  /** Callers release only what they hold: every UnlockEntry in the driver is paired with a LockEntry. */
  predicate Enabled(s: State, l: Label) {
    l.t in s.threads &&
    var pc := s.threads[l.t].pc;
    match l
    case CallLock(_, _) => pc.Idle?
    case CallUnlock(t, key) => pc.Idle? && key in s.threads[t].held
    case EnterMap(_) => (pc.LockWantMap? || pc.UnlockWantMap?) && s.mapOwner.None?
    case Lookup(_) => pc.LockLookup? || pc.UnlockLookup?
    case LeaveMap(_) => pc.LockLeaveMap? || pc.UnlockLeaveMap?
    case Take(_) => pc.LockWait? && pc.mutex !in s.owner
  }

  function SetPc(s: State, t: Tid, pc: Pc): State
    requires t in s.threads
  {
    s.(threads := s.threads[t := s.threads[t].(pc := pc)])
  }

  function Apply(s: State, l: Label): State
    requires Enabled(s, l)
  {
    var t := l.t;
    var th := s.threads[t];
    match l
    case CallLock(_, key) => SetPc(s, t, LockWantMap(key))
    case CallUnlock(_, key) => SetPc(s, t, UnlockWantMap(key))
    case EnterMap(_) =>
      SetPc(s, t, if th.pc.LockWantMap? then LockLookup(th.pc.key) else UnlockLookup(th.pc.key)).(mapOwner := Some(t))
    case Lookup(_) =>
      var key := th.pc.key;
      if th.pc.LockLookup? then
        if key in s.mutexMap then SetPc(s, t, LockLeaveMap(key, s.mutexMap[key]))
        else SetPc(s, t, LockLeaveMap(key, s.created))
             .(mutexMap := s.mutexMap[key := s.created], created := s.created + 1)
      else
        if key !in s.mutexMap then SetPc(s, t, UnlockLeaveMap)
        else s.(threads := s.threads[t := Thread(UnlockLeaveMap, th.held - {key})],
                owner := s.owner - {s.mutexMap[key]})
    case LeaveMap(_) =>
      SetPc(s, t, if th.pc.LockLeaveMap? then LockWait(th.pc.key, th.pc.mutex) else Idle).(mapOwner := None)
    case Take(_) =>
      s.(threads := s.threads[t := Thread(Idle, th.held + {th.pc.key})], owner := s.owner[th.pc.mutex := t])
  }

  // ---------------------------------------------------------------- invariant

  ghost predicate MapOwnerInv(s: State) {
    && (s.mapOwner.Some? ==> s.mapOwner.value in s.threads && InMap(s.threads[s.mapOwner.value].pc))
    && forall t :: t in s.threads && InMap(s.threads[t].pc) ==> s.mapOwner == Some(t)
  }

  ghost predicate BindingInv(s: State) {
    && (forall k :: k in s.mutexMap ==> s.mutexMap[k] < s.created)
    && (forall k, l :: k in s.mutexMap && l in s.mutexMap && s.mutexMap[k] == s.mutexMap[l] ==> k == l)
    && (forall m :: m in s.owner ==> m < s.created)
    && forall t :: t in s.threads && (s.threads[t].pc.LockLeaveMap? || s.threads[t].pc.LockWait?) ==>
         s.threads[t].pc.key in s.mutexMap && s.mutexMap[s.threads[t].pc.key] == s.threads[t].pc.mutex
  }

  predicate OwnedBy(s: State, key: Key, t: Tid) {
    key in s.mutexMap && s.mutexMap[key] in s.owner && s.owner[s.mutexMap[key]] == t
  }

  ghost predicate HeldInv(s: State) {
    && (forall t, k :: t in s.threads ==> (k in s.threads[t].held <==> OwnedBy(s, k, t)))
    && (forall k :: k in s.mutexMap && s.mutexMap[k] in s.owner ==> s.owner[s.mutexMap[k]] in s.threads)
    && forall t :: t in s.threads && (s.threads[t].pc.UnlockWantMap? || s.threads[t].pc.UnlockLookup?) ==>
         s.threads[t].pc.key in s.threads[t].held
  }

  ghost predicate Inv(s: State) { MapOwnerInv(s) && BindingInv(s) && HeldInv(s) }

  lemma StepKeepsMapOwner(s: State, l: Label)
    requires Inv(s) && Enabled(s, l)
    ensures MapOwnerInv(Apply(s, l))
  {
  }

  lemma LookupKeepsBinding(s: State, l: Label)
    requires Inv(s) && Enabled(s, l) && l.Lookup? && s.threads[l.t].pc.LockLookup?
    ensures BindingInv(Apply(s, l))
  {
    assert Apply(s, l).owner == s.owner;
  }

  lemma StepKeepsBinding(s: State, l: Label)
    requires Inv(s) && Enabled(s, l)
    ensures BindingInv(Apply(s, l))
  {
    if l.Lookup? && s.threads[l.t].pc.LockLookup? {
      LookupKeepsBinding(s, l);
    } else {
      assert Apply(s, l).mutexMap == s.mutexMap && Apply(s, l).created == s.created;
    }
  }

  /** A step that neither takes nor unlocks a mutex leaves ownership as it was. */
  lemma OwnershipFrame(s: State, l: Label, key: Key, t: Tid)
    requires Inv(s) && Enabled(s, l) && !l.Take? && !(l.Lookup? && s.threads[l.t].pc.UnlockLookup?)
    ensures OwnedBy(Apply(s, l), key, t) <==> OwnedBy(s, key, t)
  {
  }

  lemma TakeKeepsHeld(s: State, l: Label)
    requires Inv(s) && Enabled(s, l) && l.Take?
    ensures HeldInv(Apply(s, l))
  {
    var key := s.threads[l.t].pc.key;
    var s' := Apply(s, l);
    forall t, k | t in s.threads ensures OwnedBy(s', k, t) <==> OwnedBy(s, k, t) || (k == key && t == l.t) {
    }
  }

  lemma UnlockKeepsHeld(s: State, l: Label)
    requires Inv(s) && Enabled(s, l) && l.Lookup? && s.threads[l.t].pc.UnlockLookup?
    ensures HeldInv(Apply(s, l))
  {
    var key := s.threads[l.t].pc.key;
    var s' := Apply(s, l);
    assert OwnedBy(s, key, l.t);
    forall t, k | t in s.threads ensures OwnedBy(s', k, t) <==> OwnedBy(s, k, t) && k != key {
    }
  }

  lemma StepKeepsHeld(s: State, l: Label)
    requires Inv(s) && Enabled(s, l)
    ensures HeldInv(Apply(s, l))
  {
    if l.Take? {
      TakeKeepsHeld(s, l);
    } else if l.Lookup? && s.threads[l.t].pc.UnlockLookup? {
      UnlockKeepsHeld(s, l);
    } else {
      var s' := Apply(s, l);
      forall t, k | t in s.threads ensures OwnedBy(s', k, t) <==> OwnedBy(s, k, t) {
        OwnershipFrame(s, l, k, t);
      }
      assert forall t :: t in s.threads ==> s'.threads[t].held == s.threads[t].held;
    }
  }

  lemma StepKeepsInv(s: State, l: Label)
    requires Inv(s) && Enabled(s, l)
    ensures Inv(Apply(s, l))
  {
    StepKeepsMapOwner(s, l);
    StepKeepsBinding(s, l);
    StepKeepsHeld(s, l);
  }

  // ---------------------------------------------------------------- refinement of the atomic lock

  /** The atomic lock table that a state of lockMap stands for. */
  function Abs(s: State): Table {
    map k | k in s.mutexMap && s.mutexMap[k] in s.owner :: s.owner[s.mutexMap[k]]
  }

  /** One step of lockMap is one acquire of a free key, one release by its holder, or invisible. */
  ghost predicate RefinesStep(s: State, l: Label, s': State)
    requires Enabled(s, l)
  {
    var pc := s.threads[l.t].pc;
    if l.Take? then
      CanAcquire(Abs(s), pc.key) && Abs(s') == Acquire(Abs(s), pc.key, l.t)
    else if l.Lookup? && pc.UnlockLookup? then
      CanRelease(Abs(s), pc.key, l.t) && Abs(s') == Release(Abs(s), pc.key, l.t)
    else
      Abs(s') == Abs(s)
  }

  lemma TakeRefines(s: State, l: Label)
    requires Inv(s) && Enabled(s, l) && l.Take?
    ensures RefinesStep(s, l, Apply(s, l))
  {
    var pc := s.threads[l.t].pc;
    assert forall k :: k in s.mutexMap && k != pc.key ==> s.mutexMap[k] != pc.mutex;
  }

  lemma UnlockRefines(s: State, l: Label)
    requires Inv(s) && Enabled(s, l) && l.Lookup? && s.threads[l.t].pc.UnlockLookup?
    ensures RefinesStep(s, l, Apply(s, l))
  {
    assert OwnedBy(s, s.threads[l.t].pc.key, l.t);
  }

  lemma LookupIsInvisible(s: State, l: Label)
    requires Inv(s) && Enabled(s, l) && l.Lookup? && s.threads[l.t].pc.LockLookup?
    ensures Abs(Apply(s, l)) == Abs(s)
  {
    var s' := Apply(s, l);
    assert s'.owner == s.owner;
    assert forall k :: k in s'.mutexMap && k !in s.mutexMap ==> s'.mutexMap[k] !in s.owner;
  }

  lemma StepRefines(s: State, l: Label)
    requires Inv(s) && Enabled(s, l)
    ensures RefinesStep(s, l, Apply(s, l))
  {
    if l.Take? {
      TakeRefines(s, l);
    } else if l.Lookup? && s.threads[l.t].pc.UnlockLookup? {
      UnlockRefines(s, l);
    } else if l.Lookup? {
      LookupIsInvisible(s, l);
    } else {
      assert Apply(s, l).owner == s.owner && Apply(s, l).mutexMap == s.mutexMap;
    }
  }

  // ---------------------------------------------------------------- over whole runs

  /** The i-th label leads from the i-th state to the next. */
  ghost predicate StepAt(trace: seq<State>, labels: seq<Label>, i: int)
    requires |trace| == |labels| + 1 && 0 <= i < |labels|
  {
    Enabled(trace[i], labels[i]) && trace[i + 1] == Apply(trace[i], labels[i])
  }

  ghost predicate Run(trace: seq<State>, labels: seq<Label>) {
    && |trace| == |labels| + 1 && Init(trace[0])
    && forall i :: 0 <= i < |labels| ==> StepAt(trace, labels, i)
  }

  lemma {:induction false} RunInv(trace: seq<State>, labels: seq<Label>, i: nat)
    requires Run(trace, labels) && i < |trace|
    ensures Inv(trace[i])
  {
    if i > 0 {
      RunInv(trace, labels, i - 1);
      assert StepAt(trace, labels, i - 1);
      StepKeepsInv(trace[i - 1], labels[i - 1]);
    }
  }

  /** In every run mutex.Unlock() is only reached on a mutex that this goroutine holds, so UnlockEntry
      neither misses its entry nor unlocks a free mutex. */
  lemma UnlocksOnlyItsOwn(trace: seq<State>, labels: seq<Label>, i: nat, t: Tid)
    requires Run(trace, labels) && i < |trace| && t in trace[i].threads && trace[i].threads[t].pc.UnlockLookup?
    ensures OwnedBy(trace[i], trace[i].threads[t].pc.key, t)
  {
    RunInv(trace, labels, i);
  }

  /** In every run, however many goroutines race to create an entry: the table of an atomic lock is
      refined step by step, and at most one goroutine holds a key. */
  lemma LockMapRefinesAtomicLock(trace: seq<State>, labels: seq<Label>, i: nat)
    requires Run(trace, labels) && i < |trace|
    ensures Abs(trace[0]) == map[]
    ensures i < |labels| ==> StepAt(trace, labels, i) && RefinesStep(trace[i], labels[i], trace[i + 1])
    ensures forall t, u :: t in trace[i].threads && u in trace[i].threads && t != u ==>
              trace[i].threads[t].held !! trace[i].threads[u].held
    ensures forall t, k :: t in trace[i].threads ==>
              (k in trace[i].threads[t].held <==> k in Abs(trace[i]) && Abs(trace[i])[k] == t)
  {
    RunInv(trace, labels, i);
    if i < |labels| {
      assert StepAt(trace, labels, i);
      StepRefines(trace[i], labels[i]);
    }
  }

  /** The key-to-mutex binding is created once and never changes. */
  lemma {:induction false} BindingNeverChanges(trace: seq<State>, labels: seq<Label>, i: nat, j: nat, key: Key)
    requires Run(trace, labels) && i <= j < |trace| && key in trace[i].mutexMap
    ensures key in trace[j].mutexMap && trace[j].mutexMap[key] == trace[i].mutexMap[key]
    decreases j
  {
    if i < j {
      BindingNeverChanges(trace, labels, i, j - 1, key);
      assert StepAt(trace, labels, j - 1);
    }
  }

  /** Nothing blocks while it holds the map: in every reachable state, a goroutine inside LockEntry or
      UnlockEntry that is not waiting for a key that another call holds can step itself, or the
      goroutine that holds the map can. So lockMap adds no waiting to that of the atomic lock but
      for the map's owner, which never waits. */
  lemma OnlyHeldKeysBlock(trace: seq<State>, labels: seq<Label>, i: nat, t: Tid) returns (l: Label)
    requires Run(trace, labels) && i < |trace| && t in trace[i].threads
    requires var pc := trace[i].threads[t].pc; !pc.Idle? && (pc.LockWait? ==> pc.key !in Abs(trace[i]))
    ensures Enabled(trace[i], l) && !l.CallLock? && !l.CallUnlock?
    ensures l.t == t || (trace[i].mapOwner == Some(l.t) && !trace[i].threads[t].pc.LockWait?)
  {
    RunInv(trace, labels, i);
    var s := trace[i];
    var pc := s.threads[t].pc;
    if pc.LockWait? {
      l := Take(t);
    } else if s.mapOwner.Some? {
      var u := s.mapOwner.value;
      l := if Enabled(s, Lookup(u)) then Lookup(u) else LeaveMap(u);
    } else {
      assert !InMap(pc);
      l := EnterMap(t);
    }
  }

  // ---------------------------------------------------------------- what LockEntry and UnlockEntry promise

  /** The goroutine is inside LockEntry(key). */
  predicate Entering(pc: Pc, key: Key) {
    (pc.LockWantMap? || pc.LockLookup? || pc.LockLeaveMap? || pc.LockWait?) && pc.key == key
  }

  /** The goroutine is inside UnlockEntry(key), which has not unlocked yet. */
  predicate Leaving(pc: Pc, key: Key) {
    (pc.UnlockWantMap? || pc.UnlockLookup?) && pc.key == key
  }

  /** The i-th label is a call of LockEntry(key), and up to the j-th state UnlockEntry(key) is not called. */
  ghost predicate LockCalled(labels: seq<Label>, i: nat, j: nat, t: Tid, key: Key) {
    i < j <= |labels| && labels[i] == CallLock(t, key) && forall m :: i < m < j ==> labels[m] != CallUnlock(t, key)
  }

  ghost predicate UnlockCalled(labels: seq<Label>, i: nat, j: nat, t: Tid, key: Key) {
    i < j <= |labels| && labels[i] == CallUnlock(t, key) && forall m :: i < m < j ==> labels[m] != CallLock(t, key)
  }

  lemma StepKeepsEntered(s: State, l: Label, t: Tid, key: Key)
    requires Inv(s) && Enabled(s, l) && t in s.threads && l != CallUnlock(t, key)
    requires Entering(s.threads[t].pc, key) || (key in s.threads[t].held && !Leaving(s.threads[t].pc, key))
    ensures var th := Apply(s, l).threads;
      t in th && (Entering(th[t].pc, key) || (key in th[t].held && !Leaving(th[t].pc, key)))
  {
  }

  lemma StepKeepsLeft(s: State, l: Label, t: Tid, key: Key)
    requires Inv(s) && Enabled(s, l) && t in s.threads && l != CallLock(t, key)
    requires Leaving(s.threads[t].pc, key) || (key !in s.threads[t].held && !Entering(s.threads[t].pc, key))
    ensures var th := Apply(s, l).threads;
      t in th && (Leaving(th[t].pc, key) || (key !in th[t].held && !Entering(th[t].pc, key)))
  {
    if l.t == t && l.Lookup? && Leaving(s.threads[t].pc, key) { assert OwnedBy(s, key, t); }
  }

  /** Once LockEntry(key) has been called, and until UnlockEntry(key) is, the goroutine is still inside
      LockEntry or holds the key. So when LockEntry has returned, the key is held. */
  lemma {:induction false} LockedOnReturn(trace: seq<State>, labels: seq<Label>, i: nat, j: nat, t: Tid, key: Key)
    requires Run(trace, labels) && LockCalled(labels, i, j, t, key)
    ensures t in trace[j].threads
    ensures var th := trace[j].threads[t]; Entering(th.pc, key) || (key in th.held && !Leaving(th.pc, key))
    decreases j
  {
    assert StepAt(trace, labels, j - 1);
    if i + 1 < j {
      LockedOnReturn(trace, labels, i, j - 1, t, key);
      RunInv(trace, labels, j - 1);
      StepKeepsEntered(trace[j - 1], labels[j - 1], t, key);
    }
  }

  /** Once UnlockEntry(key) has been called, and until LockEntry(key) is, the goroutine is still inside
      UnlockEntry or does not hold the key. */
  lemma {:induction false} UnlockedOnReturn(trace: seq<State>, labels: seq<Label>, i: nat, j: nat, t: Tid, key: Key)
    requires Run(trace, labels) && UnlockCalled(labels, i, j, t, key)
    ensures t in trace[j].threads
    ensures var th := trace[j].threads[t]; Leaving(th.pc, key) || (key !in th.held && !Entering(th.pc, key))
    decreases j
  {
    assert StepAt(trace, labels, j - 1);
    if i + 1 < j {
      UnlockedOnReturn(trace, labels, i, j - 1, t, key);
      RunInv(trace, labels, j - 1);
      StepKeepsLeft(trace[j - 1], labels[j - 1], t, key);
    }
  }

  /** Two goroutines are never both between the return of LockEntry(key) and their UnlockEntry(key). */
  lemma MutualExclusion(trace: seq<State>, labels: seq<Label>, i: nat, i': nat, j: nat, t: Tid, t': Tid, key: Key)
    requires Run(trace, labels) && LockCalled(labels, i, j, t, key) && LockCalled(labels, i', j, t', key)
    requires t in trace[j].threads && !Entering(trace[j].threads[t].pc, key)
    requires t' in trace[j].threads && !Entering(trace[j].threads[t'].pc, key)
    ensures t == t'
  {
    LockedOnReturn(trace, labels, i, j, t, key);
    LockedOnReturn(trace, labels, i', j, t', key);
    LockMapRefinesAtomicLock(trace, labels, j);
  }

  lemma StepKeepsStuck(s: State, l: Label, t: Tid, key: Key)
    requires Inv(s) && Enabled(s, l) && t in s.threads
    requires Entering(s.threads[t].pc, key) && key in s.threads[t].held
    ensures var th := Apply(s, l).threads; t in th && Entering(th[t].pc, key) && key in th[t].held
  {
    assert OwnedBy(s, key, t);
  }

  /** LockEntry is not reentrant: a goroutine may call it for a key that it holds, and never returns. */
  lemma {:induction false} NotReentrant(trace: seq<State>, labels: seq<Label>, i: nat, j: nat, t: Tid, key: Key)
    requires Run(trace, labels) && i < j < |trace|
    requires t in trace[i].threads && trace[i].threads[t].pc.Idle? && key in trace[i].threads[t].held
    ensures Enabled(trace[i], CallLock(t, key))
    ensures labels[i] == CallLock(t, key) ==>
      t in trace[j].threads && Entering(trace[j].threads[t].pc, key) && key in trace[j].threads[t].held
    decreases j
  {
    assert StepAt(trace, labels, j - 1);
    if i + 1 < j && labels[i] == CallLock(t, key) {
      NotReentrant(trace, labels, i, j - 1, t, key);
      RunInv(trace, labels, j - 1);
      StepKeepsStuck(trace[j - 1], labels[j - 1], t, key);
    }
  }

  // ---------------------------------------------------------------- the critical sections, as written

  class Mutex {
    var locked: bool
    constructor () ensures !locked { locked := false; }
  }

  /** `made` records the mutexes in the order of their creation and `ids` which of them a key has. */
  class LockTable {
    var mutexMap: map<Key, Mutex>
    ghost var made: seq<Mutex>
    ghost var ids: map<Key, MutexId>

    ghost predicate Valid()
      reads this
    {
      && ids.Keys == mutexMap.Keys
      && (forall k :: k in ids ==> ids[k] < |made| && made[ids[k]] == mutexMap[k])
      && (forall i, j :: 0 <= i < j < |made| ==> made[i] != made[j])
    }

    constructor ()
      ensures Valid() && mutexMap == map[] && made == []
    {
      mutexMap, made, ids := map[], [], map[];
    }

    /** The part of LockEntry that runs under the map's own mutex. */
    method Bind(entry: Key) returns (mutex: Mutex)
      requires Valid()
      modifies this
      ensures Valid() && entry in mutexMap && mutexMap[entry] == mutex
      ensures entry in old(mutexMap) ==> mutexMap == old(mutexMap) && made == old(made) && ids == old(ids)
      ensures entry !in old(mutexMap) ==>
        && fresh(mutex) && !mutex.locked && mutexMap == old(mutexMap)[entry := mutex]
        && made == old(made) + [mutex] && ids == old(ids)[entry := |old(made)|]
    {
      if entry in mutexMap {
        mutex := mutexMap[entry];
      } else {
        mutex := new Mutex();
        mutexMap := mutexMap[entry := mutex];
        ids := ids[entry := |made|];
        made := made + [mutex];
      }
    }

    /** UnlockEntry: a missing entry is ignored, the map is never changed. */
    method UnlockEntry(entry: Key)
      requires entry in mutexMap ==> mutexMap[entry].locked
      modifies if entry in mutexMap then {mutexMap[entry]} else {}
      ensures entry in mutexMap ==> !mutexMap[entry].locked
    {
      if entry in mutexMap {
        mutexMap[entry].locked := false;
      }
    }
  }

  /** The table is the one that a state of the step machine describes. */
  ghost predicate Represents(table: LockTable, s: State)
    reads table, table.made
  {
    && table.Valid() && table.ids == s.mutexMap && |table.made| == s.created
    && forall i :: 0 <= i < |table.made| ==> (table.made[i].locked <==> i in s.owner)
  }

  /** Binding an entry is the Lookup of LockEntry: the mutex found is the one that the step names. */
  method BindAsStep(table: LockTable, ghost s: State, ghost t: Tid, entry: Key) returns (mutex: Mutex)
    requires Inv(s) && t in s.threads && s.threads[t].pc == LockLookup(entry) && Represents(table, s)
    modifies table
    ensures Represents(table, Apply(s, Lookup(t)))
    ensures Apply(s, Lookup(t)).threads[t].pc.mutex < |table.made|
    ensures mutex == table.made[Apply(s, Lookup(t)).threads[t].pc.mutex]
  {
    mutex := table.Bind(entry);
  }

  /** UnlockEntry is the Lookup of an unlocking goroutine; the mutex it unlocks is locked. */
  method UnlockAsStep(table: LockTable, ghost s: State, ghost t: Tid, entry: Key)
    requires Inv(s) && t in s.threads && s.threads[t].pc == UnlockLookup(entry) && Represents(table, s)
    modifies table.mutexMap.Values
    ensures Represents(table, Apply(s, Lookup(t)))
  {
    assert OwnedBy(s, entry, t);
    table.UnlockEntry(entry);
  }
}
