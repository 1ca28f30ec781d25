/** LUN lookup and allocation on one VM (azure_controller_common.go): SetDiskLun, GetDiskLun. */
module LunAllocator {
  import opened Wrappers
  import opened GoStrings

  const MAX_LUN := 64

  /** A data disk as the cloud provider's view of a VM reports it. */
  datatype DataDisk = DataDisk(
    lun: Option<int>,
    name: Option<string>,
    vhdUri: Option<string>,
    managedId: Option<string>,
    toBeDetached: bool)

  type View = seq<DataDisk>

  /** A LUN, an error return, or an out-of-range index or nil dereference. */
  datatype LunOutcome = Lun(lun: int) | NoLun | Panic

  // ---------------------------------------------------------------- what a view says

  predicate InRange(lun: int) { 0 <= lun <= 63 }

  /** Every reported LUN is a legal index of the 64-slot table. */
  predicate ViewInRange(view: View) {
    forall i :: 0 <= i < |view| && view[i].lun.Some? ==> InRange(view[i].lun.value)
  }

  function ViewLuns(view: View): set<int> {
    set i | 0 <= i < |view| && view[i].lun.Some? :: view[i].lun.value
  }

  predicate IsDiskAt(d: DataDisk, uri: string, lun: int) {
    d.lun == Some(lun) && d.managedId.Some? && EqualFold(d.managedId.value, uri)
  }

  /** The view reports `uri` at `lun`. */
  ghost predicate Shows(view: View, uri: string, lun: int) {
    exists i :: 0 <= i < |view| && IsDiskAt(view[i], uri, lun)
  }

  /** The LUN of the last reported disk whose ID is `uri`, or -1. */
  function LunOfUri(view: View, uri: string): int {
    if view == [] then -1
    else
      var d := view[|view| - 1];
      if d.lun.Some? && IsDiskAt(d, uri, d.lun.value) then d.lun.value
      else LunOfUri(view[..|view| - 1], uri)
  }

  lemma {:induction false} LunOfUriShown(view: View, uri: string)
    requires ViewInRange(view)
    ensures LunOfUri(view, uri) >= 0 <==> exists l :: Shows(view, uri, l)
    ensures LunOfUri(view, uri) >= 0 ==> Shows(view, uri, LunOfUri(view, uri))
  {
    if view != [] {
      var k := |view| - 1;
      var d := view[k];
      if d.lun.Some? && IsDiskAt(d, uri, d.lun.value) {
        assert Shows(view, uri, d.lun.value);
      } else {
        LunOfUriShown(view[..k], uri);
        forall l ensures Shows(view, uri, l) <==> Shows(view[..k], uri, l) {
          if Shows(view, uri, l) {
            var i :| 0 <= i < |view| && IsDiskAt(view[i], uri, l);
            assert i != k;
            assert view[..k][i] == view[i];
          }
          if Shows(view[..k], uri, l) {
            var i :| 0 <= i < k && IsDiskAt(view[..k][i], uri, l);
            assert view[i] == view[..k][i];
          }
        }
      }
    }
  }

  // ---------------------------------------------------------------- allocation as a function

  /** The free LUNs from k on, ascending. */
  function FreeFrom(used: set<int>, k: nat): seq<int>
    requires k <= MAX_LUN
    decreases MAX_LUN - k
  {
    if k == MAX_LUN then []
    else if k in used then FreeFrom(used, k + 1)
    else [k] + FreeFrom(used, k + 1)
  }

  function FreeSet(used: set<int>): set<int> {
    set l | 0 <= l < 64 && l !in used
  }

  function OccupiedInRange(occupied: seq<int>): set<int> {
    set x | x in occupied && InRange(x)
  }

  function UsedLuns(view: View, occupied: seq<int>): set<int> {
    ViewLuns(view) + OccupiedInRange(occupied)
  }

  datatype Allocation = Assigned(lun: int, luns: map<string, int>) | Refused | Crashed

  /** The last URI of the batch that folds to `uri` decides the returned LUN. */
  function LunInBatch(batch: seq<string>, free: seq<int>, uri: string, otherwise: int): int
    requires |batch| <= |free|
  {
    if batch == [] then otherwise
    else
      var k := |batch| - 1;
      if EqualFold(batch[k], uri) then free[k] else LunInBatch(batch[..k], free, uri, otherwise)
  }

  ghost predicate Distinct<T>(s: seq<T>) {
    forall i, j :: 0 <= i < j < |s| ==> s[i] != s[j]
  }

  /** What SetDiskLun does to a batch visited in the given order, with every option present. */
  function Allocate(view: View, uri: string, batch: seq<string>, occupied: seq<int>): Allocation {
    if !ViewInRange(view) then Crashed
    else
      var found := if uri in batch then -1 else LunOfUri(view, uri);
      if uri !in batch && found < 0 then Refused
      else if batch == [] then Assigned(found, map[])
      else if MAX_LUN in occupied then Crashed
      else
        var free := FreeFrom(UsedLuns(view, occupied), 0);
        if |free| < |batch| then Refused
        else
          var lun := LunInBatch(batch, free, uri, found);
          if lun < 0 then Refused else Assigned(lun, AssignInOrder(batch, free))
  }

  function AssignInOrder(batch: seq<string>, free: seq<int>): (m: map<string, int>)
    requires |batch| <= |free|
    ensures m.Keys == set u | u in batch
  {
    if batch == [] then map[]
    else
      var k := |batch| - 1;
      assert batch == batch[..k] + [batch[k]];
      AssignInOrder(batch[..k], free)[batch[k] := free[k]]
  }

  // ---------------------------------------------------------------- facts about the free list

  lemma {:induction false} FreeFromSpec(used: set<int>, k: nat)
    requires k <= MAX_LUN
    ensures var f := FreeFrom(used, k);
      && (forall l :: l in f <==> k <= l < MAX_LUN && l !in used)
      && (forall i, j :: 0 <= i < j < |f| ==> f[i] < f[j])
    decreases MAX_LUN - k
  {
    if k < MAX_LUN {
      FreeFromSpec(used, k + 1);
      var g := FreeFrom(used, k + 1);
      assert forall i :: 0 <= i < |g| ==> g[i] in g;
    }
  }

  lemma {:induction false} AscendingSize(f: seq<int>)
    requires forall i, j :: 0 <= i < j < |f| ==> f[i] < f[j]
    ensures |set x | x in f| == |f|
  {
    if f != [] {
      var g := f[..|f| - 1];
      AscendingSize(g);
      var last, sg := f[|f| - 1], set x | x in g;
      assert f == g + [last];
      assert (set x | x in f) == sg + {last};
      forall x | x in g ensures x < last {
        var i :| 0 <= i < |g| && g[i] == x;
        assert f[i] < f[|f| - 1];
      }
      assert last !in sg;
    }
  }

  lemma FreeCount(used: set<int>)
    ensures |FreeFrom(used, 0)| == |FreeSet(used)|
  {
    FreeFromSpec(used, 0);
    var f := FreeFrom(used, 0);
    AscendingSize(f);
    assert (set x | x in f) == FreeSet(used);
  }

  lemma {:induction false} AssignInOrderAt(batch: seq<string>, free: seq<int>, i: nat)
    requires |batch| <= |free| && i < |batch| && Distinct(batch)
    ensures batch[i] in AssignInOrder(batch, free) && AssignInOrder(batch, free)[batch[i]] == free[i]
  {
    var k := |batch| - 1;
    if i < k { AssignInOrderAt(batch[..k], free, i); }
  }

  lemma {:induction false} LunInBatchSpec(batch: seq<string>, free: seq<int>, uri: string, otherwise: int)
    requires |batch| <= |free| && Distinct(batch)
    requires Lower(uri) == uri && forall u :: u in batch ==> Lower(u) == u
    ensures LunInBatch(batch, free, uri, otherwise)
            == if uri in batch then AssignInOrder(batch, free)[uri] else otherwise
  {
    if batch != [] {
      var k := |batch| - 1;
      assert batch == batch[..k] + [batch[k]];
      LunInBatchSpec(batch[..k], free, uri, otherwise);
    }
  }

  // ---------------------------------------------------------------- what an allocation means

  ghost predicate Injective(luns: map<string, int>) {
    forall u, v :: u in luns && v in luns && luns[u] == luns[v] ==> u == v
  }

  /** The values of `luns` are the |luns| smallest members of `free`. */
  ghost predicate TakesSmallest(luns: map<string, int>, free: set<int>) {
    && luns.Values <= free
    && forall l, f :: l in luns.Values && f in free && f < l ==> f in luns.Values
  }

  lemma AssignedSmallest(used: set<int>, batch: seq<string>)
    requires |batch| <= |FreeFrom(used, 0)| && Distinct(batch)
    ensures var luns := AssignInOrder(batch, FreeFrom(used, 0));
      Injective(luns) && TakesSmallest(luns, FreeSet(used))
  {
    var free := FreeFrom(used, 0);
    var luns := AssignInOrder(batch, free);
    FreeFromSpec(used, 0);
    forall u, v | u in luns && v in luns && luns[u] == luns[v] ensures u == v {
      var i := WhereAssigned(batch, free, u);
      var j := WhereAssigned(batch, free, v);
    }
    forall u | u in luns ensures luns[u] in FreeSet(used) { var i := WhereAssigned(batch, free, u); }
    forall l, f | l in luns.Values && f in FreeSet(used) && f < l ensures f in luns.Values {
      var u :| u in luns && luns[u] == l;
      var i := WhereAssigned(batch, free, u);
      SmallerAssigned(batch, free, i, f);
    }
  }

  lemma WhereAssigned(batch: seq<string>, free: seq<int>, u: string) returns (i: nat)
    requires |batch| <= |free| && Distinct(batch) && u in AssignInOrder(batch, free)
    ensures i < |batch| && batch[i] == u && AssignInOrder(batch, free)[u] == free[i] && free[i] in free
  {
    i :| 0 <= i < |batch| && batch[i] == u;
    AssignInOrderAt(batch, free, i);
  }

  lemma SmallerAssigned(batch: seq<string>, free: seq<int>, i: nat, f: int)
    requires |batch| <= |free| && Distinct(batch) && i < |batch|
    requires forall x, y :: 0 <= x < y < |free| ==> free[x] < free[y]
    requires f in free && f < free[i]
    ensures f in AssignInOrder(batch, free).Values
  {
    var j :| 0 <= j < |free| && free[j] == f;
    AssignInOrderAt(batch, free, j);
    assert batch[j] in AssignInOrder(batch, free);
  }

  /** SetDiskLun on lower-cased names, for every visiting order: it succeeds exactly when the disk
      is in the batch or reported by the view and enough LUNs are free; the assignment is then a
      bijection from the batch onto the smallest free LUNs, and the returned LUN is the disk's own. */
  lemma AllocateExact(view: View, uri: string, batch: seq<string>, occupied: seq<int>)
    requires Distinct(batch) && Lower(uri) == uri && forall u :: u in batch ==> Lower(u) == u
    requires ViewInRange(view) && 64 !in occupied
    ensures var r := Allocate(view, uri, batch, occupied);
      var free := set l | 0 <= l < 64 && l !in ViewLuns(view) && l !in occupied;
      && (r.Assigned? <==> (uri in batch || exists l :: Shows(view, uri, l)) && (batch == [] || |batch| <= |free|))
      && (r.Assigned? ==>
            && r.luns.Keys == (set u | u in batch)
            && Injective(r.luns) && TakesSmallest(r.luns, free)
            && (if uri in batch then r.lun == r.luns[uri] else Shows(view, uri, r.lun)))
      && !r.Crashed?
  {
    var used := UsedLuns(view, occupied);
    assert FreeSet(used) == set l | 0 <= l < 64 && l !in ViewLuns(view) && l !in occupied;
    FreeCount(used);
    FreeFromSpec(used, 0);
    LunOfUriShown(view, uri);
    if |batch| <= |FreeFrom(used, 0)| {
      var free := FreeFrom(used, 0);
      AssignedSmallest(used, batch);
      LunInBatchSpec(batch, free, uri, if uri in batch then -1 else LunOfUri(view, uri));
      if uri in batch {
        var i :| 0 <= i < |batch| && batch[i] == uri;
        AssignInOrderAt(batch, free, i);
        assert free[i] in free;
      }
    }
  }

  /** No assigned LUN is among the occupied ones. */
  lemma AssignedAvoidsOccupied(view: View, uri: string, batch: seq<string>, occupied: seq<int>, u: string)
    requires Distinct(batch) && Allocate(view, uri, batch, occupied).Assigned?
    requires u in Allocate(view, uri, batch, occupied).luns
    ensures Allocate(view, uri, batch, occupied).luns[u] !in occupied
  {
    AssignedSmallest(UsedLuns(view, occupied), batch);
    assert Allocate(view, uri, batch, occupied).luns[u] in FreeSet(UsedLuns(view, occupied));
  }

  /** SetDiskLun panics exactly when the view reports a LUN outside the 64-slot table, or when there is
      something to allocate, the disk is known, and 64 is among the occupied LUNs: their guard lets 64
      through to the table. */
  lemma CrashesIff(view: View, uri: string, batch: seq<string>, occupied: seq<int>)
    ensures Allocate(view, uri, batch, occupied).Crashed? <==>
      || (exists i :: 0 <= i < |view| && view[i].lun.Some? && !(0 <= view[i].lun.value <= 63))
      || (batch != [] && 64 in occupied && (uri in batch || exists l :: Shows(view, uri, l)))
  {
    if ViewInRange(view) { LunOfUriShown(view, uri); }
  }

  /** So a batch that would fit crashes because of a LUN that no disk can have. */
  lemma OccupiedSixtyFourCrashes(view: View, uri: string, batch: seq<string>)
    requires Allocate(view, uri, batch, []).Assigned? && batch != []
    ensures Allocate(view, uri, batch, [64]).Crashed?
  {
    LunOfUriShown(view, uri);
    CrashesIff(view, uri, batch, [64]);
  }

  // ---------------------------------------------------------------- the code, as written

  /** provider.AttachDiskOptions: the field that SetDiskLun writes through the pointer. */
  class AttachDiskOptions {
    const diskName: string
    var lun: int

    constructor (diskName: string)
      ensures this.diskName == diskName && lun == -1
    {
      this.diskName := diskName;
      lun := -1;
    }
  }

  /** Marks the LUNs of the view in `used`; also looks for `uri` when it is not in the batch. */
  method MarkView(view: View, uri: string, isDiskInMap: bool, used: array<bool>) returns (crashed: bool, lun: int)
    requires used.Length == MAX_LUN && forall k :: 0 <= k < MAX_LUN ==> !used[k]
    modifies used
    ensures crashed == !ViewInRange(view)
    ensures !crashed ==> forall k :: 0 <= k < MAX_LUN ==> (used[k] <==> k in ViewLuns(view))
    ensures !crashed ==> lun == if isDiskInMap then -1 else LunOfUri(view, uri)
  {
    lun := -1;
    crashed := false;
    for i := 0 to |view|
      invariant ViewInRange(view[..i])
      invariant forall k :: 0 <= k < MAX_LUN ==> (used[k] <==> k in ViewLuns(view[..i]))
      invariant lun == if isDiskInMap then -1 else LunOfUri(view[..i], uri)
    {
      var d := view[i];
      assert view[..i + 1] == view[..i] + [d];
      assert view[..i + 1][..i] == view[..i];
      ghost var before := ViewLuns(view[..i]);
      assert ViewLuns(view[..i + 1]) == if d.lun.Some? then before + {d.lun.value} else before by {
        assert forall j :: 0 <= j < i ==> view[..i + 1][j] == view[..i][j];
        assert view[..i + 1][i] == d;
      }
      if d.lun.Some? {
        if !(0 <= d.lun.value < used.Length) {
          crashed := true;
          return;
        }
        used[d.lun.value] := true;
        if !isDiskInMap && d.managedId.Some? && EqualFold(d.managedId.value, uri) {
          lun := d.lun.value;
        }
      }
    }
    assert view[..|view|] == view;
  }

  /** Collects at most `count` free LUNs in ascending order. */
  method CollectFree(used: array<bool>, count: nat, ghost usedSet: set<int>) returns (luns: seq<int>)
    requires used.Length == MAX_LUN && count > 0
    requires forall k :: 0 <= k < MAX_LUN ==> (used[k] <==> k in usedSet)
    ensures var free := FreeFrom(usedSet, 0);
      luns == if |free| < count then free else free[..count]
  {
    luns := [];
    var k := 0;
    while k < MAX_LUN && |luns| < count
      invariant 0 <= k <= MAX_LUN && |luns| <= count
      invariant FreeFrom(usedSet, 0) == luns + FreeFrom(usedSet, k)
    {
      FreeStep(usedSet, luns, k);
      if !used[k] { luns := luns + [k]; }
      k := k + 1;
    }
  }

  lemma FreeStep(used: set<int>, luns: seq<int>, k: nat)
    requires k < MAX_LUN
    ensures luns + FreeFrom(used, k) == (if k in used then luns else luns + [k]) + FreeFrom(used, k + 1)
  {
  }

  function OptionsOf(diskMap: map<string, AttachDiskOptions?>): set<AttachDiskOptions> {
    set u | u in diskMap && diskMap[u] != null :: diskMap[u] as AttachDiskOptions
  }

  /** SetDiskLun. `order` is the order in which the runtime happens to visit the map. */
  method SetDiskLun(view: View, uri: string, diskMap: map<string, AttachDiskOptions?>, order: seq<string>,
                    occupied: seq<int>)
    returns (r: LunOutcome)
    requires Distinct(order) && forall u :: u in order <==> u in diskMap
    modifies OptionsOf(diskMap)
    ensures null !in diskMap.Values ==>
      match Allocate(view, uri, order, occupied)
      case Assigned(lun, _) => r == Lun(lun)
      case Refused => r == NoLun
      case Crashed => r == Panic
    // every option of the batch receives its LUN, when no two requests share an option
    ensures null !in diskMap.Values && Allocate(view, uri, order, occupied).Assigned? && NoSharing(diskMap) ==>
      forall u :: u in diskMap ==> diskMap[u].lun == Allocate(view, uri, order, occupied).luns[u]
    // a nil option never yields a LUN
    ensures null in diskMap.Values ==> !r.Lun?
  {
    var isDiskInMap := uri in diskMap;
    var used := new bool[MAX_LUN](_ => false);
    var crashed, lun := MarkView(view, uri, isDiskInMap, used);
    if crashed { return Panic; }
    if !isDiskInMap && lun < 0 { return NoLun; }
    if |order| == 0 {
      return Lun(lun);
    }
    ghost var viewLuns := ViewLuns(view);
    for i := 0 to |occupied|
      invariant MAX_LUN !in occupied[..i]
      invariant forall k :: 0 <= k < MAX_LUN ==> (used[k] <==> k in viewLuns + OccupiedInRange(occupied[..i]))
    {
      assert occupied[..i + 1] == occupied[..i] + [occupied[i]];
      if 0 <= occupied[i] <= MAX_LUN {
        if occupied[i] == MAX_LUN {
          return Panic;
        }
        used[occupied[i]] := true;
      }
    }
    assert occupied[..|occupied|] == occupied;
    ghost var free := FreeFrom(UsedLuns(view, occupied), 0);
    var diskLuns := CollectFree(used, |order|, UsedLuns(view, occupied));
    if |diskLuns| != |order| { return NoLun; }
    lun, crashed := WriteLuns(diskMap, order, diskLuns, uri, lun);
    LunInBatchPrefix(order, diskLuns, free, uri, if isDiskInMap then -1 else LunOfUri(view, uri));
    AssignPrefix(order, diskLuns, free);
    if crashed || lun < 0 { return NoLun; }
    return Lun(lun);
  }

  ghost predicate NoSharing(diskMap: map<string, AttachDiskOptions?>) {
    forall u, v :: u in diskMap && v in diskMap && u != v ==> diskMap[u] != diskMap[v]
  }

  /** The last loop of SetDiskLun: writes the chosen LUNs through the option pointers. */
  method WriteLuns(diskMap: map<string, AttachDiskOptions?>, order: seq<string>, diskLuns: seq<int>, uri: string,
                   found: int)
    returns (lun: int, sawNil: bool)
    requires |diskLuns| == |order| && Distinct(order) && forall u :: u in order <==> u in diskMap
    modifies OptionsOf(diskMap)
    ensures sawNil <==> null in diskMap.Values
    ensures !sawNil ==> lun == LunInBatch(order, diskLuns, uri, found)
    ensures !sawNil && NoSharing(diskMap) ==>
      forall u :: u in diskMap ==> diskMap[u].lun == AssignInOrder(order, diskLuns)[u]
  {
    lun := found;
    sawNil := false;
    for i := 0 to |order|
      invariant forall j :: 0 <= j < i ==> diskMap[order[j]] != null
      invariant lun == LunInBatch(order[..i], diskLuns, uri, found)
      invariant NoSharing(diskMap) ==> forall j :: 0 <= j < i ==> diskMap[order[j]].lun == diskLuns[j]
    {
      var opt := diskMap[order[i]];
      if opt == null {
        sawNil := true;
        return;
      }
      assert order[..i + 1][..i] == order[..i];
      if EqualFold(order[i], uri) { lun := diskLuns[i]; }
      assert opt in OptionsOf(diskMap);
      opt.lun := diskLuns[i];
    }
    assert order[..|order|] == order;
    forall u | u in diskMap ensures diskMap[u] != null
      && (NoSharing(diskMap) ==> diskMap[u].lun == AssignInOrder(order, diskLuns)[u]) {
      var i :| 0 <= i < |order| && order[i] == u;
      AssignInOrderAt(order, diskLuns, i);
    }
  }

  lemma {:induction false} LunInBatchPrefix(batch: seq<string>, luns: seq<int>, free: seq<int>, uri: string,
                                            otherwise: int)
    requires |batch| <= |luns| <= |free| && luns == free[..|luns|]
    ensures LunInBatch(batch, luns, uri, otherwise) == LunInBatch(batch, free, uri, otherwise)
  {
    if batch != [] { LunInBatchPrefix(batch[..|batch| - 1], luns, free, uri, otherwise); }
  }

  lemma {:induction false} AssignPrefix(batch: seq<string>, luns: seq<int>, free: seq<int>)
    requires |batch| <= |luns| <= |free| && luns == free[..|luns|]
    ensures AssignInOrder(batch, luns) == AssignInOrder(batch, free)
  {
    if batch != [] { AssignPrefix(batch[..|batch| - 1], luns, free); }
  }

  // ---------------------------------------------------------------- GetDiskLun

  /** The test of GetDiskLun, with its precedence: only the name clause checks that the LUN is set. */
  predicate Matches(d: DataDisk, diskName: string, diskUri: string) {
    || (d.lun.Some? && d.name.Some? && diskName != "" && EqualFold(d.name.value, diskName))
    || (d.vhdUri.Some? && diskUri != "" && EqualFold(d.vhdUri.value, diskUri))
    || (d.managedId.Some? && EqualFold(d.managedId.value, diskUri))
  }

  /** A disk is found by its name, if it has a LUN, by its VHD address or by its ID, each without regard
      to case; empty names and addresses find nothing. */
  lemma MatchedBy(lun: Option<int>, flag: bool, mine: string, diskName: string, diskUri: string)
    ensures Matches(DataDisk(lun, Some(mine), None, None, flag), diskName, diskUri) <==>
      lun.Some? && diskName != "" && EqualFold(mine, diskName)
    ensures Matches(DataDisk(lun, None, Some(mine), None, flag), diskName, diskUri) <==>
      diskUri != "" && EqualFold(mine, diskUri)
    ensures Matches(DataDisk(lun, None, None, Some(mine), flag), diskName, diskUri) <==> EqualFold(mine, diskUri)
    ensures !Matches(DataDisk(lun, None, None, None, flag), diskName, diskUri)
  {
  }

  function FindLun(view: View, diskName: string, diskUri: string): LunOutcome {
    if view == [] then NoLun
    else if !Matches(view[0], diskName, diskUri) then FindLun(view[1..], diskName, diskUri)
    else if view[0].lun.None? then Panic
    else if view[0].toBeDetached then FindLun(view[1..], diskName, diskUri)
    else Lun(view[0].lun.value)
  }

  /** GetDiskLun on a view that has been fetched. */
  method GetDiskLun(view: View, diskName: string, diskUri: string) returns (r: LunOutcome)
    ensures r == FindLun(view, diskName, diskUri)
  {
    for i := 0 to |view|
      invariant FindLun(view, diskName, diskUri) == FindLun(view[i..], diskName, diskUri)
    {
      var d := view[i];
      assert view[i..][1..] == view[i + 1..];
      if Matches(d, diskName, diskUri) {
        if d.lun.None? { return Panic; }
        if !d.toBeDetached { return Lun(d.lun.value); }
      }
    }
    return NoLun;
  }

  /** The i-th disk decides the lookup: it matches and is not passed over as flagged for detach, and
      every match before it is. */
  ghost predicate Decides(view: View, diskName: string, diskUri: string, i: int) {
    && 0 <= i < |view| && Matches(view[i], diskName, diskUri) && !PassedOver(view[i])
    && forall j :: 0 <= j < i && Matches(view[j], diskName, diskUri) ==> PassedOver(view[j])
  }

  predicate PassedOver(d: DataDisk) { d.toBeDetached && d.lun.Some? }

  /** The answer is the LUN of the first match that is not flagged, or a panic if it has none; "not
      found" means exactly that every match is flagged. */
  lemma {:induction false} FindLunMeaning(view: View, diskName: string, diskUri: string)
    ensures var r := FindLun(view, diskName, diskUri);
      && (r.NoLun? <==>
            forall i :: 0 <= i < |view| && Matches(view[i], diskName, diskUri) ==> PassedOver(view[i]))
      && (!r.NoLun? ==>
            exists i ::
              && Decides(view, diskName, diskUri, i)
              && r == if view[i].lun.Some? then Lun(view[i].lun.value) else Panic)
  {
    if view != [] {
      var tail := view[1..];
      FindLunMeaning(tail, diskName, diskUri);
      assert forall i :: 0 < i < |view| ==> view[i] == tail[i - 1];
      if Matches(view[0], diskName, diskUri) && !PassedOver(view[0]) {
        assert Decides(view, diskName, diskUri, 0);
      } else if !FindLun(view, diskName, diskUri).NoLun? {
        var i :| Decides(tail, diskName, diskUri, i)
          && FindLun(tail, diskName, diskUri) == if tail[i].lun.Some? then Lun(tail[i].lun.value) else Panic;
        assert view[i + 1] == tail[i];
        assert Decides(view, diskName, diskUri, i + 1);
      }
    }
  }
}
