/** Paging of ListVolumes (controllerserver.go): listVolumesByResourceGroup, listVolumesInCluster and
    listVolumesInNodeResourceGroup. */
module ListVolumes {
  import opened Wrappers
  import opened GoStrings

  /** `isOsDisk`: HyperVGeneration is set, which only OS disks have. */
  datatype Disk = Disk(id: string, isOsDisk: bool, managedBy: Option<string>)

  datatype Entry = Entry(volumeId: string, publishedNodes: seq<string>)

  datatype Error = ListFailed | FailedPrecondition | UnknownNode

  /** What the listing needs to know: the volumes of the cluster (None when no set was given) and the
      node behind a provider ID (missing when the lookup fails). */
  datatype Context = Context(volumes: Option<set<string>>, nodeOf: map<string, string>)

  datatype Status = Status(numVisited: nat, isCompleteRun: bool, entries: seq<Entry>, err: Option<Error>)

  predicate Visible(ctx: Context, d: Disk) {
    (ctx.volumes.Some? ==> Lower(d.id) in ctx.volumes.value) && !d.isOsDisk
  }

  predicate Renders(ctx: Context, d: Disk) {
    d.managedBy.Some? ==> d.managedBy.value in ctx.nodeOf
  }

  function EntryOf(ctx: Context, d: Disk): Entry
    requires Renders(ctx, d)
  {
    Entry(d.id, if d.managedBy.Some? then [ctx.nodeOf[d.managedBy.value]] else [])
  }

  /** Every visible disk can be rendered. */
  predicate Listable(ctx: Context, disks: seq<Disk>) {
    forall i :: 0 <= i < |disks| && Visible(ctx, disks[i]) ==> Renders(ctx, disks[i])
  }

  /** The entries for the visible disks, in order. */
  function Filtered(ctx: Context, disks: seq<Disk>): seq<Entry>
    requires Listable(ctx, disks)
  {
    if disks == [] then []
    else
      var d := disks[|disks| - 1];
      Filtered(ctx, disks[..|disks| - 1]) + if Visible(ctx, d) then [EntryOf(ctx, d)] else []
  }

  lemma {:induction false} FilteredConcat(ctx: Context, a: seq<Disk>, b: seq<Disk>)
    requires Listable(ctx, a) && Listable(ctx, b)
    ensures Listable(ctx, a + b) && Filtered(ctx, a + b) == Filtered(ctx, a) + Filtered(ctx, b)
  {
    if b == [] {
      assert a + b == a;
    } else {
      var b' := b[..|b| - 1];
      assert (a + b)[..|a + b| - 1] == a + b';
      FilteredConcat(ctx, a, b');
    }
  }

  lemma SliceListable(ctx: Context, disks: seq<Disk>, i: nat, j: nat)
    requires Listable(ctx, disks) && i <= j <= |disks|
    ensures Listable(ctx, disks[i..j])
  {
    assert forall k :: 0 <= k < j - i ==> disks[i..j][k] == disks[i + k];
  }

  /** What one more disk adds. */
  lemma SliceSnoc(ctx: Context, disks: seq<Disk>, from: nat, i: nat)
    requires from <= i < |disks| && Listable(ctx, disks[from..i])
    requires Visible(ctx, disks[i]) ==> Renders(ctx, disks[i])
    ensures Listable(ctx, disks[from..i + 1])
    ensures Filtered(ctx, disks[from..i + 1])
         == Filtered(ctx, disks[from..i]) + if Visible(ctx, disks[i]) then [EntryOf(ctx, disks[i])] else []
  {
    assert disks[from..i + 1] == disks[from..i] + [disks[i]];
    assert disks[from..i + 1][..i - from] == disks[from..i];
  }

  // ---------------------------------------------------------------- which groups, which volumes

  /** The first part of listVolumesInCluster: a handle is the group and URI of a persistent volume, None
      for one that is skipped. Groups and volumes come from the same handles, so there is a group to
      list exactly when there is a volume to list. */
  method CollectGroups(handles: seq<Option<(string, string)>>) returns (groups: set<string>, volumes: set<string>)
    ensures groups == set i | 0 <= i < |handles| && handles[i].Some? :: Lower(handles[i].value.0)
    ensures volumes == set i | 0 <= i < |handles| && handles[i].Some? :: Lower(handles[i].value.1)
    ensures groups == {} <==> volumes == {}
  {
    groups, volumes := {}, {};
    for i := 0 to |handles|
      invariant groups == set j | 0 <= j < i && handles[j].Some? :: Lower(handles[j].value.0)
      invariant volumes == set j | 0 <= j < i && handles[j].Some? :: Lower(handles[j].value.1)
      invariant groups == {} <==> volumes == {}
    {
      if handles[i].Some? {
        volumes := volumes + {Lower(handles[i].value.1)};
        groups := groups + {Lower(handles[i].value.0)};
      }
    }
  }

  /** Listed are the disks that are no OS disks and, when there is a set of volumes, whose ID is one of
      its handles without regard to case. */
  lemma VisibleIff(ctx: Context, handles: set<string>, d: Disk)
    requires ctx.volumes.Some? ==> ctx.volumes.value == set h | h in handles :: Lower(h)
    ensures Visible(ctx, d) <==> !d.isOsDisk && (ctx.volumes.None? || exists h :: h in handles && EqualFold(h, d.id))
  {
    if ctx.volumes.Some? && Lower(d.id) in ctx.volumes.value {
      var h :| h in handles && Lower(h) == Lower(d.id);
      assert EqualFold(h, d.id);
    }
  }

  /** An entry names the disk, and the node it is attached to if there is one. */
  lemma EntryNames(ctx: Context, d: Disk, node: string)
    requires Renders(ctx, d)
    ensures EntryOf(ctx, d).volumeId == d.id && |EntryOf(ctx, d).publishedNodes| <= 1
    ensures node in EntryOf(ctx, d).publishedNodes <==>
      d.managedBy.Some? && d.managedBy.value in ctx.nodeOf && ctx.nodeOf[d.managedBy.value] == node
  {
  }

  // ---------------------------------------------------------------- one resource group

  /** Where the scan of a group stops that starts at i with `have` entries and the given limit. */
  function ScanEnd(ctx: Context, disks: seq<Disk>, i: nat, have: nat, limit: int): (end: nat)
    requires i <= |disks|
    ensures i <= end <= |disks|
    decreases |disks| - i
  {
    if i == |disks| || (limit > 0 && have >= limit) then i
    else ScanEnd(ctx, disks, i + 1, if Visible(ctx, disks[i]) then have + 1 else have, limit)
  }

  /** What listVolumesByResourceGroup answers; `listed` is None when the list call fails. A disk that
      cannot be rendered matters only if the scan gets to it. */
  function GroupStatus(ctx: Context, listed: Option<seq<Disk>>, entries: seq<Entry>, start: int, limit: int): Status {
    if listed.None? then Status(0, false, [], Some(ListFailed))
    else
      var disks := listed.value;
      if ctx.volumes == Some({}) then Status(|disks|, true, entries, None)
      else if start > 0 && start >= |disks| then Status(|disks|, false, [], Some(FailedPrecondition))
      else
        var from := if start < 0 then 0 else start;
        var end := ScanEnd(ctx, disks, from, |entries|, limit);
        if !Listable(ctx, disks[from..end]) then Status(0, false, [], Some(UnknownNode))
        else Status(end - from, end == |disks|, entries + Filtered(ctx, disks[from..end]), None)
  }

  /** listVolumesByResourceGroup. */
  method ListVolumesByResourceGroup(ctx: Context, listed: Option<seq<Disk>>, entries: seq<Entry>, start: int,
                                    limit: int)
    returns (status: Status)
    ensures status == GroupStatus(ctx, listed, entries, start, limit)
  {
    if listed.None? { return Status(0, false, [], Some(ListFailed)); }
    var disks := listed.value;
    if ctx.volumes.Some? && |ctx.volumes.value| == 0 { return Status(|disks|, true, entries, None); }
    if start > 0 && start >= |disks| { return Status(|disks|, false, [], Some(FailedPrecondition)); }
    var from := if start < 0 then 0 else start;
    status := ScanGroup(ctx, disks, entries, from, limit);
  }

  /** The scanning loop of listVolumesByResourceGroup: the entries of one stretch, or an error exactly
      when a visible disk of that stretch cannot be rendered. */
  method ScanGroup(ctx: Context, disks: seq<Disk>, before: seq<Entry>, from: nat, limit: int) returns (status: Status)
    requires from <= |disks|
    ensures var end := ScanEnd(ctx, disks, from, |before|, limit);
      if Listable(ctx, disks[from..end])
      then status == Status(end - from, end == |disks|, before + Filtered(ctx, disks[from..end]), None)
      else status == Status(0, false, [], Some(UnknownNode))
  {
    var i, entries, isCompleteRun := from, before, true;
    while i < |disks|
      invariant from <= i <= |disks| && Listable(ctx, disks[from..i])
      invariant entries == before + Filtered(ctx, disks[from..i])
      invariant isCompleteRun
      invariant ScanEnd(ctx, disks, from, |before|, limit) == ScanEnd(ctx, disks, i, |entries|, limit)
    {
      if limit > 0 && |entries| >= limit {
        isCompleteRun := false;
        break;
      }
      var d := disks[i];
      if Visible(ctx, d) {
        if !Renders(ctx, d) {
          StretchFails(ctx, disks, from, i, ScanEnd(ctx, disks, from, |before|, limit));
          return Status(0, false, [], Some(UnknownNode));
        }
        entries := entries + [EntryOf(ctx, d)];
      }
      SliceSnoc(ctx, disks, from, i);
      i := i + 1;
    }
    status := Status(i - from, isCompleteRun, entries, None);
  }

  lemma StretchFails(ctx: Context, disks: seq<Disk>, from: nat, i: nat, end: nat)
    requires from <= i < end <= |disks| && Visible(ctx, disks[i]) && !Renders(ctx, disks[i])
    ensures !Listable(ctx, disks[from..end])
  {
    assert disks[from..end][i - from] == disks[i];
  }

  /** What a scan collects never exceeds a positive limit beyond what it started with; a scan that
      could take something moves; an unlimited scan reaches the end. */
  lemma {:induction false} ScanFacts(ctx: Context, disks: seq<Disk>, i: nat, have: nat, limit: int)
    requires Listable(ctx, disks) && i <= |disks|
    ensures var end := ScanEnd(ctx, disks, i, have, limit);
      && Listable(ctx, disks[i..end])
      && (limit > 0 && have <= limit ==> have + |Filtered(ctx, disks[i..end])| <= limit)
      && (limit > 0 && have > limit ==> end == i)
      && (limit <= 0 ==> end == |disks|)
      && (i < |disks| && (limit <= 0 || have < limit) ==> i < end)
      && (end < |disks| ==> have + |Filtered(ctx, disks[i..end])| >= limit)
    decreases |disks| - i
  {
    var end := ScanEnd(ctx, disks, i, have, limit);
    SliceListable(ctx, disks, i, end);
    if i == |disks| || (limit > 0 && have >= limit) {
      assert disks[i..end] == [];
    } else {
      var have' := if Visible(ctx, disks[i]) then have + 1 else have;
      ScanFacts(ctx, disks, i + 1, have', limit);
      assert disks[i..end] == disks[i..i + 1] + disks[i + 1..end];
      SliceListable(ctx, disks, i, i + 1);
      FilteredConcat(ctx, disks[i..i + 1], disks[i + 1..end]);
      assert disks[i..i + 1][..0] == [];
    }
  }

  // ---------------------------------------------------------------- all groups of the cluster

  type Groups = seq<Option<seq<Disk>>>

  datatype Progress = Progress(entries: seq<Entry>, numVisited: nat, isCompleteRun: bool, startFound: bool)

  datatype Response = Response(entries: seq<Entry>, nextToken: Option<int>)

  /** One turn of the loop over the sorted resource groups: a start beyond the group is carried on,
      any other error ends the listing. */
  function Turn(ctx: Context, group: Option<seq<Disk>>, start: nat, maxEntries: int,
                p: Progress): Result<Progress, Error> {
    var localStart := if p.startFound then 0 else start - p.numVisited;
    var status := GroupStatus(ctx, group, p.entries, localStart, maxEntries - |p.entries|);
    match status.err
    case None =>
      Ok(Progress(status.entries, p.numVisited + status.numVisited, p.isCompleteRun && status.isCompleteRun, true))
    case Some(e) => if e == FailedPrecondition then Ok(p.(numVisited := p.numVisited + status.numVisited)) else Err(e)
  }

  predicate Stops(maxEntries: int, p: Progress) {
    !p.isCompleteRun || (maxEntries > 0 && |p.entries| >= maxEntries)
  }

  function Loop(ctx: Context, groups: Groups, start: nat, maxEntries: int, p: Progress): Result<Progress, Error> {
    if groups == [] then Ok(p)
    else if Stops(maxEntries, p) then Ok(p.(isCompleteRun := false))
    else
      match Turn(ctx, groups[0], start, maxEntries, p)
      case Ok(q) => Loop(ctx, groups[1..], start, maxEntries, q)
      case Err(e) => Err(e)
  }

  const BEGIN := Progress([], 0, true, false)

  /** listVolumesInCluster after the groups have been collected and sorted. */
  function Cluster(ctx: Context, groups: Groups, start: nat, maxEntries: int): Result<Response, Error> {
    match Loop(ctx, groups, start, maxEntries, BEGIN)
    case Ok(p) =>
      if start > 0 && !p.startFound then Err(FailedPrecondition)
      else Ok(Response(p.entries, if p.isCompleteRun then None else Some(start + p.numVisited)))
    case Err(e) => Err(e)
  }

  /** The body of the loop of listVolumesInCluster. */
  method VisitGroup(ctx: Context, group: Option<seq<Disk>>, start: nat, maxEntries: int, p: Progress)
    returns (r: Result<Progress, Error>)
    ensures r == Turn(ctx, group, start, maxEntries, p)
  {
    var localStart := if p.startFound then 0 else start - p.numVisited;
    var status := ListVolumesByResourceGroup(ctx, group, p.entries, localStart, maxEntries - |p.entries|);
    if status.err.Some? {
      if status.err.value != FailedPrecondition { return Err(status.err.value); }
      r := Ok(p.(numVisited := p.numVisited + status.numVisited));
    } else {
      var isCompleteRun := p.isCompleteRun && status.isCompleteRun;
      r := Ok(Progress(status.entries, p.numVisited + status.numVisited, isCompleteRun, true));
    }
  }

  /** listVolumesInCluster, for any groups, listed or not. */
  method ListVolumesInCluster(ctx: Context, groups: Groups, start: nat, maxEntries: int)
    returns (r: Result<Response, Error>)
    ensures r == Cluster(ctx, groups, start, maxEntries)
  {
    var p := BEGIN;
    var g := 0;
    while g < |groups|
      invariant 0 <= g <= |groups|
      invariant Loop(ctx, groups, start, maxEntries, BEGIN) == Loop(ctx, groups[g..], start, maxEntries, p)
    {
      if Stops(maxEntries, p) {
        p := p.(isCompleteRun := false);
        break;
      }
      assert groups[g..][1..] == groups[g + 1..];
      var visited := VisitGroup(ctx, groups[g], start, maxEntries, p);
      if visited.Err? { return Err(visited.error); }
      p := visited.value;
      g := g + 1;
    }
    if start > 0 && !p.startFound { return Err(FailedPrecondition); }
    r := Ok(Response(p.entries, if p.isCompleteRun then None else Some(start + p.numVisited)));
  }

  /** listVolumesInNodeResourceGroup. */
  function NodeGroup(ctx: Context, listed: Option<seq<Disk>>, start: nat, maxEntries: int): Result<Response, Error> {
    var status := GroupStatus(ctx, listed, [], start, maxEntries);
    if status.err.Some? then Err(status.err.value)
    else Ok(Response(status.entries, if status.isCompleteRun then None else Some(status.numVisited)))
  }
}
