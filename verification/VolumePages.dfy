/** What the pages of ListVolumes contain, how full they are, and where their tokens lead. */
module VolumePages {
  import opened Wrappers
  import opened GoStrings
  import opened ListVolumes

  /** Every group can be listed and every visible disk rendered. */
  predicate AllListed(ctx: Context, groups: Groups) {
    forall i :: 0 <= i < |groups| ==> groups[i].Some? && Listable(ctx, groups[i].value)
  }

  // ---------------------------------------------------------------- what a cluster page is

  /** The listing that the groups make up together. */
  function All(groups: Groups): seq<Disk>
    requires forall i :: 0 <= i < |groups| ==> groups[i].Some?
  {
    if groups == [] then [] else groups[0].value + All(groups[1..])
  }

  lemma {:induction false} AllListable(ctx: Context, groups: Groups)
    requires AllListed(ctx, groups)
    ensures Listable(ctx, All(groups))
  {
    if groups != [] {
      TailListed(ctx, groups);
      AllListable(ctx, groups[1..]);
      FilteredConcat(ctx, groups[0].value, All(groups[1..]));
    }
  }

  lemma TailListed(ctx: Context, groups: Groups)
    requires AllListed(ctx, groups) && groups != []
    ensures AllListed(ctx, groups[1..])
  {
    assert forall i :: 0 <= i < |groups| - 1 ==> groups[1..][i] == groups[i + 1];
  }

  /** Once the start has been found: the loop appends the filtered part of the next `n` disks. */
  ghost predicate Appends(ctx: Context, disks: seq<Disk>, maxEntries: int, p: Progress, q: Progress, n: nat) {
    && n <= |disks| && Listable(ctx, disks[..n])
    && q.entries == p.entries + Filtered(ctx, disks[..n])
    && q.numVisited == p.numVisited + n && q.startFound
    && (maxEntries > 0 ==> |q.entries| <= maxEntries)
    && (q.isCompleteRun || maxEntries <= 0 ==> n == |disks|)
    && (maxEntries <= 0 ==> q.isCompleteRun)
    && (!q.isCompleteRun ==> q.entries != [])
    && (!q.isCompleteRun ==> n < |disks| || (maxEntries > 0 && |q.entries| >= maxEntries))
  }

  /** One turn, from the point where the group is entered. */
  lemma TurnScans(ctx: Context, disks: seq<Disk>, start: nat, maxEntries: int, p: Progress, local: nat, end: nat)
    requires Listable(ctx, disks) && ctx.volumes != Some({}) && (local == 0 || local < |disks|)
    requires if p.startFound then local == 0 else p.numVisited <= start && local == start - p.numVisited
    requires end == ScanEnd(ctx, disks, local, |p.entries|, maxEntries - |p.entries|)
    ensures Listable(ctx, disks[local..end])
    ensures Turn(ctx, Some(disks), start, maxEntries, p)
         == Ok(Progress(p.entries + Filtered(ctx, disks[local..end]), p.numVisited + end - local,
                        p.isCompleteRun && end == |disks|, true))
  {
    SliceListable(ctx, disks, local, end);
  }

  /** One group appends the filtered part of what it scanned. */
  lemma TurnAppends(ctx: Context, disks: seq<Disk>, start: nat, maxEntries: int, p: Progress, local: nat, end: nat)
    requires Listable(ctx, disks) && ctx.volumes != Some({}) && p.isCompleteRun && !Stops(maxEntries, p)
    requires local == 0 || local < |disks|
    requires if p.startFound then local == 0 else p.numVisited <= start && local == start - p.numVisited
    requires end == ScanEnd(ctx, disks, local, |p.entries|, maxEntries - |p.entries|)
    ensures Turn(ctx, Some(disks), start, maxEntries, p).Ok?
    ensures var q := Turn(ctx, Some(disks), start, maxEntries, p).value;
      Appends(ctx, disks[local..], maxEntries, p, q, end - local) && (q.isCompleteRun ==> end == |disks|)
  {
    TurnScans(ctx, disks, start, maxEntries, p, local, end);
    ScanFacts(ctx, disks, local, |p.entries|, maxEntries - |p.entries|);
    assert disks[local..][..end - local] == disks[local..end];
  }

  lemma AllSplit(groups: Groups, local: nat)
    requires forall i :: 0 <= i < |groups| ==> groups[i].Some?
    requires groups != [] && local <= |groups[0].value|
    ensures local <= |All(groups)| && All(groups)[local..] == groups[0].value[local..] + All(groups[1..])
  {
  }

  lemma AppendsMore(ctx: Context, d: seq<Disk>, e: seq<Disk>, maxEntries: int, p: Progress, q: Progress,
                    r: Progress, k: nat)
    requires Appends(ctx, d, maxEntries, p, q, |d|) && Appends(ctx, e, maxEntries, q, r, k)
    ensures Appends(ctx, d + e, maxEntries, p, r, |d| + k)
  {
    assert d[..|d|] == d;
    assert (d + e)[..|d| + k] == d + e[..k];
    FilteredConcat(ctx, d, e[..k]);
  }

  lemma AppendsAndStops(ctx: Context, d: seq<Disk>, e: seq<Disk>, maxEntries: int, p: Progress, q: Progress, n: nat)
    requires Appends(ctx, d, maxEntries, p, q, n) && !q.isCompleteRun
    ensures Appends(ctx, d + e, maxEntries, p, q, n)
  {
    assert (d + e)[..n] == d[..n];
  }

  lemma {:induction false} AfterFound(ctx: Context, groups: Groups, start: nat, maxEntries: int, p: Progress)
    returns (n: nat)
    requires AllListed(ctx, groups) && p.startFound && p.isCompleteRun && ctx.volumes != Some({})
    requires maxEntries > 0 ==> |p.entries| <= maxEntries
    ensures Loop(ctx, groups, start, maxEntries, p).Ok?
    ensures Appends(ctx, All(groups), maxEntries, p, Loop(ctx, groups, start, maxEntries, p).value, n)
    decreases |groups|
  {
    if groups == [] || Stops(maxEntries, p) {
      n := 0;
      assert All(groups)[..0] == [];
    } else {
      n := TurnAndOn(ctx, groups, start, maxEntries, p, 0);
    }
  }

  /** One group, then the rest. */
  lemma {:induction false} TurnAndOn(ctx: Context, groups: Groups, start: nat, maxEntries: int, p: Progress,
                                     local: nat)
    returns (n: nat)
    requires AllListed(ctx, groups) && ctx.volumes != Some({}) && groups != []
    requires p.isCompleteRun && !Stops(maxEntries, p)
    requires local == 0 || local < |groups[0].value|
    requires if p.startFound then local == 0 else p.numVisited <= start && local == start - p.numVisited
    ensures local <= |All(groups)|
    ensures Loop(ctx, groups, start, maxEntries, p).Ok?
    ensures Appends(ctx, All(groups)[local..], maxEntries, p, Loop(ctx, groups, start, maxEntries, p).value, n)
    decreases |groups|, 0
  {
    var q, m := EnterGroup(ctx, groups, start, maxEntries, p, local);
    AllSplit(groups, local);
    var d, e := groups[0].value[local..], All(groups[1..]);
    if q.isCompleteRun {
      var k := AfterFound(ctx, groups[1..], start, maxEntries, q);
      AppendsMore(ctx, d, e, maxEntries, p, q, Loop(ctx, groups[1..], start, maxEntries, q).value, k);
      n := m + k;
    } else {
      StoppedLoop(ctx, groups[1..], start, maxEntries, q);
      AppendsAndStops(ctx, d, e, maxEntries, p, q, m);
      n := m;
    }
  }

  /** The turn of one group: q afterwards, m disks further. */
  lemma EnterGroup(ctx: Context, groups: Groups, start: nat, maxEntries: int, p: Progress, local: nat)
    returns (q: Progress, m: nat)
    requires AllListed(ctx, groups) && ctx.volumes != Some({}) && groups != []
    requires p.isCompleteRun && !Stops(maxEntries, p)
    requires local == 0 || local < |groups[0].value|
    requires if p.startFound then local == 0 else p.numVisited <= start && local == start - p.numVisited
    ensures AllListed(ctx, groups[1..])
    ensures Appends(ctx, groups[0].value[local..], maxEntries, p, q, m)
    ensures q.isCompleteRun ==> m == |groups[0].value| - local
    ensures Loop(ctx, groups, start, maxEntries, p) == Loop(ctx, groups[1..], start, maxEntries, q)
  {
    var disks := groups[0].value;
    var end := ScanEnd(ctx, disks, local, |p.entries|, maxEntries - |p.entries|);
    TailListed(ctx, groups);
    TurnAppends(ctx, disks, start, maxEntries, p, local, end);
    q, m := Turn(ctx, groups[0], start, maxEntries, p).value, end - local;
  }

  lemma StoppedLoop(ctx: Context, groups: Groups, start: nat, maxEntries: int, p: Progress)
    requires !p.isCompleteRun
    ensures Loop(ctx, groups, start, maxEntries, p) == Ok(p)
  {
  }

  /** How many leading disks belong to groups that a start skips: whole groups before it. */
  function SkippedSize(groups: Groups, start: nat): nat
    requires forall i :: 0 <= i < |groups| ==> groups[i].Some?
  {
    if groups != [] && start > 0 && start >= |groups[0].value|
    then |groups[0].value| + SkippedSize(groups[1..], start - |groups[0].value|)
    else 0
  }

  /** Whether some group contains the start (or it falls exactly on an empty group). */
  predicate StartExists(groups: Groups, start: nat)
    requires forall i :: 0 <= i < |groups| ==> groups[i].Some?
  {
    groups != [] &&
    (if start > 0 && start >= |groups[0].value| then StartExists(groups[1..], start - |groups[0].value|) else true)
  }

  /** From any point of the skipping phase on. */
  lemma {:induction false} Skipping(ctx: Context, groups: Groups, start: nat, maxEntries: int, p: Progress)
    returns (n: nat)
    requires AllListed(ctx, groups) && ctx.volumes != Some({})
    requires p.entries == [] && p.isCompleteRun && !p.startFound && p.numVisited <= start
    ensures Loop(ctx, groups, start, maxEntries, p).Ok?
    ensures var local := start - p.numVisited; var q := Loop(ctx, groups, start, maxEntries, p).value;
      if StartExists(groups, local) then
        && local <= |All(groups)|
        && Appends(ctx, All(groups)[local..], maxEntries,
                   p.(numVisited := p.numVisited + SkippedSize(groups, local), startFound := true), q, n)
      else !q.startFound
    decreases |groups|
  {
    n := 0;
    if groups != [] {
      var local := start - p.numVisited;
      var disks := groups[0].value;
      if local > 0 && local >= |disks| {
        TailListed(ctx, groups);
        SkipGroup(ctx, groups, start, maxEntries, p);
        n := Skipping(ctx, groups[1..], start, maxEntries, p.(numVisited := p.numVisited + |disks|));
        SkipShifts(groups, local);
      } else {
        n := TurnAndOn(ctx, groups, start, maxEntries, p, local);
      }
    }
  }

  /** Passing over a group shifts the start. */
  lemma SkipShifts(groups: Groups, start: nat)
    requires forall i :: 0 <= i < |groups| ==> groups[i].Some?
    requires groups != [] && start > 0 && start >= |groups[0].value|
    ensures var rest, local := groups[1..], start - |groups[0].value|;
      && (StartExists(groups, start) <==> StartExists(rest, local))
      && SkippedSize(groups, start) == |groups[0].value| + SkippedSize(rest, local)
      && (local <= |All(rest)| ==> start <= |All(groups)| && All(groups)[start..] == All(rest)[local..])
  {
  }

  /** A page of the cluster listing: exactly the filtered disks of one window of the concatenated
      groups that begins at `start`. It never exceeds a positive maxEntries; without one, nothing
      from start on is missed; a page that hands out a token has moved on. The token is the end of
      the window plus the size of the groups that were skipped. */
  lemma ClusterPage(ctx: Context, groups: Groups, start: nat, maxEntries: int) returns (end: nat)
    requires AllListed(ctx, groups) && (groups != [] ==> ctx.volumes != Some({}))
    ensures var r := Cluster(ctx, groups, start, maxEntries);
      && (r.Err? <==> start > 0 && !StartExists(groups, start)) && (r.Err? ==> r.error == FailedPrecondition)
      && (r.Ok? ==>
            && start <= end <= |All(groups)| && Listable(ctx, All(groups)[start..end])
            && r.value.entries == Filtered(ctx, All(groups)[start..end])
            && (maxEntries > 0 ==> |r.value.entries| <= maxEntries)
            && (maxEntries <= 0 || r.value.nextToken.None? ==> end == |All(groups)|)
            && (r.value.nextToken.Some? ==> start < end && r.value.nextToken.value == end + SkippedSize(groups, start))
            && (r.value.nextToken.Some? ==>
                  end < |All(groups)| || (maxEntries > 0 && |r.value.entries| >= maxEntries)))
  {
    end := start;
    if groups != [] {
      var n := Skipping(ctx, groups, start, maxEntries, BEGIN);
      if StartExists(groups, start) {
        end := start + n;
        assert All(groups)[start..][..n] == All(groups)[start..end];
        if n == 0 { assert All(groups)[start..end] == []; }
      }
    }
  }

  /** So the token is the point to resume from exactly when nothing but empty groups was skipped. */
  lemma TokenExactIff(ctx: Context, groups: Groups, start: nat, maxEntries: int) returns (end: nat)
    requires AllListed(ctx, groups) && (groups != [] ==> ctx.volumes != Some({}))
    requires Cluster(ctx, groups, start, maxEntries).Ok?
    requires Cluster(ctx, groups, start, maxEntries).value.nextToken.Some?
    ensures var page := Cluster(ctx, groups, start, maxEntries).value;
      && end <= |All(groups)| && start <= end && Listable(ctx, All(groups)[start..end])
      && page.entries == Filtered(ctx, All(groups)[start..end])
      && (page.nextToken == Some(end) <==> SkippedSize(groups, start) == 0)
    ensures start == 0 || (groups != [] && start < |groups[0].value|) ==> SkippedSize(groups, start) == 0
  {
    end := ClusterPage(ctx, groups, start, maxEntries);
  }

  /** Three groups of one disk, pages of one: the second token overshoots the third disk. */
  lemma ThirdGroupIsLost(ctx: Context, a: Disk, b: Disk, c: Disk)
    requires Visible(ctx, a) && Visible(ctx, b) && Visible(ctx, c)
    requires Renders(ctx, a) && Renders(ctx, b) && Renders(ctx, c)
    ensures var groups := [Some([a]), Some([b]), Some([c])];
      && AllListed(ctx, groups)
      && Cluster(ctx, groups, 0, 1) == Ok(Response([EntryOf(ctx, a)], Some(1)))
      && Cluster(ctx, groups, 1, 1) == Ok(Response([EntryOf(ctx, b)], Some(3)))
      && Cluster(ctx, groups, 3, 1) == Err(FailedPrecondition)
  {
    var groups: Groups := [Some([a]), Some([b]), Some([c])];
    FirstOfThree(ctx, a, b, c);
    SecondOfThree(ctx, a, b, c);
    NoFourth(a, b, c);
    LostStart(ctx, groups, 3, 1);
  }

  lemma LostStart(ctx: Context, groups: Groups, start: nat, maxEntries: int)
    requires AllListed(ctx, groups) && ctx.volumes != Some({}) && start > 0 && !StartExists(groups, start)
    ensures Cluster(ctx, groups, start, maxEntries) == Err(FailedPrecondition)
  {
    var end := ClusterPage(ctx, groups, start, maxEntries);
  }

  lemma LoopStep(ctx: Context, first: Option<seq<Disk>>, rest: Groups, start: nat, maxEntries: int, p: Progress)
    requires !Stops(maxEntries, p) && Turn(ctx, first, start, maxEntries, p).Ok?
    ensures Loop(ctx, [first] + rest, start, maxEntries, p)
         == Loop(ctx, rest, start, maxEntries, Turn(ctx, first, start, maxEntries, p).value)
  {
    assert ([first] + rest)[1..] == rest;
  }

  lemma FirstOfThree(ctx: Context, a: Disk, b: Disk, c: Disk)
    requires Visible(ctx, a) && Renders(ctx, a) && Renders(ctx, b) && Renders(ctx, c)
    ensures var groups := [Some([a]), Some([b]), Some([c])];
      Loop(ctx, groups, 0, 1, BEGIN) == Ok(Progress([EntryOf(ctx, a)], 1, false, true))
  {
    SingleScan(ctx, a);
    LoopStep(ctx, Some([a]), [Some([b]), Some([c])], 0, 1, BEGIN);
    assert [Some([a])] + [Some([b]), Some([c])] == [Some([a]), Some([b]), Some([c])];
  }

  lemma SecondOfThree(ctx: Context, a: Disk, b: Disk, c: Disk)
    requires Visible(ctx, b) && Renders(ctx, a) && Renders(ctx, b) && Renders(ctx, c) && ctx.volumes != Some({})
    ensures var groups := [Some([a]), Some([b]), Some([c])];
      Loop(ctx, groups, 1, 1, BEGIN) == Ok(Progress([EntryOf(ctx, b)], 2, false, true))
  {
    var skipped := Progress([], 1, true, false);
    LoopStep(ctx, Some([a]), [Some([b]), Some([c])], 1, 1, BEGIN);
    assert Turn(ctx, Some([a]), 1, 1, BEGIN) == Ok(skipped);
    assert [Some([a])] + [Some([b]), Some([c])] == [Some([a]), Some([b]), Some([c])];
    SecondFound(ctx, b, c, skipped, 1, 1);
  }

  lemma SecondFound(ctx: Context, b: Disk, c: Disk, p: Progress, start: nat, maxEntries: int)
    requires Visible(ctx, b) && Renders(ctx, b) && Renders(ctx, c) && p == Progress([], 1, true, false)
    requires start == 1 && maxEntries == 1
    ensures Loop(ctx, [Some([b]), Some([c])], start, maxEntries, p) == Ok(Progress([EntryOf(ctx, b)], 2, false, true))
  {
    SingleScan(ctx, b);
    LoopStep(ctx, Some([b]), [Some([c])], start, maxEntries, p);
    assert [Some([b])] + [Some([c])] == [Some([b]), Some([c])];
  }

  lemma NoFourth(a: Disk, b: Disk, c: Disk)
    ensures !StartExists([Some([a]), Some([b]), Some([c])], 3)
  {
    var groups: Groups := [Some([a]), Some([b]), Some([c])];
    assert groups[1..] == [Some([b]), Some([c])];
    assert groups[1..][1..] == [Some([c])];
    assert !StartExists([], 0);
    var last: Groups := [Some([c])];
    assert last[1..] == [];
    assert !StartExists(last, 1);
    assert !StartExists(groups[1..], 2);
  }

  lemma SingleScan(ctx: Context, d: Disk)
    requires Visible(ctx, d) && Renders(ctx, d)
    ensures GroupStatus(ctx, Some([d]), [], 0, 1) == Status(1, true, [EntryOf(ctx, d)], None)
  {
    assert ScanEnd(ctx, [d], 0, 0, 1) == 1;
    assert [d][0..1] == [d] && [d][..0] == [];
    assert Filtered(ctx, []) == [];
  }

  // ---------------------------------------------------------------- how full a page is

  /** How many visible disks there are, from the start on, in the first group that has any there. */
  function FirstVisible(ctx: Context, groups: Groups, start: nat): nat
    requires AllListed(ctx, groups)
  {
    if groups == [] then 0
    else
      var disks := groups[0].value;
      TailListed(ctx, groups);
      if start > 0 && start >= |disks| then FirstVisible(ctx, groups[1..], start - |disks|)
      else
        SliceListable(ctx, disks, start, |disks|);
        var n := |Filtered(ctx, disks[start..|disks|])|;
        if n > 0 then n else FirstVisible(ctx, groups[1..], 0)
  }

  /** What a page with `have` entries takes from one group: all the visible disks there are, up to
      maxEntries less twice the entries it has, which are counted against the limit twice. A page
      that had entries stays short. */
  lemma TurnFills(ctx: Context, disks: seq<Disk>, maxEntries: int, have: nat, local: nat)
    requires Listable(ctx, disks) && local <= |disks| && have < maxEntries
    ensures var end := ScanEnd(ctx, disks, local, have, maxEntries - have);
      Listable(ctx, disks[local..end]) && Listable(ctx, disks[local..|disks|]) &&
      var taken, all := |Filtered(ctx, disks[local..end])|, |Filtered(ctx, disks[local..|disks|])|;
      var room := if maxEntries > 2 * have then maxEntries - 2 * have else 0;
      && taken == (if all <= room then all else room)
      && (all < room ==> end == |disks|)
      && (have > 0 ==> have + taken < maxEntries)
  {
    var end := ScanEnd(ctx, disks, local, have, maxEntries - have);
    ScanFacts(ctx, disks, local, have, maxEntries - have);
    StretchCount(ctx, disks, local, end);
    if have > maxEntries - have { assert disks[local..end] == []; }
  }

  lemma StretchCount(ctx: Context, disks: seq<Disk>, local: nat, end: nat)
    requires Listable(ctx, disks) && local <= end <= |disks|
    ensures Listable(ctx, disks[local..end]) && Listable(ctx, disks[local..|disks|])
    ensures |Filtered(ctx, disks[local..end])| <= |Filtered(ctx, disks[local..|disks|])|
  {
    SliceListable(ctx, disks, local, end);
    SliceListable(ctx, disks, end, |disks|);
    FilteredConcat(ctx, disks[local..end], disks[end..|disks|]);
    assert disks[local..|disks|] == disks[local..end] + disks[end..|disks|];
  }

  /** Once a page holds entries of an earlier group and is not full, it never becomes full. */
  lemma {:induction false} StaysShort(ctx: Context, groups: Groups, start: nat, maxEntries: int, p: Progress)
    requires AllListed(ctx, groups) && ctx.volumes != Some({}) && p.startFound && 0 < |p.entries| < maxEntries
    ensures Loop(ctx, groups, start, maxEntries, p).Ok?
    ensures 0 < |Loop(ctx, groups, start, maxEntries, p).value.entries| < maxEntries
    decreases |groups|
  {
    if groups != [] && !Stops(maxEntries, p) {
      var disks := groups[0].value;
      TailListed(ctx, groups);
      TurnFills(ctx, disks, maxEntries, |p.entries|, 0);
      TurnScans(ctx, disks, start, maxEntries, p, 0, ScanEnd(ctx, disks, 0, |p.entries|, maxEntries - |p.entries|));
      StaysShort(ctx, groups[1..], start, maxEntries, Turn(ctx, groups[0], start, maxEntries, p).value);
    }
  }

  lemma FullStays(ctx: Context, groups: Groups, start: nat, maxEntries: int, p: Progress)
    requires 0 < maxEntries <= |p.entries|
    ensures Loop(ctx, groups, start, maxEntries, p).Ok?
    ensures Loop(ctx, groups, start, maxEntries, p).value.entries == p.entries
  {
  }

  /** A group before the start is passed over. */
  lemma SkipGroup(ctx: Context, groups: Groups, start: nat, maxEntries: int, p: Progress)
    requires groups != [] && groups[0].Some? && ctx.volumes != Some({}) && !Stops(maxEntries, p) && !p.startFound
    requires p.numVisited < start && start - p.numVisited >= |groups[0].value|
    ensures Loop(ctx, groups, start, maxEntries, p)
         == Loop(ctx, groups[1..], start, maxEntries, p.(numVisited := p.numVisited + |groups[0].value|))
  {
  }

  /** From any point at which nothing has been collected. */
  lemma {:induction false} FullIff(ctx: Context, groups: Groups, start: nat, maxEntries: int, p: Progress, local: nat)
    requires AllListed(ctx, groups) && ctx.volumes != Some({}) && maxEntries > 0 && p.entries == [] && p.isCompleteRun
    requires if p.startFound then local == 0 else p.numVisited <= start && local == start - p.numVisited
    ensures Loop(ctx, groups, start, maxEntries, p).Ok?
    ensures |Loop(ctx, groups, start, maxEntries, p).value.entries| == maxEntries
       <==> FirstVisible(ctx, groups, local) >= maxEntries
    decreases |groups|
  {
    if groups != [] {
      if local > 0 && local >= |groups[0].value| {
        SkippedFills(ctx, groups, start, maxEntries, p, local);
      } else {
        FirstGroupFills(ctx, groups, start, maxEntries, p, local);
      }
    }
  }

  lemma {:induction false} SkippedFills(ctx: Context, groups: Groups, start: nat, maxEntries: int, p: Progress,
                                        local: nat)
    requires AllListed(ctx, groups) && ctx.volumes != Some({}) && maxEntries > 0 && p.entries == [] && p.isCompleteRun
    requires !p.startFound && p.numVisited <= start && local == start - p.numVisited
    requires groups != [] && local > 0 && local >= |groups[0].value|
    ensures Loop(ctx, groups, start, maxEntries, p).Ok?
    ensures |Loop(ctx, groups, start, maxEntries, p).value.entries| == maxEntries
       <==> FirstVisible(ctx, groups, local) >= maxEntries
    decreases |groups|, 0
  {
    TailListed(ctx, groups);
    var n := |groups[0].value|;
    SkipGroup(ctx, groups, start, maxEntries, p);
    FullIff(ctx, groups[1..], start, maxEntries, p.(numVisited := p.numVisited + n), local - n);
  }

  lemma {:induction false} FirstGroupFills(ctx: Context, groups: Groups, start: nat, maxEntries: int, p: Progress,
                                           local: nat)
    requires AllListed(ctx, groups) && ctx.volumes != Some({}) && maxEntries > 0 && p.entries == [] && p.isCompleteRun
    requires if p.startFound then local == 0 else p.numVisited <= start && local == start - p.numVisited
    requires groups != [] && (local == 0 || local < |groups[0].value|)
    ensures Loop(ctx, groups, start, maxEntries, p).Ok?
    ensures |Loop(ctx, groups, start, maxEntries, p).value.entries| == maxEntries
       <==> FirstVisible(ctx, groups, local) >= maxEntries
    decreases |groups|, 0
  {
    var disks := groups[0].value;
    TailListed(ctx, groups);
    TurnFills(ctx, disks, maxEntries, 0, local);
    TurnScans(ctx, disks, start, maxEntries, p, local, ScanEnd(ctx, disks, local, 0, maxEntries));
    var q := Turn(ctx, groups[0], start, maxEntries, p).value;
    if q.entries == [] {
      FullIff(ctx, groups[1..], start, maxEntries, q, 0);
    } else if |q.entries| < maxEntries {
      StaysShort(ctx, groups[1..], start, maxEntries, q);
    } else {
      FullStays(ctx, groups[1..], start, maxEntries, q);
    }
  }

  /** A page is full exactly when the first group with a visible disk at or after the start holds
      enough of them: a page is never filled from two groups. */
  lemma PageFullIff(ctx: Context, groups: Groups, start: nat, maxEntries: int)
    requires AllListed(ctx, groups) && ctx.volumes != Some({}) && maxEntries > 0
    requires Cluster(ctx, groups, start, maxEntries).Ok?
    ensures |Cluster(ctx, groups, start, maxEntries).value.entries| == maxEntries
       <==> FirstVisible(ctx, groups, start) >= maxEntries
  {
    FullIff(ctx, groups, start, maxEntries, BEGIN, start);
  }

  /** A page that is not full hands out a token exactly when disks are left behind its window, visible
      or not; a full one may hand out a token with nothing left. */
  lemma ShortPageTokenIff(ctx: Context, groups: Groups, start: nat, maxEntries: int) returns (end: nat)
    requires AllListed(ctx, groups) && (groups != [] ==> ctx.volumes != Some({})) && maxEntries > 0
    requires Cluster(ctx, groups, start, maxEntries).Ok?
    requires |Cluster(ctx, groups, start, maxEntries).value.entries| < maxEntries
    ensures var page := Cluster(ctx, groups, start, maxEntries).value;
      && start <= end <= |All(groups)| && Listable(ctx, All(groups)[start..end])
      && page.entries == Filtered(ctx, All(groups)[start..end])
      && (page.nextToken.Some? <==> end < |All(groups)|)
  {
    end := ClusterPage(ctx, groups, start, maxEntries);
  }

  /** Groups of one and two disks, pages of three: the first page stops after two entries, with a
      token, although a third disk is left. */
  lemma PageStopsShort(ctx: Context, a: Disk, b: Disk, c: Disk)
    requires Visible(ctx, a) && Visible(ctx, b) && Visible(ctx, c)
    requires Renders(ctx, a) && Renders(ctx, b) && Renders(ctx, c)
    ensures Cluster(ctx, [Some([a]), Some([b, c])], 0, 3) == Ok(Response([EntryOf(ctx, a), EntryOf(ctx, b)], Some(2)))
  {
    TwoGroupsLoop(ctx, a, b, c, 0, 3, BEGIN);
  }

  lemma TwoGroupsLoop(ctx: Context, a: Disk, b: Disk, c: Disk, start: nat, maxEntries: int, p: Progress)
    requires Visible(ctx, a) && Visible(ctx, b) && Renders(ctx, a) && Renders(ctx, b) && Renders(ctx, c)
    requires start == 0 && maxEntries == 3 && p == BEGIN
    ensures Loop(ctx, [Some([a]), Some([b, c])], start, maxEntries, p)
         == Ok(Progress([EntryOf(ctx, a), EntryOf(ctx, b)], 2, false, true))
  {
    var q := Progress([EntryOf(ctx, a)], 1, true, true);
    SingleTurn(ctx, a, start, maxEntries, p);
    LoopStep(ctx, Some([a]), [Some([b, c])], start, maxEntries, p);
    assert [Some([a])] + [Some([b, c])] == [Some([a]), Some([b, c])];
    OneOfTwo(ctx, b, c, start, maxEntries, q);
    LoopStep(ctx, Some([b, c]), [], start, maxEntries, q);
    assert [Some([b, c])] + [] == [Some([b, c])];
    assert [EntryOf(ctx, a)] + [EntryOf(ctx, b)] == [EntryOf(ctx, a), EntryOf(ctx, b)];
  }

  lemma SingleTurn(ctx: Context, d: Disk, start: nat, maxEntries: int, p: Progress)
    requires Visible(ctx, d) && Renders(ctx, d) && start == 0 && maxEntries > 0 && p == BEGIN
    ensures Turn(ctx, Some([d]), start, maxEntries, p) == Ok(Progress([EntryOf(ctx, d)], 1, true, true))
  {
    assert ctx.volumes.Some? ==> Lower(d.id) in ctx.volumes.value;
    assert ScanEnd(ctx, [d], 1, 1, maxEntries) == 1 && ScanEnd(ctx, [d], 0, 0, maxEntries) == 1;
    TurnScans(ctx, [d], start, maxEntries, p, 0, 1);
    SliceSnoc(ctx, [d], 0, 0);
    assert [d][0..0] == [] && Filtered(ctx, []) == [];
    assert p.entries + [EntryOf(ctx, d)] == [EntryOf(ctx, d)];
  }

  lemma OneOfTwo(ctx: Context, b: Disk, c: Disk, start: nat, maxEntries: int, p: Progress)
    requires Visible(ctx, b) && Renders(ctx, b) && Renders(ctx, c)
    requires maxEntries == 3 && |p.entries| == 1 && p.startFound && p.isCompleteRun
    ensures Turn(ctx, Some([b, c]), start, maxEntries, p)
         == Ok(Progress(p.entries + [EntryOf(ctx, b)], p.numVisited + 1, false, true))
  {
    assert ctx.volumes.Some? ==> Lower(b.id) in ctx.volumes.value;
    assert ScanEnd(ctx, [b, c], 1, 2, 2) == 1 && ScanEnd(ctx, [b, c], 0, 1, 2) == 1;
    TurnScans(ctx, [b, c], start, maxEntries, p, 0, 1);
    SliceSnoc(ctx, [b, c], 0, 0);
    assert [b, c][0..0] == [] && Filtered(ctx, []) == [];
    assert Filtered(ctx, [b, c][0..1]) == [EntryOf(ctx, b)];
  }

  // ---------------------------------------------------------------- groups that fail

  /** The loop over two stretches of groups is the loop over one and then over the other. */
  lemma {:induction false} LoopConcat(ctx: Context, a: Groups, b: Groups, start: nat, maxEntries: int, p: Progress)
    ensures Loop(ctx, a + b, start, maxEntries, p)
         == match Loop(ctx, a, start, maxEntries, p)
            case Ok(q) => Loop(ctx, b, start, maxEntries, q)
            case Err(e) => Err(e)
  {
    if a == [] {
      assert a + b == b;
    } else {
      assert (a + b)[0] == a[0] && (a + b)[1..] == a[1..] + b;
      if !Stops(maxEntries, p) && Turn(ctx, a[0], start, maxEntries, p).Ok? {
        LoopConcat(ctx, a[1..], b, start, maxEntries, Turn(ctx, a[0], start, maxEntries, p).value);
      }
    }
  }

  /** A page that is full before group g does not depend on what comes from there on, listed or not. */
  lemma LaterGroupsDoNotMatter(ctx: Context, groups: Groups, more: Groups, start: nat, maxEntries: int)
    requires Loop(ctx, groups, start, maxEntries, BEGIN).Ok? && more != []
    requires Stops(maxEntries, Loop(ctx, groups, start, maxEntries, BEGIN).value)
    ensures Loop(ctx, groups + more, start, maxEntries, BEGIN)
         == Ok(Loop(ctx, groups, start, maxEntries, BEGIN).value.(isCompleteRun := false))
  {
    LoopConcat(ctx, groups, more, start, maxEntries, BEGIN);
  }

  /** A group fails a page: its listing failed, or the stretch that the page would take from it holds
      a visible disk that cannot be rendered. */
  ghost predicate GroupFails(ctx: Context, group: Option<seq<Disk>>, start: nat, maxEntries: int, p: Progress,
                             e: Error) {
    if group.None? then e == ListFailed
    else
      var disks := group.value;
      var local := if p.startFound || p.numVisited > start then 0 else start - p.numVisited;
      && e == UnknownNode && ctx.volumes != Some({}) && (local == 0 || local < |disks|)
      && exists i :: local <= i < ScanEnd(ctx, disks, local, |p.entries|, maxEntries - |p.entries|)
           && Visible(ctx, disks[i]) && disks[i].managedBy.Some? && disks[i].managedBy.value !in ctx.nodeOf
  }

  lemma TurnFailsIff(ctx: Context, group: Option<seq<Disk>>, start: nat, maxEntries: int, p: Progress, e: Error)
    ensures Turn(ctx, group, start, maxEntries, p) == Err(e) <==> GroupFails(ctx, group, start, maxEntries, p, e)
  {
    if group.Some? {
      var disks := group.value;
      var local := if p.startFound || p.numVisited > start then 0 else start - p.numVisited;
      if local == 0 || local < |disks| {
        ListableStretch(ctx, disks, local, ScanEnd(ctx, disks, local, |p.entries|, maxEntries - |p.entries|));
      }
    }
  }

  /** Group g is reached with a page that is not full, and fails it. */
  ghost predicate FailsAt(ctx: Context, groups: Groups, start: nat, maxEntries: int, p: Progress, g: int, e: Error) {
    0 <= g < |groups| && Loop(ctx, groups[..g], start, maxEntries, p).Ok? &&
    var q := Loop(ctx, groups[..g], start, maxEntries, p).value;
    !Stops(maxEntries, q) && GroupFails(ctx, groups[g], start, maxEntries, q, e)
  }

  lemma {:induction false} LoopFailsIff(ctx: Context, groups: Groups, start: nat, maxEntries: int, p: Progress,
                                        e: Error)
    ensures Loop(ctx, groups, start, maxEntries, p) == Err(e)
       <==> exists g :: FailsAt(ctx, groups, start, maxEntries, p, g, e)
    decreases |groups|
  {
    if groups != [] {
      assert groups[..0] == [];
      TurnFailsIff(ctx, groups[0], start, maxEntries, p, e);
      forall g | 0 < g < |groups| ensures groups[..g] != [] && groups[..g][0] == groups[0] {
      }
      if !Stops(maxEntries, p) {
        if Turn(ctx, groups[0], start, maxEntries, p) == Err(e) {
          assert FailsAt(ctx, groups, start, maxEntries, p, 0, e);
        } else if Turn(ctx, groups[0], start, maxEntries, p).Ok? {
          LaterGroupFails(ctx, groups, start, maxEntries, p, e);
        }
      }
    }
  }

  lemma {:induction false} LaterGroupFails(ctx: Context, groups: Groups, start: nat, maxEntries: int, p: Progress,
                                           e: Error)
    requires groups != [] && !Stops(maxEntries, p) && Turn(ctx, groups[0], start, maxEntries, p).Ok?
    ensures Loop(ctx, groups, start, maxEntries, p) == Err(e)
       <==> exists g :: FailsAt(ctx, groups, start, maxEntries, p, g, e)
    decreases |groups|, 0
  {
    var q, tail := Turn(ctx, groups[0], start, maxEntries, p).value, groups[1..];
    LoopFailsIff(ctx, tail, start, maxEntries, q, e);
    TurnFailsIff(ctx, groups[0], start, maxEntries, p, e);
    assert groups[..0] == [];
    forall g | 0 <= g < |tail|
      ensures FailsAt(ctx, tail, start, maxEntries, q, g, e) <==> FailsAt(ctx, groups, start, maxEntries, p, g + 1, e) {
      assert groups[..g + 1][1..] == tail[..g] && groups[..g + 1][0] == groups[0];
    }
    if g :| FailsAt(ctx, tail, start, maxEntries, q, g, e) {
      assert FailsAt(ctx, groups, start, maxEntries, p, g + 1, e);
    }
    if g :| FailsAt(ctx, groups, start, maxEntries, p, g, e) {
      assert g > 0;
      assert FailsAt(ctx, tail, start, maxEntries, q, g - 1, e);
    }
  }

  /** A listing fails exactly when a group fails it that is reached before the page is full. */
  lemma ClusterFailsIff(ctx: Context, groups: Groups, start: nat, maxEntries: int, e: Error)
    requires e != FailedPrecondition
    ensures Cluster(ctx, groups, start, maxEntries) == Err(e)
       <==> exists g :: FailsAt(ctx, groups, start, maxEntries, BEGIN, g, e)
  {
    LoopFailsIff(ctx, groups, start, maxEntries, BEGIN, e);
  }

  lemma ListableStretch(ctx: Context, disks: seq<Disk>, from: nat, end: nat)
    requires from <= end <= |disks|
    ensures Listable(ctx, disks[from..end]) <==>
      forall i :: from <= i < end && Visible(ctx, disks[i]) ==> Renders(ctx, disks[i])
  {
    assert forall k :: 0 <= k < end - from ==> disks[from..end][k] == disks[from + k];
    forall i | from <= i < end ensures disks[i] == disks[from..end][i - from] { }
  }

  // ---------------------------------------------------------------- the node's own resource group

  /** The token counts from the start of the page: it is the point to resume from only on the first page. */
  lemma NodeTokenExactIff(ctx: Context, disks: seq<Disk>, start: nat, maxEntries: int) returns (end: nat)
    requires Listable(ctx, disks) && ctx.volumes.None?
    requires NodeGroup(ctx, Some(disks), start, maxEntries).Ok?
    requires NodeGroup(ctx, Some(disks), start, maxEntries).value.nextToken.Some?
    ensures var page := NodeGroup(ctx, Some(disks), start, maxEntries).value;
      && start <= end < |disks| && Listable(ctx, disks[start..end])
      && page.entries == Filtered(ctx, disks[start..end])
      && (page.nextToken == Some(end) <==> start == 0)
  {
    end := ScanEnd(ctx, disks, start, 0, maxEntries);
    ScanFacts(ctx, disks, start, 0, maxEntries);
  }

  lemma {:induction false} PlainScan(ctx: Context, disks: seq<Disk>, i: nat, have: nat, limit: int)
    requires i <= |disks| && limit > 0 && have <= limit && forall d :: d in disks ==> Visible(ctx, d)
    ensures ScanEnd(ctx, disks, i, have, limit) == if i + limit - have <= |disks| then i + limit - have else |disks|
    decreases |disks| - i
  {
    if i < |disks| && have < limit { PlainScan(ctx, disks, i + 1, have + 1, limit); }
  }

  /** A client that feeds the token back is caught at the second page, for every listing of more than
      two pages of visible disks: the page at m hands out m again. */
  lemma NodeWalkIsStuckIff(ctx: Context, disks: seq<Disk>, m: int)
    requires 0 < m < |disks| && Listable(ctx, disks) && ctx.volumes.None? && forall d :: d in disks ==> Visible(ctx, d)
    ensures NodeGroup(ctx, Some(disks), 0, m).Ok? && NodeGroup(ctx, Some(disks), 0, m).value.nextToken == Some(m)
    ensures NodeGroup(ctx, Some(disks), m, m).Ok?
    ensures NodeGroup(ctx, Some(disks), m, m).value.nextToken == if 2 * m < |disks| then Some(m) else None
  {
    PlainScan(ctx, disks, 0, 0, m);
    PlainScan(ctx, disks, m, 0, m);
  }
}
