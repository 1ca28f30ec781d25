/** Paging of ListSnapshots (pkg/azureutils/azure_snapshot_utils.go): GetEntriesAndNextToken. */
module ListSnapshots {
  import opened Wrappers
  import opened GoStrings

  /** armcompute.Snapshot: a nil pointer is None. `properties` is None when the property block is nil. */
  datatype Properties = Properties(
    timeCreated: Option<int>,
    diskSizeGB: Option<int>,
    provisioningState: Option<string>,
    sourceResourceId: Option<string>)

  datatype Snapshot = Snapshot(id: Option<string>, properties: Option<Properties>)

  datatype CsiSnapshot = CsiSnapshot(sizeBytes: int, id: string, sourceVolumeId: string, created: int, ready: bool)

  datatype Error = NilRequest | BadToken | TokenTooLarge | NegativeToken | BadSnapshot | Panic

  datatype Request = Request(startingToken: string, maxEntries: int, sourceVolumeId: string)

  datatype Response = Response(entries: seq<CsiSnapshot>, nextToken: string)

  const GIB := 0x4000_0000

  function GetSourceVolumeID(snapshot: Option<Snapshot>): string {
    if snapshot.Some? && snapshot.value.properties.Some? && snapshot.value.properties.value.sourceResourceId.Some?
    then snapshot.value.properties.value.sourceResourceId.value
    else ""
  }

  predicate IsReady(state: string) { Lower(state) == "succeeded" }

  function GenerateCSISnapshot(sourceVolumeId: string, snapshot: Option<Snapshot>): Result<CsiSnapshot, Error> {
    if snapshot.None? || snapshot.value.properties.None? then Err(BadSnapshot)
    else
      var p := snapshot.value.properties.value;
      if p.timeCreated.None? || p.diskSizeGB.None? then Err(BadSnapshot)
      else if p.provisioningState.None? || snapshot.value.id.None? then Err(Panic)
      else Ok(CsiSnapshot(p.diskSizeGB.value * GIB, snapshot.value.id.value,
                          if sourceVolumeId == "" then GetSourceVolumeID(snapshot) else sourceVolumeId,
                          p.timeCreated.value, IsReady(p.provisioningState.value)))
  }

  /** What an entry holds, and when there is none: a snapshot without properties, creation time or size
      is an error, one without a state or an ID a nil dereference. */
  lemma EntryHolds(sourceVolumeId: string, sn: Snapshot, p: Properties)
    requires sn.properties == Some(p)
    ensures var r := GenerateCSISnapshot(sourceVolumeId, Some(sn));
      && (r == Err(BadSnapshot) <==> p.timeCreated == None || p.diskSizeGB == None)
      && (r == Err(Panic) <==>
            p.timeCreated != None && p.diskSizeGB != None && (p.provisioningState == None || sn.id == None))
      && (r.Ok? ==>
            && Some(r.value.id) == sn.id && Some(r.value.created) == p.timeCreated
            && p.diskSizeGB.Some? && r.value.sizeBytes == p.diskSizeGB.value * 1073741824
            && p.provisioningState.Some? && (r.value.ready <==> EqualFold(p.provisioningState.value, "Succeeded"))
            && (sourceVolumeId != "" ==> r.value.sourceVolumeId == sourceVolumeId)
            && (sourceVolumeId == "" && p.sourceResourceId.Some? ==> r.value.sourceVolumeId == p.sourceResourceId.value)
            && (sourceVolumeId == "" && p.sourceResourceId.None? ==> r.value.sourceVolumeId == ""))
      && (r.Err? ==> r.error == BadSnapshot || r.error == Panic)
    ensures GenerateCSISnapshot(sourceVolumeId, None) == Err(BadSnapshot)
    ensures GenerateCSISnapshot(sourceVolumeId, Some(sn.(properties := None))) == Err(BadSnapshot)
  {
    assert Lower("Succeeded") == "succeeded";
  }

  /** The filter of the listing loop. */
  predicate Wanted(sourceVolumeId: string, snapshot: Option<Snapshot>) {
    (sourceVolumeId != "" && sourceVolumeId == GetSourceVolumeID(snapshot)) || sourceVolumeId == ""
  }

  /** Without a volume to filter by every snapshot is listed, otherwise those taken from it. */
  lemma WantedIff(sourceVolumeId: string, sn: Option<Snapshot>)
    ensures Wanted("", sn)
    ensures sourceVolumeId != "" ==>
      (Wanted(sourceVolumeId, sn) <==>
         exists id, p :: sn == Some(Snapshot(id, Some(p))) && p.sourceResourceId == Some(sourceVolumeId))
  {
    if sourceVolumeId != "" && Wanted(sourceVolumeId, sn) {
      assert sn == Some(Snapshot(sn.value.id, Some(sn.value.properties.value)));
    }
  }

  type Listing = seq<Option<Snapshot>>

  /** Every snapshot that the filter lets through can be rendered. */
  predicate WellFormed(sourceVolumeId: string, snapshots: Listing) {
    forall i :: 0 <= i < |snapshots| && Wanted(sourceVolumeId, snapshots[i]) ==>
      GenerateCSISnapshot(sourceVolumeId, snapshots[i]).Ok?
  }

  /** The whole filtered listing, in order. */
  function Filtered(sourceVolumeId: string, snapshots: Listing): seq<CsiSnapshot>
    requires WellFormed(sourceVolumeId, snapshots)
  {
    if snapshots == [] then []
    else
      var last := snapshots[|snapshots| - 1];
      Filtered(sourceVolumeId, snapshots[..|snapshots| - 1])
      + if Wanted(sourceVolumeId, last) then [GenerateCSISnapshot(sourceVolumeId, last).value] else []
  }

  lemma WellFormedParts(sourceVolumeId: string, a: Listing, b: Listing)
    ensures WellFormed(sourceVolumeId, a + b) <==> WellFormed(sourceVolumeId, a) && WellFormed(sourceVolumeId, b)
  {
    assert forall i :: 0 <= i < |a| ==> (a + b)[i] == a[i];
    assert forall i :: 0 <= i < |b| ==> (a + b)[|a| + i] == b[i];
  }

  /** What one more snapshot adds. */
  lemma FilteredSnoc(sourceVolumeId: string, a: Listing, last: Option<Snapshot>)
    requires WellFormed(sourceVolumeId, a)
    requires Wanted(sourceVolumeId, last) ==> GenerateCSISnapshot(sourceVolumeId, last).Ok?
    ensures WellFormed(sourceVolumeId, a + [last])
    ensures Filtered(sourceVolumeId, a + [last])
         == Filtered(sourceVolumeId, a)
            + if Wanted(sourceVolumeId, last) then [GenerateCSISnapshot(sourceVolumeId, last).value] else []
  {
    WellFormedParts(sourceVolumeId, a, [last]);
    assert (a + [last])[..|a|] == a;
  }

  lemma {:induction false} FilteredConcat(sourceVolumeId: string, a: Listing, b: Listing)
    requires WellFormed(sourceVolumeId, a) && WellFormed(sourceVolumeId, b)
    ensures WellFormed(sourceVolumeId, a + b)
    ensures Filtered(sourceVolumeId, a + b) == Filtered(sourceVolumeId, a) + Filtered(sourceVolumeId, b)
  {
    if b == [] {
      assert a + b == a;
    } else {
      var b', last := b[..|b| - 1], b[|b| - 1];
      assert b == b' + [last] && a + b == (a + b') + [last];
      WellFormedParts(sourceVolumeId, b', [last]);
      FilteredConcat(sourceVolumeId, a, b');
      FilteredSnoc(sourceVolumeId, b', last);
      FilteredSnoc(sourceVolumeId, a + b', last);
    }
  }

  /** Where a request starts, or why it is refused. */
  function StartOf(req: Request, total: nat): Result<nat, Error> {
    if req.startingToken == "" then Ok(0)
    else
      var parsed := Atoi(req.startingToken);
      if parsed.None? then Err(BadToken)
      else if parsed.value >= total then Err(TokenTooLarge)
      else if parsed.value < 0 then Err(NegativeToken)
      else Ok(parsed.value)
  }

  function Limit(req: Request, remaining: nat): nat {
    if 0 < req.maxEntries < remaining then req.maxEntries else remaining
  }

  /** Where a page that may take `count` more entries stops scanning. */
  function PageEnd(sourceVolumeId: string, snapshots: Listing, i: nat, count: nat): (end: nat)
    requires i <= |snapshots|
    ensures i <= end <= |snapshots|
    ensures i < |snapshots| && count > 0 ==> i < end
    decreases |snapshots| - i
  {
    if i == |snapshots| || count == 0 then i
    else PageEnd(sourceVolumeId, snapshots, i + 1, if Wanted(sourceVolumeId, snapshots[i]) then count - 1 else count)
  }

  lemma SliceWellFormed(sourceVolumeId: string, snapshots: Listing, i: nat, j: nat)
    requires WellFormed(sourceVolumeId, snapshots) && i <= j <= |snapshots|
    ensures WellFormed(sourceVolumeId, snapshots[i..j])
  {
    assert forall k :: 0 <= k < j - i ==> snapshots[i..j][k] == snapshots[i + k];
  }

  lemma SliceSnoc(sourceVolumeId: string, snapshots: Listing, from: nat, i: nat)
    requires from <= i < |snapshots| && WellFormed(sourceVolumeId, snapshots[from..i])
    requires Wanted(sourceVolumeId, snapshots[i]) ==> GenerateCSISnapshot(sourceVolumeId, snapshots[i]).Ok?
    ensures WellFormed(sourceVolumeId, snapshots[from..i + 1])
    ensures Filtered(sourceVolumeId, snapshots[from..i + 1])
         == Filtered(sourceVolumeId, snapshots[from..i])
            + if Wanted(sourceVolumeId, snapshots[i])
              then [GenerateCSISnapshot(sourceVolumeId, snapshots[i]).value] else []
  {
    FilteredSnoc(sourceVolumeId, snapshots[from..i], snapshots[i]);
    assert snapshots[from..i + 1] == snapshots[from..i] + [snapshots[i]];
  }

  function EndOf(req: Request, snapshots: Listing, start: nat): (end: nat)
    requires start <= |snapshots|
    ensures start <= end <= |snapshots| && (start < |snapshots| ==> start < end)
  {
    PageEnd(req.sourceVolumeId, snapshots, start, Limit(req, |snapshots| - start))
  }

  /** The page of a well-formed listing from a given start: the filtered part of one stretch of it,
      and where that stretch ends. */
  function PageFrom(req: Request, snapshots: Listing, start: nat): Response
    requires WellFormed(req.sourceVolumeId, snapshots) && start <= |snapshots|
  {
    var end := EndOf(req, snapshots, start);
    SliceWellFormed(req.sourceVolumeId, snapshots, start, end);
    Response(Filtered(req.sourceVolumeId, snapshots[start..end]), Itoa(end))
  }

  /** The i-th snapshot is the first from `from` on that is wanted and cannot be rendered. */
  ghost predicate FirstBroken(sourceVolumeId: string, snapshots: Listing, from: nat, i: nat) {
    && from <= i < |snapshots| && WellFormed(sourceVolumeId, snapshots[from..i])
    && Wanted(sourceVolumeId, snapshots[i]) && GenerateCSISnapshot(sourceVolumeId, snapshots[i]).Err?
  }

  /** A page is answered exactly when the stretch from `from` to `end` that it takes can be rendered;
      otherwise the error is that of the first snapshot of the stretch that cannot. */
  ghost predicate Answers(sourceVolumeId: string, snapshots: Listing, from: nat, end: nat, r: Result<Response, Error>)
    requires from <= end <= |snapshots|
  {
    if WellFormed(sourceVolumeId, snapshots[from..end])
    then r == Ok(Response(Filtered(sourceVolumeId, snapshots[from..end]), Itoa(end)))
    else exists i :: 0 <= i < end && FirstBroken(sourceVolumeId, snapshots, from, i)
           && r == Err(GenerateCSISnapshot(sourceVolumeId, snapshots[i]).error)
  }

  /** The answer in terms of the token alone: no token begins at the first snapshot, a token that is a
      position begins there, and any other is refused for its reason. At most MaxEntries snapshots
      are taken, all that are left if it is not positive or more than that. */
  ghost predicate AnswersRequest(req: Request, snapshots: Listing, r: Result<Response, Error>) {
    if req.startingToken == "" then AnswersFrom(req, snapshots, 0, r)
    else
      match Atoi(req.startingToken)
      case None => r == Err(BadToken)
      case Some(n) =>
        if n >= |snapshots| then r == Err(TokenTooLarge)
        else if n < 0 then r == Err(NegativeToken)
        else AnswersFrom(req, snapshots, n, r)
  }

  ghost predicate AnswersFrom(req: Request, snapshots: Listing, start: nat, r: Result<Response, Error>)
    requires start <= |snapshots|
  {
    var left := |snapshots| - start;
    var most := if req.maxEntries <= 0 || req.maxEntries > left then left else req.maxEntries;
    Answers(req.sourceVolumeId, snapshots, start, PageEnd(req.sourceVolumeId, snapshots, start, most), r)
  }

  /** GetEntriesAndNextToken; a nil request is None. */
  method GetEntriesAndNextToken(request: Option<Request>, snapshots: Listing) returns (r: Result<Response, Error>)
    ensures request.None? ==> r == Err(NilRequest)
    ensures request.Some? ==> AnswersRequest(request.value, snapshots, r)
  {
    if request.None? { return Err(NilRequest); }
    var req := request.value;
    var started := StartOf(req, |snapshots|);
    if started.Err? { return Err(started.error); }
    r := ListFrom(req, snapshots, started.value);
  }

  /** The pages of a walk are such answers. */
  lemma PageAnswers(req: Request, snapshots: Listing, r: Result<Response, Error>)
    requires WellFormed(req.sourceVolumeId, snapshots) && StartOf(req, |snapshots|).Ok?
    requires AnswersRequest(req, snapshots, r)
    ensures r == Ok(PageFrom(req, snapshots, StartOf(req, |snapshots|).value))
  {
    var start := StartOf(req, |snapshots|).value;
    SliceWellFormed(req.sourceVolumeId, snapshots, start, EndOf(req, snapshots, start));
  }

  /** The listing loop and what follows it. */
  method ListFrom(req: Request, snapshots: Listing, from: nat) returns (r: Result<Response, Error>)
    requires from <= |snapshots|
    ensures AnswersFrom(req, snapshots, from, r)
  {
    var scanned, start := Scan(req.sourceVolumeId, snapshots, from, Limit(req, |snapshots| - from));
    if scanned.Err? {
      StretchFails(req.sourceVolumeId, snapshots, from, start, EndOf(req, snapshots, from));
      return Err(scanned.error);
    }
    var nextToken := if start < |snapshots| then start else |snapshots|;
    r := Ok(Response(scanned.value, Itoa(nextToken)));
  }

  method Scan(src: string, snapshots: Listing, from: nat, maxEntries: nat)
    returns (r: Result<seq<CsiSnapshot>, Error>, start: nat)
    requires from <= |snapshots|
    ensures var end := PageEnd(src, snapshots, from, maxEntries);
      && (r.Ok? ==>
            && start == end && WellFormed(src, snapshots[from..start])
            && r.value == Filtered(src, snapshots[from..start]))
      && (r.Err? ==>
            && start < end && FirstBroken(src, snapshots, from, start)
            && r.error == GenerateCSISnapshot(src, snapshots[start]).error)
  {
    ghost var end := PageEnd(src, snapshots, from, maxEntries);
    var entries: seq<CsiSnapshot>, count := [], 0;
    start := from;
    while start < |snapshots| && count < maxEntries
      invariant from <= start <= |snapshots| && count <= maxEntries
      invariant WellFormed(src, snapshots[from..start])
      invariant entries == Filtered(src, snapshots[from..start])
      invariant end == PageEnd(src, snapshots, start, maxEntries - count)
    {
      PageEndStep(src, snapshots, start, maxEntries - count);
      if Wanted(src, snapshots[start]) {
        var csi := GenerateCSISnapshot(src, snapshots[start]);
        if csi.Err? { return Err(csi.error), start; }
        SliceSnoc(src, snapshots, from, start);
        entries, count := entries + [csi.value], count + 1;
      } else {
        SliceSnoc(src, snapshots, from, start);
      }
      start := start + 1;
    }
    r := Ok(entries);
  }

  lemma PageEndStep(sourceVolumeId: string, snapshots: Listing, i: nat, count: nat)
    requires i < |snapshots| && count > 0
    ensures i < PageEnd(sourceVolumeId, snapshots, i, count)
    ensures PageEnd(sourceVolumeId, snapshots, i, count)
         == PageEnd(sourceVolumeId, snapshots, i + 1, if Wanted(sourceVolumeId, snapshots[i]) then count - 1 else count)
  {
  }

  lemma StretchFails(sourceVolumeId: string, snapshots: Listing, from: nat, i: nat, end: nat)
    requires i < end <= |snapshots| && FirstBroken(sourceVolumeId, snapshots, from, i)
    ensures !WellFormed(sourceVolumeId, snapshots[from..end])
  {
    assert snapshots[from..end][i - from] == snapshots[i];
  }

  // ---------------------------------------------------------------- pages and walks

  lemma {:induction false} PageSize(sourceVolumeId: string, snapshots: Listing, i: nat, count: nat)
    requires WellFormed(sourceVolumeId, snapshots) && i <= |snapshots|
    ensures var end := PageEnd(sourceVolumeId, snapshots, i, count);
      && WellFormed(sourceVolumeId, snapshots[i..end])
      && |Filtered(sourceVolumeId, snapshots[i..end])| <= count
      && (end < |snapshots| ==> |Filtered(sourceVolumeId, snapshots[i..end])| == count)
    decreases |snapshots| - i
  {
    var end := PageEnd(sourceVolumeId, snapshots, i, count);
    SliceWellFormed(sourceVolumeId, snapshots, i, end);
    if i == |snapshots| || count == 0 {
      assert snapshots[i..end] == [];
    } else {
      var wanted := Wanted(sourceVolumeId, snapshots[i]);
      PageSize(sourceVolumeId, snapshots, i + 1, if wanted then count - 1 else count);
      SliceCons(sourceVolumeId, snapshots, i, end);
    }
  }

  lemma SliceCons(sourceVolumeId: string, snapshots: Listing, i: nat, end: nat)
    requires WellFormed(sourceVolumeId, snapshots) && i < end <= |snapshots|
    ensures WellFormed(sourceVolumeId, snapshots[i..end]) && WellFormed(sourceVolumeId, snapshots[i + 1..end])
    ensures |Filtered(sourceVolumeId, snapshots[i..end])|
         == |Filtered(sourceVolumeId, snapshots[i + 1..end])| + if Wanted(sourceVolumeId, snapshots[i]) then 1 else 0
  {
    SliceWellFormed(sourceVolumeId, snapshots, i, i);
    SliceWellFormed(sourceVolumeId, snapshots, i + 1, end);
    SliceSnoc(sourceVolumeId, snapshots, i, i);
    FilteredConcat(sourceVolumeId, snapshots[i..i + 1], snapshots[i + 1..end]);
    assert snapshots[i..end] == snapshots[i..i + 1] + snapshots[i + 1..end];
  }

  /** Feeding a token back starts the next page where the last one ended; the token of the last page
      is the list length, which no request accepts as a start. */
  lemma FollowToken(req: Request, snapshots: Listing, start: nat)
    requires WellFormed(req.sourceVolumeId, snapshots) && start <= |snapshots| <= MAX_INT
    ensures var token, end := PageFrom(req, snapshots, start).nextToken, EndOf(req, snapshots, start);
      && StartOf(req.(startingToken := token), |snapshots|)
           == (if end < |snapshots| then Ok(end) else Err(TokenTooLarge))
      && (token == Itoa(|snapshots|) <==> end == |snapshots|)
  {
    AtoiOfItoa(EndOf(req, snapshots, start));
    AtoiOfItoa(|snapshots|);
  }

  /** The pages that a client sees when it feeds each token back until it equals the list length. The
      distance of the token from the list length shrinks with every page. */
  function Walk(req: Request, snapshots: Listing): (pages: seq<Response>)
    requires WellFormed(req.sourceVolumeId, snapshots) && |snapshots| <= MAX_INT
    requires StartOf(req, |snapshots|).Ok?
    decreases |snapshots| - StartOf(req, |snapshots|).value
  {
    var start := StartOf(req, |snapshots|).value;
    var page := PageFrom(req, snapshots, start);
    FollowToken(req, snapshots, start);
    if page.nextToken == Itoa(|snapshots|) then [page]
    else [page] + Walk(req.(startingToken := page.nextToken), snapshots)
  }

  function Entries(pages: seq<Response>): seq<CsiSnapshot> {
    if pages == [] then [] else pages[0].entries + Entries(pages[1..])
  }

  /** Every page is within a positive MaxEntries. */
  ghost predicate Within(pages: seq<Response>, maxEntries: int) {
    maxEntries > 0 ==> forall i :: 0 <= i < |pages| ==> |pages[i].entries| <= maxEntries
  }

  /** Walking yields exactly the filtered listing from the start on: in order, each entry once, and
      no page exceeds a positive MaxEntries. */
  lemma {:induction false} WalkYieldsAll(req: Request, snapshots: Listing)
    requires WellFormed(req.sourceVolumeId, snapshots) && |snapshots| <= MAX_INT
    requires StartOf(req, |snapshots|).Ok?
    ensures var start := StartOf(req, |snapshots|).value;
      && WellFormed(req.sourceVolumeId, snapshots[start..])
      && Entries(Walk(req, snapshots)) == Filtered(req.sourceVolumeId, snapshots[start..])
      && Within(Walk(req, snapshots), req.maxEntries)
    decreases |snapshots| - StartOf(req, |snapshots|).value
  {
    var start := StartOf(req, |snapshots|).value;
    var page, end := PageFrom(req, snapshots, start), EndOf(req, snapshots, start);
    PageWithin(req, snapshots, start);
    var next := WalkUnfolds(req, snapshots);
    if end == |snapshots| {
      assert snapshots[start..] == snapshots[start..end];
      assert [page] == [page] + [];
      PrependPage(page, [], req.maxEntries);
    } else {
      WalkYieldsAll(next, snapshots);
      SliceWellFormed(req.sourceVolumeId, snapshots, start, end);
      WalkSplits(req.sourceVolumeId, snapshots, start, end);
      PrependPage(page, Walk(next, snapshots), req.maxEntries);
    }
  }

  lemma PageWithin(req: Request, snapshots: Listing, start: nat)
    requires WellFormed(req.sourceVolumeId, snapshots) && start <= |snapshots|
    ensures req.maxEntries > 0 ==> |PageFrom(req, snapshots, start).entries| <= req.maxEntries
  {
    PageSize(req.sourceVolumeId, snapshots, start, Limit(req, |snapshots| - start));
  }

  /** The first page of a walk, and the walk from the end of that page on. */
  lemma WalkUnfolds(req: Request, snapshots: Listing) returns (next: Request)
    requires WellFormed(req.sourceVolumeId, snapshots) && |snapshots| <= MAX_INT
    requires StartOf(req, |snapshots|).Ok?
    ensures next.sourceVolumeId == req.sourceVolumeId && next.maxEntries == req.maxEntries
    ensures var start := StartOf(req, |snapshots|).value;
      var page, end := PageFrom(req, snapshots, start), EndOf(req, snapshots, start);
      if end == |snapshots| then Walk(req, snapshots) == [page]
      else StartOf(next, |snapshots|) == Ok(end) && Walk(req, snapshots) == [page] + Walk(next, snapshots)
  {
    var start := StartOf(req, |snapshots|).value;
    FollowToken(req, snapshots, start);
    next := req.(startingToken := PageFrom(req, snapshots, start).nextToken);
  }

  lemma WalkSplits(sourceVolumeId: string, snapshots: Listing, start: nat, end: nat)
    requires start <= end <= |snapshots|
    requires WellFormed(sourceVolumeId, snapshots[start..end]) && WellFormed(sourceVolumeId, snapshots[end..])
    ensures WellFormed(sourceVolumeId, snapshots[start..])
    ensures Filtered(sourceVolumeId, snapshots[start..])
         == Filtered(sourceVolumeId, snapshots[start..end]) + Filtered(sourceVolumeId, snapshots[end..])
  {
    FilteredConcat(sourceVolumeId, snapshots[start..end], snapshots[end..]);
    assert snapshots[start..] == snapshots[start..end] + snapshots[end..];
  }

  lemma PrependPage(page: Response, pages: seq<Response>, maxEntries: int)
    requires Within(pages, maxEntries) && (maxEntries > 0 ==> |page.entries| <= maxEntries)
    ensures Within([page] + pages, maxEntries) && Entries([page] + pages) == page.entries + Entries(pages)
  {
    assert ([page] + pages)[1..] == pages;
  }

  /** A walk that begins without a token yields the whole filtered listing. */
  lemma WalkFromTheBeginning(req: Request, snapshots: Listing)
    requires WellFormed(req.sourceVolumeId, snapshots) && |snapshots| <= MAX_INT && req.startingToken == ""
    ensures StartOf(req, |snapshots|).Ok?
    ensures Entries(Walk(req, snapshots)) == Filtered(req.sourceVolumeId, snapshots)
    ensures Within(Walk(req, snapshots), req.maxEntries)
  {
    WalkYieldsAll(req, snapshots);
    assert snapshots[0..] == snapshots;
  }

  /** A page without a positive MaxEntries takes everything that is left. */
  lemma UnlimitedPageTakesAll(req: Request, snapshots: Listing, start: nat)
    requires start <= |snapshots| && req.maxEntries <= 0
    ensures EndOf(req, snapshots, start) == |snapshots|
  {
    EnoughIsAll(req.sourceVolumeId, snapshots, start, |snapshots| - start);
  }

  lemma {:induction false} EnoughIsAll(sourceVolumeId: string, snapshots: Listing, i: nat, count: nat)
    requires i <= |snapshots| && count >= |snapshots| - i
    ensures PageEnd(sourceVolumeId, snapshots, i, count) == |snapshots|
    decreases |snapshots| - i
  {
    if i < |snapshots| {
      EnoughIsAll(sourceVolumeId, snapshots, i + 1, if Wanted(sourceVolumeId, snapshots[i]) then count - 1 else count);
    }
  }
}
