/** GetSourceDiskSize (controllerserver.go): following a cloned disk back to the disk it was
    copied from, with a bound on the depth. */
module SourceDisk {
  import opened Wrappers

  /** A disk as it is looked up: resource group and name. The subscription stays the first one. */
  datatype Key = Key(resourceGroup: string, name: string)

  datatype Creation = Fresh | CopyOf(sourceId: Option<string>)

  /** What one lookup yields: the client or the request fails, the properties are missing, or
      the disk. */
  datatype Lookup = Failed | NoProperties | Found(creation: Creation, sizeGB: Option<int>)

  /** The cloud, and how a source ID names the disk to look up next. */
  datatype World = World(disks: Key -> Lookup, parse: string -> Key)

  datatype Answer = Size(gb: int, disk: Key) | TooDeep | LookupFailed | PropertiesMissing | SizeMissing | Crash

  /** An answer and the lookups made for it. */
  datatype Search = Search(answer: Answer, asked: seq<Key>)

  function GetSourceDiskSize(w: World, disk: Key, curDepth: int, maxDepth: int): (r: Search)
    decreases maxDepth - curDepth + 1
  {
    if curDepth > maxDepth then Search(TooDeep, [])
    else
      match w.disks(disk)
      case Failed => Search(LookupFailed, [disk])
      case NoProperties => Search(PropertiesMissing, [disk])
      case Found(CopyOf(None), _) => Search(Crash, [disk])
      case Found(CopyOf(Some(id)), _) =>
        var rest := GetSourceDiskSize(w, w.parse(id), curDepth + 1, maxDepth);
        Search(rest.answer, [disk] + rest.asked)
      case Found(Fresh, None) => Search(SizeMissing, [disk])
      case Found(Fresh, Some(gb)) => Search(Size(gb, disk), [disk])
  }

  // ---------------------------------------------------------------- the copy chain, without a search

  function Parent(w: World, disk: Key): Option<Key> {
    match w.disks(disk)
    case Found(CopyOf(Some(id)), _) => Some(w.parse(id))
    case _ => None
  }

  /** The disk n copies back, if there is one. */
  function Ancestor(w: World, disk: Key, n: nat): Option<Key> {
    if n == 0 then Some(disk)
    else
      match Ancestor(w, disk, n - 1)
      case Some(a) => Parent(w, a)
      case None => None
  }

  /** What the end of a chain has to say. */
  predicate Ends(w: World, end: Key, answer: Answer) {
    match w.disks(end)
    case Failed => answer == LookupFailed
    case NoProperties => answer == PropertiesMissing
    case Found(CopyOf(None), _) => answer == Crash
    case Found(CopyOf(Some(_)), _) => false
    case Found(Fresh, None) => answer == SizeMissing
    case Found(Fresh, Some(gb)) => answer == Size(gb, end)
  }

  ghost predicate EndsAt(w: World, disk: Key, n: nat, answer: Answer) {
    Ancestor(w, disk, n).Some? && Ends(w, Ancestor(w, disk, n).value, answer)
  }

  lemma {:induction false} AncestorOfParent(w: World, disk: Key, n: nat)
    requires Parent(w, disk).Some?
    ensures Ancestor(w, disk, n + 1) == Ancestor(w, Parent(w, disk).value, n)
  {
    if n == 0 {
      assert Ancestor(w, disk, 0) == Some(disk);
    } else {
      AncestorOfParent(w, disk, n - 1);
    }
  }

  /** A chain is only as long as it is: beyond its first disk without a parent there is none. */
  lemma {:induction false} NoAncestorBeyond(w: World, disk: Key, n: nat, m: nat)
    requires n <= m && Ancestor(w, disk, n).None?
    ensures Ancestor(w, disk, m).None?
  {
    if n < m { NoAncestorBeyond(w, disk, n, m - 1); }
  }

  /** The lookups are the chain itself, disk by disk, and at most maxDepth - curDepth + 1 of them,
      on every graph of copies, cyclic ones included. */
  lemma {:induction false} LookupsBounded(w: World, disk: Key, curDepth: int, maxDepth: int)
    ensures var asked := GetSourceDiskSize(w, disk, curDepth, maxDepth).asked;
      && |asked| <= (if curDepth > maxDepth then 0 else maxDepth - curDepth + 1)
      && forall i: nat :: i < |asked| ==> Ancestor(w, disk, i) == Some(asked[i])
    decreases maxDepth - curDepth + 1
  {
    if curDepth <= maxDepth && Parent(w, disk).Some? {
      var parent := Parent(w, disk).value;
      LookupsBounded(w, parent, curDepth + 1, maxDepth);
      var asked := GetSourceDiskSize(w, disk, curDepth, maxDepth).asked;
      forall i: nat | i < |asked| ensures Ancestor(w, disk, i) == Some(asked[i]) {
        if i > 0 { AncestorOfParent(w, disk, i - 1); }
      }
    }
  }

  /** The search gives up exactly when the chain goes on beyond the depth. */
  lemma {:induction false} TooDeepIff(w: World, disk: Key, curDepth: int, maxDepth: int)
    ensures GetSourceDiskSize(w, disk, curDepth, maxDepth).answer == TooDeep <==>
      Ancestor(w, disk, if curDepth > maxDepth then 0 else maxDepth - curDepth + 1).Some?
    decreases maxDepth - curDepth + 1
  {
    if curDepth <= maxDepth {
      if Parent(w, disk).Some? {
        TooDeepIff(w, Parent(w, disk).value, curDepth + 1, maxDepth);
        AncestorOfParent(w, disk, maxDepth - curDepth);
      } else {
        assert Ancestor(w, disk, 0) == Some(disk);
        NoAncestorBeyond(w, disk, 1, maxDepth - curDepth + 1);
      }
    }
  }

  /** Every other answer is what the end of the copy chain says, exactly when that end is within
      the remaining depth; in particular a size is the origin's own, and the origin is the disk
      returned with it. */
  lemma {:induction false} AnswerIff(w: World, disk: Key, curDepth: int, maxDepth: int, answer: Answer)
    requires answer != TooDeep
    ensures GetSourceDiskSize(w, disk, curDepth, maxDepth).answer == answer <==>
      exists n: nat :: n <= maxDepth - curDepth && EndsAt(w, disk, n, answer)
    decreases maxDepth - curDepth + 1
  {
    if curDepth <= maxDepth {
      assert Ancestor(w, disk, 0) == Some(disk);
      if Parent(w, disk).Some? {
        var parent := Parent(w, disk).value;
        AnswerIff(w, parent, curDepth + 1, maxDepth, answer);
        if GetSourceDiskSize(w, disk, curDepth, maxDepth).answer == answer {
          var n: nat :| n <= maxDepth - curDepth - 1 && EndsAt(w, parent, n, answer);
          AncestorOfParent(w, disk, n);
          assert EndsAt(w, disk, n + 1, answer);
        }
        if n: nat :| n <= maxDepth - curDepth && EndsAt(w, disk, n, answer) {
          assert n > 0;
          AncestorOfParent(w, disk, n - 1);
          assert EndsAt(w, parent, n - 1, answer);
        }
      } else {
        if GetSourceDiskSize(w, disk, curDepth, maxDepth).answer == answer {
          assert EndsAt(w, disk, 0, answer);
        }
        if n: nat :| n <= maxDepth - curDepth && EndsAt(w, disk, n, answer) {
          if n > 0 { NoAncestorBeyond(w, disk, 1, n); }
        }
      }
    }
  }

  lemma {:induction false} CycleGoesOn(w: World, disk: Key, period: nat, n: nat)
    requires period > 0 && Ancestor(w, disk, period) == Some(disk)
    ensures Ancestor(w, disk, n).Some?
  {
    if n > period {
      CycleGoesOn(w, disk, period, n - period);
      AncestorsAdd(w, disk, period, n - period);
    } else if Ancestor(w, disk, n).None? {
      NoAncestorBeyond(w, disk, n, period);
    }
  }

  lemma {:induction false} AncestorsAdd(w: World, disk: Key, m: nat, n: nat)
    requires Ancestor(w, disk, m).Some?
    ensures Ancestor(w, disk, m + n) == Ancestor(w, Ancestor(w, disk, m).value, n)
  {
    if n > 0 {
      AncestorsAdd(w, disk, m, n - 1);
      assert Ancestor(w, disk, m + n - 1) == Ancestor(w, Ancestor(w, disk, m).value, n - 1);
    }
  }

  /** On a cycle of copies, entered anywhere along the chain, the search ends and reports the
      depth, whatever the depth is. */
  lemma CycleIsTooDeep(w: World, disk: Key, entry: nat, period: nat, curDepth: int, maxDepth: int)
    requires Ancestor(w, disk, entry).Some? && period > 0
    requires Ancestor(w, disk, entry + period) == Ancestor(w, disk, entry)
    ensures GetSourceDiskSize(w, disk, curDepth, maxDepth).answer == TooDeep
  {
    var n := if curDepth > maxDepth then 0 else maxDepth - curDepth + 1;
    var first := Ancestor(w, disk, entry).value;
    AncestorsAdd(w, disk, entry, period);
    CycleGoesOn(w, first, period, n);
    AncestorsAdd(w, disk, entry, n);
    if Ancestor(w, disk, n).None? { NoAncestorBeyond(w, disk, n, entry + n); }
    TooDeepIff(w, disk, curDepth, maxDepth);
  }

  /** Allowing more depth never changes an answer, it only replaces giving up. */
  lemma DeeperAgrees(w: World, disk: Key, curDepth: int, maxDepth: int, deeper: int)
    requires maxDepth <= deeper
    ensures var answer := GetSourceDiskSize(w, disk, curDepth, maxDepth).answer;
      answer == TooDeep || GetSourceDiskSize(w, disk, curDepth, deeper).answer == answer
  {
    var answer := GetSourceDiskSize(w, disk, curDepth, maxDepth).answer;
    if answer != TooDeep {
      AnswerIff(w, disk, curDepth, maxDepth, answer);
      AnswerIff(w, disk, curDepth, deeper, answer);
    }
  }
}
