/** The LUN-collision input: GetElementsInArray1NotInArray2 (pkg/util/util.go) and
    getOccupiedLunsFromNode (controllerserver.go). */
module OccupiedLuns {
  import opened Wrappers
  import opened LunAllocator

  ghost predicate Sorted(s: seq<int>) {
    forall i, j :: 0 <= i < j < |s| ==> s[i] <= s[j]
  }

  function Insert(x: int, s: seq<int>): seq<int> {
    if s == [] || x <= s[0] then [x] + s else [s[0]] + Insert(x, s[1..])
  }

  /** What sort.Ints leaves in the slice. */
  function Sort(s: seq<int>): seq<int> {
    if s == [] then [] else Insert(s[0], Sort(s[1..]))
  }

  lemma SortedCons(x: int, s: seq<int>)
    requires Sorted(s) && forall y :: y in s ==> x <= y
    ensures Sorted([x] + s)
  {
    var r := [x] + s;
    forall i, j | 0 <= i < j < |r| ensures r[i] <= r[j] {
      assert r[j] == s[j - 1] && s[j - 1] in s;
    }
  }

  lemma SortedHead(s: seq<int>)
    requires Sorted(s) && s != []
    ensures Sorted(s[1..]) && (forall y :: y in s[1..] ==> s[0] <= y)
    ensures multiset(s) == multiset{s[0]} + multiset(s[1..])
  {
    assert s == [s[0]] + s[1..];
  }

  lemma {:induction false} InsertElements(x: int, s: seq<int>)
    ensures multiset(Insert(x, s)) == multiset{x} + multiset(s)
  {
    if s != [] && x > s[0] {
      InsertElements(x, s[1..]);
      assert s == [s[0]] + s[1..];
    }
  }

  lemma {:induction false} InsertSorted(x: int, s: seq<int>)
    requires Sorted(s)
    ensures Sorted(Insert(x, s)) && multiset(Insert(x, s)) == multiset{x} + multiset(s)
  {
    InsertElements(x, s);
    if s == [] {
    } else if x <= s[0] {
      SortedHead(s);
      SortedCons(x, s);
    } else {
      SortedHead(s);
      InsertSorted(x, s[1..]);
      var r := Insert(x, s[1..]);
      forall y | y in r ensures s[0] <= y { assert y in multiset(r); }
      SortedCons(s[0], r);
    }
  }

  lemma {:induction false} SortSorts(s: seq<int>)
    ensures Sorted(Sort(s)) && multiset(Sort(s)) == multiset(s)
  {
    if s != [] {
      SortSorts(s[1..]);
      InsertSorted(s[0], Sort(s[1..]));
      assert s == [s[0]] + s[1..];
    }
  }

  lemma {:induction false} SortOfSorted(s: seq<int>)
    requires Sorted(s)
    ensures Sort(s) == s
  {
    if s != [] {
      SortOfSorted(s[1..]);
      assert s == [s[0]] + s[1..];
    }
  }

  /** sort.Ints. */
  method SortInts(a: array<int>)
    modifies a
    ensures a[..] == Sort(old(a[..]))
  {
    var sorted := Sort(a[..]);
    SortSorts(a[..]);
    assert |sorted| == a.Length by { assert |multiset(sorted)| == |multiset(a[..])|; }
    for i := 0 to a.Length
      invariant a[..i] == sorted[..i]
    {
      a[i] := sorted[i];
    }
  }

  /** The two-pointer merge, as a function of the two slices. */
  function MergeDifference(s: seq<int>, t: seq<int>): seq<int>
    decreases |s| + |t|
  {
    if s == [] || t == [] then s
    else if s[0] < t[0] then [s[0]] + MergeDifference(s[1..], t)
    else if s[0] > t[0] then MergeDifference(s, t[1..])
    else MergeDifference(s[1..], t[1..])
  }

  /** The two loops of GetElementsInArray1NotInArray2, after the sorts. */
  method Merge(s: seq<int>, t: seq<int>) returns (result: seq<int>)
    ensures result == MergeDifference(s, t)
  {
    var i, j := 0, 0;
    result := [];
    while i < |s| && j < |t|
      invariant 0 <= i <= |s| && 0 <= j <= |t|
      invariant MergeDifference(s, t) == result + MergeDifference(s[i..], t[j..])
    {
      assert s[i..][1..] == s[i + 1..] && t[j..][1..] == t[j + 1..];
      if s[i] < t[j] {
        result := result + [s[i]];
        i := i + 1;
      } else if s[i] > t[j] {
        j := j + 1;
      } else {
        i, j := i + 1, j + 1;
      }
    }
    while i < |s|
      invariant 0 <= i <= |s|
      invariant MergeDifference(s, t) == result + s[i..]
    {
      result := result + [s[i]];
      i := i + 1;
    }
  }

  method GetElementsInArray1NotInArray2(arr1: array<int>, arr2: array<int>) returns (result: seq<int>)
    modifies arr1, arr2
    ensures result == MergeDifference(Sort(old(arr1[..])), Sort(old(arr2[..])))
    ensures arr1[..] == Sort(old(arr1[..])) && arr2[..] == Sort(old(arr2[..]))
  {
    SortInts(arr1);
    SortSorts(old(arr1[..]));
    SortOfSorted(arr1[..]);
    SortInts(arr2);
    result := Merge(arr1[..], arr2[..]);
  }

  lemma {:induction false} MergeElements(s: seq<int>, t: seq<int>)
    requires Sorted(s) && Sorted(t)
    ensures multiset(MergeDifference(s, t)) == multiset(s) - multiset(t)
    decreases |s| + |t|
  {
    if s != [] && t != [] {
      SortedHead(s);
      SortedHead(t);
      if s[0] < t[0] {
        MergeElements(s[1..], t);
        assert s[0] !in multiset(t);
      } else if s[0] > t[0] {
        MergeElements(s, t[1..]);
        assert t[0] !in multiset(s);
      } else {
        MergeElements(s[1..], t[1..]);
      }
    }
  }

  /** On sorted input the merge is exactly the multiset difference, in order. */
  lemma {:induction false} MergeIsDifference(s: seq<int>, t: seq<int>)
    requires Sorted(s) && Sorted(t)
    ensures Sorted(MergeDifference(s, t))
    ensures multiset(MergeDifference(s, t)) == multiset(s) - multiset(t)
    decreases |s| + |t|
  {
    MergeElements(s, t);
    if s != [] && t != [] {
      SortedHead(s);
      SortedHead(t);
      if s[0] < t[0] {
        MergeIsDifference(s[1..], t);
        var r := MergeDifference(s[1..], t);
        forall y | y in r ensures s[0] <= y {
          assert y in multiset(r);
          assert y in multiset(s[1..]);
        }
        SortedCons(s[0], r);
      } else if s[0] > t[0] {
        MergeIsDifference(s, t[1..]);
      } else {
        MergeIsDifference(s[1..], t[1..]);
      }
    }
  }

  /** The slice-level statement, for unsorted inputs. */
  lemma DifferenceOfArrays(s: seq<int>, t: seq<int>)
    ensures var r := MergeDifference(Sort(s), Sort(t));
      Sorted(r) && multiset(r) == multiset(s) - multiset(t)
  {
    SortSorts(s);
    SortSorts(t);
    MergeIsDifference(Sort(s), Sort(t));
  }

  ghost function Elements(s: seq<int>): set<int> { set x | x in s }

  /** The name promises a set difference. The result is one exactly when no common element
      occurs more often in the first array than in the second. */
  lemma SetDifferenceIff(s: seq<int>, t: seq<int>)
    ensures Elements(MergeDifference(Sort(s), Sort(t))) == Elements(s) - Elements(t)
       <==> forall x :: x in s && x in t ==> multiset(s)[x] <= multiset(t)[x]
  {
    DifferenceOfArrays(s, t);
    var r := MergeDifference(Sort(s), Sort(t));
    assert forall x :: x in r <==> multiset(r)[x] > 0;
    assert forall x :: x in s <==> multiset(s)[x] > 0;
    assert forall x :: x in t <==> multiset(t)[x] > 0;
    if x :| x in s && x in t && multiset(s)[x] > multiset(t)[x] {
      assert x in Elements(r);
      assert x !in Elements(s) - Elements(t);
    } else {
      assert forall x :: x in Elements(r) <==> x in Elements(s) - Elements(t);
    }
  }

  lemma {:induction false} DistinctCounts(s: seq<int>, x: int)
    requires Distinct(s)
    ensures multiset(s)[x] <= 1
  {
    if s != [] {
      DistinctCounts(s[1..], x);
      assert s == [s[0]] + s[1..];
    }
  }

  /** In particular whenever the first array has no duplicates. */
  lemma SetDifferenceWhenDistinct(s: seq<int>, t: seq<int>)
    requires Distinct(s)
    ensures Elements(MergeDifference(Sort(s), Sort(t))) == Elements(s) - Elements(t)
  {
    forall x | x in s && x in t ensures multiset(s)[x] <= multiset(t)[x] {
      DistinctCounts(s, x);
      assert multiset(t)[x] > 0;
    }
    SetDifferenceIff(s, t);
  }

  lemma DuplicatesSurvive()
    ensures 3 in MergeDifference(Sort([3, 3]), Sort([3]))
  {
    DifferenceOfArrays([3, 3], [3]);
    var r := MergeDifference(Sort([3, 3]), Sort([3]));
    assert multiset(r)[3] == 1;
  }

  // ---------------------------------------------------------------- the collision check

  /** getOccupiedLunsFromNode: `attached` and `onNode` are what the two queries return, None for a failed one. */
  method GetOccupiedLunsFromNode(checkCollision: bool, throttled: bool, attached: Option<array<int>>,
                                 onNode: Option<array<int>>)
    returns (occupied: seq<int>)
    modifies if attached.Some? then {attached.value} else {}
    modifies if onNode.Some? then {onNode.value} else {}
    ensures occupied ==
      if checkCollision && !throttled && attached.Some? && onNode.Some? && old(attached.value[..]) != []
      then MergeDifference(Sort(old(attached.value[..])), Sort(old(onNode.value[..])))
      else []
  {
    occupied := [];
    if checkCollision && !throttled && attached.Some? && attached.value.Length > 0 && onNode.Some? {
      occupied := GetElementsInArray1NotInArray2(attached.value, onNode.value);
    }
  }

  /** A recorded LUN that the helper removed is one that the VM reported. */
  lemma RecordedIsUsed(attached: seq<int>, onNode: seq<int>, view: View, lun: int)
    requires Elements(onNode) <= ViewLuns(view)
    requires InRange(lun) && lun in attached
    ensures lun in UsedLuns(view, MergeDifference(Sort(attached), Sort(onNode)))
  {
    DifferenceOfArrays(attached, onNode);
    assert multiset(attached)[lun] > 0;
    if multiset(onNode)[lun] == 0 {
      assert lun in multiset(MergeDifference(Sort(attached), Sort(onNode)));
    } else {
      assert lun in Elements(onNode);
    }
  }

  /** With the check active, the LUNs given to a batch avoid every LUN recorded in a
      VolumeAttachment as well as every LUN on the VM, although the helper removed the VM's own
      LUNs first: whatever it removed is still on the VM when the batch is allocated. */
  lemma ChosenLunsAvoidBoth(attached: seq<int>, onNode: seq<int>, view: View, uri: string, batch: seq<string>)
    requires Elements(onNode) <= ViewLuns(view) && Distinct(batch)
    ensures var r := Allocate(view, uri, batch, MergeDifference(Sort(attached), Sort(onNode)));
      r.Assigned? ==> r.luns.Values !! Elements(attached) + ViewLuns(view)
  {
    var occupied := MergeDifference(Sort(attached), Sort(onNode));
    var r := Allocate(view, uri, batch, occupied);
    if r.Assigned? && batch != [] {
      var used := UsedLuns(view, occupied);
      AssignedSmallest(used, batch);
      forall l | InRange(l) && l in attached ensures l in used {
        RecordedIsUsed(attached, onNode, view, l);
      }
    }
  }
}
