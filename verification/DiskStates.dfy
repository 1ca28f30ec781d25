/** The table of disks being attached or detached (azure_controller_common.go), and the check
    by which DeleteManagedDisk consults it (azure_managedDiskController.go). */
module DiskStates {
  import opened GoStrings

  /** The table accepts any key: AttachDisk stores the pointer to the disk object it was given,
      DetachDisk the lower-cased name. */
  datatype Key = Pointer(address: int) | Name(name: string)

  /** A call enters or leaves the part in which it works on the VM. A detaching call hands the VM its
      whole batch, of lower-cased names, but stores an entry for its own disk only. */
  datatype Event =
    | AttachBegins(call: int, address: int, uri: string) | AttachEnds(call: int, address: int, uri: string)
    | DetachBegins(call: int, uri: string, batch: set<string>) | DetachEnds(call: int, uri: string)

  class Table {
    var states: map<Key, string>

    constructor ()
      ensures states == map[]
    {
      states := map[];
    }

    /** What the calls do to the table. */
    method Record(e: Event)
      modifies this
      ensures states == After(old(states), e)
    {
      match e
      case AttachBegins(_, address, _) => states := states[Pointer(address) := "attaching"];
      case AttachEnds(_, address, _) => states := states - {Pointer(address)};
      case DetachBegins(_, uri, _) => states := states[Name(Lower(uri)) := "detaching"];
      case DetachEnds(_, uri) => states := states - {Name(Lower(uri))};
    }

    /** A run of calls on a new table, then the check of DeleteManagedDisk on `uri`: it refuses exactly
        when a call for the disk has begun a detach and no call for it has ended one since. */
    method DeleteAfter(events: seq<Event>, uri: string) returns (refused: bool)
      requires states == map[]
      modifies this
      ensures refused <==> exists i :: OpenDetach(events, uri, i)
      ensures states == Run(events)
    {
      for i := 0 to |events|
        invariant states == Run(events[..i])
      {
        assert events[..i + 1][..i] == events[..i];
        Record(events[i]);
      }
      assert events[..|events|] == events;
      RefusedIff(events, uri);
      refused := Name(Lower(uri)) in states;
    }
  }

  function After(states: map<Key, string>, e: Event): map<Key, string> {
    match e
    case AttachBegins(_, address, _) => states[Pointer(address) := "attaching"]
    case AttachEnds(_, address, _) => states - {Pointer(address)}
    case DetachBegins(_, uri, _) => states[Name(Lower(uri)) := "detaching"]
    case DetachEnds(_, uri) => states - {Name(Lower(uri))}
  }

  /** The table after a run that began with an empty one. */
  function Run(events: seq<Event>): map<Key, string> {
    if events == [] then map[] else After(Run(events[..|events| - 1]), events[|events| - 1])
  }

  predicate Refused(events: seq<Event>, uri: string) { Name(Lower(uri)) in Run(events) }

  predicate Ends(e: Event, uri: string) { e.DetachEnds? && EqualFold(e.uri, uri) }

  /** The i-th event is that of a call for this disk that begins a detach, and no call for the disk
      ends one later. */
  ghost predicate OpenDetach(events: seq<Event>, uri: string, i: int) {
    && 0 <= i < |events| && events[i].DetachBegins? && EqualFold(events[i].uri, uri)
    && forall j :: i < j < |events| ==> !Ends(events[j], uri)
  }

  /** The deletion of a disk is refused exactly when a call for this disk has begun a detach and no
      call for it has ended one since; attaching a disk plays no part, nor do batches. */
  lemma {:induction false} RefusedIff(events: seq<Event>, uri: string)
    ensures Refused(events, uri) <==> exists i :: OpenDetach(events, uri, i)
  {
    if events != [] {
      var last := |events| - 1;
      var before, e := events[..last], events[last];
      RefusedIff(before, uri);
      if e.DetachBegins? && EqualFold(e.uri, uri) {
        assert OpenDetach(events, uri, last);
      } else {
        forall i ensures OpenDetach(events, uri, i) <==> OpenDetach(before, uri, i) && !Ends(e, uri) {
          if OpenDetach(events, uri, i) { assert events[last] == e; }
        }
      }
    }
  }

  // ---------------------------------------------------------------- what the check is for

  /** The i-th event begins a detach that has not ended. */
  ghost predicate OpenSection(events: seq<Event>, i: int) {
    && 0 <= i < |events| && events[i].DetachBegins?
    && forall j :: i < j < |events| ==> !(events[j].DetachEnds? && events[j].call == events[i].call)
  }

  ghost predicate Detaching(events: seq<Event>, uri: string, i: int) {
    OpenSection(events, i) && Lower(uri) in events[i].batch
  }

  /** The VM is being asked to detach the disk, in some call's batch. */
  ghost predicate InFlight(events: seq<Event>, uri: string) {
    exists i :: Detaching(events, uri, i)
  }

  /** An attach of the disk by this call has begun, and it has not ended. */
  ghost predicate Attaching(events: seq<Event>, uri: string, call: int) {
    exists i ::
      && 0 <= i < |events| && events[i].AttachBegins? && events[i].call == call && EqualFold(events[i].uri, uri)
      && forall j :: i < j < |events| ==> !(events[j].AttachEnds? && events[j].call == call)
  }

  /** What one more event does to the two. */
  lemma RefusedAfter(events: seq<Event>, e: Event, uri: string)
    ensures Refused(events + [e], uri) <==>
      (e.DetachBegins? && EqualFold(e.uri, uri)) || (Refused(events, uri) && !Ends(e, uri))
  {
    assert (events + [e])[..|events|] == events;
  }

  lemma InFlightAfter(events: seq<Event>, e: Event, uri: string)
    ensures e.DetachBegins? && Lower(uri) in e.batch ==> InFlight(events + [e], uri)
    ensures InFlight(events + [e], uri) ==> InFlight(events, uri) || (e.DetachBegins? && Lower(uri) in e.batch)
    ensures !e.DetachEnds? && InFlight(events, uri) ==> InFlight(events + [e], uri)
  {
    var later := events + [e];
    if e.DetachBegins? && Lower(uri) in e.batch {
      assert later[|events|] == e;
      assert Detaching(later, uri, |events|);
    }
    if i :| Detaching(later, uri, i) && i < |events| {
      assert forall j :: 0 <= j < |events| ==> later[j] == events[j];
      assert Detaching(events, uri, i);
    }
    if !e.DetachEnds? {
      if i :| Detaching(events, uri, i) {
        assert forall j :: 0 <= j < |events| ==> later[j] == events[j];
        assert Detaching(later, uri, i);
      }
    }
  }

  /** At this moment of the run, a disk that is being detached is protected. */
  ghost predicate ProtectedAt(events: seq<Event>, uri: string, n: int)
    requires 0 <= n <= |events|
  {
    InFlight(events[..n], uri) ==> Refused(events[..n], uri)
  }

  /** Event j exposes the disk: it begins a detach of it in the batch of a call for another disk while
      no entry for it stands, or ends a call for it while it is still in another open batch. */
  ghost predicate Exposes(events: seq<Event>, uri: string, j: int) {
    0 <= j < |events| &&
    var e := events[j];
    || (e.DetachBegins? && Lower(uri) in e.batch && !EqualFold(e.uri, uri) && !Refused(events[..j], uri))
    || (Ends(e, uri) && InFlight(events[..j + 1], uri))
  }

  /** A disk is protected throughout a run exactly when no event exposes it. */
  lemma ProtectedIff(events: seq<Event>, uri: string)
    ensures (forall n :: 0 <= n <= |events| ==> ProtectedAt(events, uri, n)) <==> forall j :: !Exposes(events, uri, j)
  {
    if j :| Exposes(events, uri, j) {
      ExposedNow(events, uri, j);
      assert !ProtectedAt(events, uri, j + 1);
    } else {
      forall n | 0 <= n <= |events| ensures ProtectedAt(events, uri, n) { ProtectedUntil(events, uri, n); }
    }
  }

  lemma ExposedNow(events: seq<Event>, uri: string, j: int)
    requires Exposes(events, uri, j)
    ensures InFlight(events[..j + 1], uri) && !Refused(events[..j + 1], uri)
  {
    assert events[..j + 1] == events[..j] + [events[j]];
    RefusedAfter(events[..j], events[j], uri);
    InFlightAfter(events[..j], events[j], uri);
  }

  lemma {:induction false} ProtectedUntil(events: seq<Event>, uri: string, n: nat)
    requires n <= |events| && forall j :: !Exposes(events, uri, j)
    ensures ProtectedAt(events, uri, n)
  {
    if n > 0 {
      ProtectedUntil(events, uri, n - 1);
      assert !Exposes(events, uri, n - 1);
      assert events[..n] == events[..n - 1] + [events[n - 1]];
      RefusedAfter(events[..n - 1], events[n - 1], uri);
      InFlightAfter(events[..n - 1], events[n - 1], uri);
    }
  }

  /** At this moment of the run, a refusal has a cause: the disk is being detached. */
  ghost predicate JustifiedAt(events: seq<Event>, uri: string, n: int)
    requires 0 <= n <= |events|
  {
    Refused(events[..n], uri) ==> InFlight(events[..n], uri)
  }

  /** Event j leaves a refusal without a cause: a call for the disk begins with a batch that does not
      hold it, or the last batch that holds it is done while the entry of another call for it stands. */
  ghost predicate Strays(events: seq<Event>, uri: string, j: int) {
    0 <= j < |events| &&
    var e := events[j];
    || (e.DetachBegins? && EqualFold(e.uri, uri) && Lower(uri) !in e.batch && !InFlight(events[..j], uri))
    || (e.DetachEnds? && !EqualFold(e.uri, uri) && Refused(events[..j], uri) && !InFlight(events[..j + 1], uri))
  }

  /** Refusals have a cause throughout a run exactly when no event strays. */
  lemma JustifiedIff(events: seq<Event>, uri: string)
    ensures (forall n :: 0 <= n <= |events| ==> JustifiedAt(events, uri, n)) <==> forall j :: !Strays(events, uri, j)
  {
    if j :| Strays(events, uri, j) {
      StrayNow(events, uri, j);
      assert !JustifiedAt(events, uri, j + 1);
    } else {
      forall n | 0 <= n <= |events| ensures JustifiedAt(events, uri, n) { JustifiedUntil(events, uri, n); }
    }
  }

  lemma StrayNow(events: seq<Event>, uri: string, j: int)
    requires Strays(events, uri, j)
    ensures Refused(events[..j + 1], uri) && !InFlight(events[..j + 1], uri)
  {
    assert events[..j + 1] == events[..j] + [events[j]];
    RefusedAfter(events[..j], events[j], uri);
    InFlightAfter(events[..j], events[j], uri);
  }

  lemma {:induction false} JustifiedUntil(events: seq<Event>, uri: string, n: nat)
    requires n <= |events| && forall j :: !Strays(events, uri, j)
    ensures JustifiedAt(events, uri, n)
  {
    if n > 0 {
      JustifiedUntil(events, uri, n - 1);
      assert !Strays(events, uri, n - 1);
      assert events[..n] == events[..n - 1] + [events[n - 1]];
      RefusedAfter(events[..n - 1], events[n - 1], uri);
      InFlightAfter(events[..n - 1], events[n - 1], uri);
    }
  }

  // ---------------------------------------------------------------- what goes wrong

  /** One call for disk a that also detaches b: b is in flight and can be deleted. */
  lemma BatchMateIsExposed(a: string, b: string)
    requires !EqualFold(a, b)
    ensures var events := [DetachBegins(1, a, {Lower(a), Lower(b)})];
      InFlight(events, b) && !Refused(events, b) && Refused(events, a)
  {
    var events := [DetachBegins(1, a, {Lower(a), Lower(b)})];
    assert [] + events == events;
    RefusedAfter([], events[0], b);
    RefusedAfter([], events[0], a);
    InFlightAfter([], events[0], b);
  }

  /** A call for a whose own request was served by another call, and which detaches b only. */
  lemma ServedCallStrays(a: string, b: string)
    requires !EqualFold(a, b)
    ensures var events := [DetachBegins(1, a, {Lower(b)})];
      Refused(events, a) && !InFlight(events, a)
  {
    var events := [DetachBegins(1, a, {Lower(b)})];
    assert [] + events == events;
    RefusedAfter([], events[0], a);
    InFlightAfter([], events[0], a);
  }

  /** Two detaches of one disk, from two nodes: after the first has ended, the second is still in
      flight and the disk can be deleted. */
  lemma SecondDetachIsForgotten(a: string)
    ensures var events := [DetachBegins(1, a, {Lower(a)}), DetachBegins(2, a, {Lower(a)}), DetachEnds(1, a)];
      InFlight(events, a) && !Refused(events, a)
  {
    var events := [DetachBegins(1, a, {Lower(a)}), DetachBegins(2, a, {Lower(a)}), DetachEnds(1, a)];
    assert Detaching(events, a, 1);
    assert events == events[..2] + [events[2]];
    RefusedAfter(events[..2], events[2], a);
  }

  /** An attach protects its disk at no moment: a disk is refused after an attach has begun exactly
      if it was refused before. */
  lemma AttachingDoesNotRefuse(events: seq<Event>, uri: string, call: int, address: int)
    ensures var later := events + [AttachBegins(call, address, uri)];
      Attaching(later, uri, call) && (Refused(later, uri) <==> Refused(events, uri))
  {
    var later := events + [AttachBegins(call, address, uri)];
    assert later[|events|] == AttachBegins(call, address, uri);
    RefusedAfter(events, AttachBegins(call, address, uri), uri);
  }
}
