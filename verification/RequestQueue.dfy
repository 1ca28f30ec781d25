/** The per-node request queues of controllerCommon (attachDiskMap, detachDiskMap): a shared table of
    mutable maps. AttachProtocol uses the same two operations, split into their atomic steps. */
module RequestQueue {

  /** A Go map, shared by reference. */
  class RequestMap<V> {
    var requests: map<string, V>

    constructor ()
      ensures requests == map[]
    {
      requests := map[];
    }
  }

  /** Insertion keeps the first request for a disk. */
  function WithRequest<V>(requests: map<string, V>, uri: string, value: V): map<string, V> {
    if uri in requests then requests else requests[uri := value]
  }

  class Queues<V> {
    var diskMaps: map<string, RequestMap<V>>

    /** Different nodes have different maps. */
    ghost predicate Valid()
      reads this
    {
      forall n, k :: n in diskMaps && k in diskMaps && diskMaps[n] == diskMaps[k] ==> n == k
    }

    ghost function Contents(node: string): map<string, V>
      reads this, diskMaps.Values
    {
      if node in diskMaps then diskMaps[node].requests else map[]
    }

    /** What is queued, node by node. */
    ghost function All(): map<string, map<string, V>>
      reads this, diskMaps.Values
    {
      map n | n in diskMaps :: diskMaps[n].requests
    }

    constructor ()
      ensures Valid() && diskMaps == map[]
    {
      diskMaps := map[];
    }

    /** The node's map, created when there is none. */
    method MapOf(node: string) returns (diskMap: RequestMap<V>)
      requires Valid()
      modifies this
      ensures Valid() && node in diskMaps && diskMap == diskMaps[node]
      ensures if node in old(diskMaps) then diskMaps == old(diskMaps)
              else diskMaps == old(diskMaps)[node := diskMap] && fresh(diskMap)
      ensures diskMap.requests == old(Contents(node)) && All() == old(All())[node := old(Contents(node))]
    {
      if node !in diskMaps {
        var created := new RequestMap<V>();
        diskMaps := diskMaps[node := created];
      }
      diskMap := diskMaps[node];
    }

    /** insertAttachDiskRequest / insertDetachDiskRequest: returns the length of the node's queue. */
    method Insert(uri: string, node: string, value: V) returns (length: nat)
      requires Valid()
      modifies this, if node in diskMaps then {diskMaps[node]} else {}
      ensures Valid() && node in diskMaps
      ensures if node in old(diskMaps) then diskMaps == old(diskMaps)
              else diskMaps == old(diskMaps)[node := diskMaps[node]] && fresh(diskMaps[node])
      ensures Contents(node) == WithRequest(old(Contents(node)), uri, value) && length == |Contents(node)|
      ensures All() == old(All())[node := WithRequest(old(Contents(node)), uri, value)]
    {
      var diskMap := MapOf(node);
      length := Add(uri, node, value);
    }

    /** Writes the request into the node's map, unless the disk is already queued. */
    method Add(uri: string, node: string, value: V) returns (length: nat)
      requires Valid() && node in diskMaps
      modifies diskMaps[node]
      ensures Contents(node) == WithRequest(old(Contents(node)), uri, value) && length == |Contents(node)|
      ensures All() == old(All())[node := Contents(node)]
    {
      var diskMap := diskMaps[node];
      if uri !in diskMap.requests {
        diskMap.requests := diskMap.requests[uri := value];
      }
      length := |diskMap.requests|;
    }

    /** cleanAttachDiskRequests / cleanDetachDiskRequests: hands the node's map over and installs an
        empty one. The handed-over map is no longer in the table. */
    method Clean(node: string) returns (drained: RequestMap?<V>)
      requires Valid()
      modifies this
      ensures Valid()
      ensures drained == if node in old(diskMaps) then old(diskMaps[node]) else null
      ensures drained != null ==> drained.requests == old(Contents(node)) && drained !in diskMaps.Values
      ensures diskMaps.Keys == old(diskMaps.Keys) && Contents(node) == map[]
      ensures All() == if drained == null then old(All()) else old(All())[node := map[]]
      ensures node in diskMaps ==> fresh(diskMaps[node])
      ensures forall n :: n in old(diskMaps) && n != node ==> diskMaps[n] == old(diskMaps[n])
    {
      if node !in diskMaps { return null; }
      drained := diskMaps[node];
      var empty := new RequestMap<V>();
      diskMaps := diskMaps[node := empty];
    }
  }

  /** A request that arrives after a drain lands in the new map: the drained batch stays what it was. */
  method DrainThenInsert<V>(queues: Queues<V>, node: string, uri: string, value: V) returns (batch: RequestMap?<V>)
    requires queues.Valid()
    modifies queues
    ensures queues.Valid()
    ensures batch != null ==> batch.requests == old(queues.Contents(node))
    ensures batch == null ==> old(queues.Contents(node)) == map[]
    ensures queues.Contents(node) == map[uri := value]
  {
    batch := queues.Clean(node);
    var length := queues.Insert(uri, node, value);
  }
}
