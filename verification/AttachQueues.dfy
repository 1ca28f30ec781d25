/** The request queues as the code keeps them, a table of shared maps, carry out the queue steps of
    the attach/detach protocol. */
module AttachQueues {
  import opened RequestQueue
  import opened AttachProtocol
  import opened AttachInvariants

  /** The protocol's queues of one kind, node by node. */
  ghost function QueuesOf(s: State, kind: Kind): map<Node, map<Uri, CallId>> {
    map n | n in NodesOf(s, kind) :: QueueMap(s, QueueId(kind, n))
  }

  ghost function NodesOf(s: State, kind: Kind): set<Node> {
    set q | q in s.queues && q.kind == kind :: q.node
  }

  ghost predicate Represents(queues: Queues<CallId>, s: State, kind: Kind)
    reads queues, queues.diskMaps.Values
  {
    queues.Valid() && queues.All() == QueuesOf(s, kind)
  }

  /** What a step on queue q0 leaves in the queues. */
  ghost predicate QueuesAfter(s: State, q0: QueueId, contents: map<Uri, CallId>, s': State) {
    && s'.queues.Keys == s.queues.Keys + (if q0 in s'.queues then {q0} else {})
    && (forall q :: q != q0 ==> QueueMap(s', q) == QueueMap(s, q)) && QueueMap(s', q0) == contents
  }

  lemma QueuesOfAfter(s: State, q0: QueueId, contents: map<Uri, CallId>, s': State)
    requires QueuesAfter(s, q0, contents, s')
    ensures QueuesOf(s', q0.kind)
         == if q0 in s'.queues then QueuesOf(s, q0.kind)[q0.node := contents] else QueuesOf(s, q0.kind)
  {
    forall n ensures n in NodesOf(s', q0.kind) <==> n in NodesOf(s, q0.kind) || (n == q0.node && q0 in s'.queues) {
      assert QueueId(q0.kind, n) in s'.queues <==> QueueId(q0.kind, n) in s.queues || (n == q0.node && q0 in s'.queues);
    }
  }

  lemma InsertSteps(s: State, c: CallId)
    requires QueueInv(s) && CanLoad(s, c)
    ensures QueueInv(DoLoad(s, c)) && CanInsert(DoLoad(s, c), c)
    ensures var q, s' := QueueOf(s.calls[c].op), DoInsert(DoLoad(s, c), c);
      q in s'.queues && QueuesAfter(s, q, WithRequest(QueueMap(s, q), s.calls[c].op.uri, c), s')
  {
    var q := QueueOf(s.calls[c].op);
    LoadAdds(s, c);
    LoadRetires(s, q, DoLoad(s, c));
    LoadKeepsQueue(s, c);
    assert InsertsInto(DoLoad(s, c).calls[c], q);
    InsertQueues(DoLoad(s, c), c);
  }

  lemma DrainSteps(s: State, c: CallId)
    requires QueueInv(s) && CanDrain(s, c)
    ensures var q, s' := QueueOf(s.calls[c].op), DoDrain(s, c);
      && s'.queues.Keys == s.queues.Keys && QueuesAfter(s, q, map[], s')
      && (BatchRef(s'.calls[c].pc).Some? <==> q in s.queues)
      && Requests(s', BatchRef(s'.calls[c].pc)) == QueueMap(s, q)
  {
    DrainRecords(s, c);
    DrainRetires(s, c);
    if QueueOf(s.calls[c].op) in s.queues { DrainQueues(s, c); }
  }

  /** Inserting a request is the protocol's Load followed by its Insert. */
  method InsertAsSteps(queues: Queues<CallId>, ghost s: State, c: CallId, op: Op) returns (length: nat)
    requires QueueInv(s) && CanLoad(s, c) && s.calls[c].op == op && Represents(queues, s, QueueOf(op).kind)
    modifies queues, queues.diskMaps.Values
    ensures CanInsert(DoLoad(s, c), c)
    ensures Represents(queues, DoInsert(DoLoad(s, c), c), QueueOf(op).kind)
    ensures length == |QueueMap(DoInsert(DoLoad(s, c), c), QueueOf(op))|
  {
    InsertSteps(s, c);
    ghost var q, s' := QueueOf(op), DoInsert(DoLoad(s, c), c);
    QueuesOfAfter(s, q, WithRequest(QueueMap(s, q), op.uri, c), s');
    ContentsOf(queues, s, q);
    length := queues.Insert(op.uri, op.node, c);
    ContentsOf(queues, s', q);
  }

  lemma ContentsOf(queues: Queues<CallId>, s: State, q: QueueId)
    requires Represents(queues, s, q.kind)
    ensures queues.Contents(q.node) == QueueMap(s, q)
    ensures q.node in queues.diskMaps <==> q in s.queues
  {
    assert q.node in queues.All() <==> q.node in NodesOf(s, q.kind);
    assert q.node in queues.All() ==> queues.All()[q.node] == QueuesOf(s, q.kind)[q.node];
  }

  /** Handing the node's map over is the protocol's Drain: the caller gets the drained batch. */
  method DrainAsStep(queues: Queues<CallId>, ghost s: State, c: CallId, op: Op) returns (batch: RequestMap?<CallId>)
    requires QueueInv(s) && CanDrain(s, c) && s.calls[c].op == op && Represents(queues, s, QueueOf(op).kind)
    modifies queues
    ensures Represents(queues, DoDrain(s, c), QueueOf(op).kind)
    ensures BatchRef(DoDrain(s, c).calls[c].pc).None? <==> batch == null
    ensures batch != null ==> batch.requests == Requests(DoDrain(s, c), BatchRef(DoDrain(s, c).calls[c].pc))
    ensures batch != null ==> batch !in queues.diskMaps.Values
  {
    DrainSteps(s, c);
    QueuesOfAfter(s, QueueOf(op), map[], DoDrain(s, c));
    ContentsOf(queues, s, QueueOf(op));
    batch := queues.Clean(op.node);
  }
}
