/** The message ring with its waiter trees (module MessageQueues) refines the queue whose wake-ups module
    MessageProtocol follows: same messages in the same order, same waiters, same answers. */
module MessageMeaning {
  import opened Kernel
  import MessageQueues
  import P = MessageProtocol
  import opened TreeMeaning

  type Ring = MessageQueues.MessageQueue<P.Message>

  // The ring holds the messages of `s`, its trees stand for the waiters, and its history is that of `s`.
  ghost predicate Carries(mq: Ring, s: P.System)
    reads mq, mq.slots, mq.senders, mq.receivers
  {
    && mq.Valid() && mq.capacity as int == s.q.capacity && mq.Buffered() == s.q.buffer
    && StandsFor(mq.senders.nodes, mq.senders.key, s.q.senders, s.q.deadline)
    && StandsFor(mq.receivers.nodes, mq.receivers.key, s.q.receivers, s.q.deadline)
    && mq.sent == s.sent && mq.received == s.received
  }

  // A popped tree stands for the waiters without the least one.
  lemma PoppedSet(nodes: seq<Addr>, treeKey: R.Keys, nodes': seq<Addr>, w: Addr, s: set<Addr>, key: map<Addr, int>)
    requires StandsFor(nodes, treeKey, s, key) && MessageQueues.Popped(nodes, nodes', w) && T.NULL !in nodes
    ensures w == T.NULL <==> s == {}
    ensures s == {} ==> StandsFor(nodes', treeKey, s, key)
    ensures s != {} ==> w == Least(s, key) && StandsFor(nodes', treeKey, s - {w}, key)
  {
    HeadIsLeast(nodes, treeKey, s, key);
    PopSet(nodes, treeKey, s, key);
  }

  // What a send that finds room leaves behind, once the scheduler has woken the receiver.
  lemma SendLeaves(s: P.System, m: P.Message)
    requires P.Waiters(s) && |s.q.buffer| != s.q.capacity && P.Send(s, m).Next?
    ensures var r := P.Send(s, m);
      && r.status == P.Done && r.s.q.buffer == s.q.buffer + [m] && r.s.sent == s.sent + [m]
      && r.s.received == s.received
      && r.s.q == s.q.(buffer := r.s.q.buffer, receivers := r.s.q.receivers)
      && r.s.q.receivers == if s.q.receivers == {} then {} else s.q.receivers - {Least(s.q.receivers, s.q.deadline)}
  {
  }

  lemma ReceiveLeaves(s: P.System)
    requires P.Waiters(s) && s.q.buffer != [] && P.Receive(s).Next?
    ensures var r := P.Receive(s);
      && r.status == P.Done && r.s.q.buffer == s.q.buffer[1..] && r.s.received == s.received + [s.q.buffer[0]]
      && r.s.sent == s.sent && r.s.q == s.q.(buffer := r.s.q.buffer, senders := r.s.q.senders)
      && r.s.q.senders == if s.q.senders == {} then {} else s.q.senders - {Least(s.q.senders, s.q.deadline)}
  {
  }

  // `try_send` is `Send`: the same answer, and the waiter to wake is the one that `Send` wakes.
  method TrySend(mq: Ring, m: P.Message, ghost s: P.System) returns (r: MessageQueues.Sent)
    requires Carries(mq, s)
    modifies mq`len, mq`sent, mq.slots, mq.receivers
    ensures r.Full? <==> P.Send(s, m) == P.Next(s, P.Full)
    ensures r.Full? ==> Carries(mq, s)
    ensures r.Accepted? ==> r.waiter == if s.q.receivers == {} then T.NULL else Least(s.q.receivers, s.q.deadline)
    ensures r.Accepted? && P.Send(s, m).Next? ==> P.Send(s, m).status == P.Done && Carries(mq, P.Send(s, m).s)
  {
    mq.receivers.NoNullNode();
    ghost var nodes := mq.receivers.nodes;
    r := mq.TrySend(m);
    if r.Accepted? {
      PoppedSet(nodes, mq.receivers.key, mq.receivers.nodes, r.waiter, s.q.receivers, s.q.deadline);
      if P.Send(s, m).Next? { SendLeaves(s, m); }
    }
  }

  // `try_receive` is `Receive`.
  method TryReceive(mq: Ring, ghost s: P.System) returns (r: MessageQueues.Received<P.Message>)
    requires Carries(mq, s)
    modifies mq`head, mq`len, mq`received, mq.senders
    ensures r.Empty? <==> P.Receive(s) == P.Next(s, P.Empty)
    ensures r.Empty? ==> Carries(mq, s)
    ensures r.Message? ==> s.q.buffer != [] && r.value == s.q.buffer[0]
    ensures r.Message? ==> r.waiter == if s.q.senders == {} then T.NULL else Least(s.q.senders, s.q.deadline)
    ensures r.Message? && P.Receive(s).Next? ==> P.Receive(s).status == P.Done && Carries(mq, P.Receive(s).s)
  {
    mq.senders.NoNullNode();
    ghost var nodes := mq.senders.nodes;
    r := mq.TryReceive();
    if r.Message? {
      PoppedSet(nodes, mq.senders.key, mq.senders.nodes, r.waiter, s.q.senders, s.q.deadline);
      if P.Receive(s).Next? { ReceiveLeaves(s); }
    }
  }

  // A tree that did not change still stands for its waiters when somebody else's deadline is recorded, and one that the
  // caller joined stands for them and the caller.
  lemma DeadlineRecorded(nodes: seq<Addr>, treeKey: R.Keys, s: set<Addr>, key: map<Addr, int>, c: Addr, d: int)
    requires StandsFor(nodes, treeKey, s, key) && c !in s
    ensures StandsFor(nodes, treeKey, s, key[c := d])
  {
  }

  lemma CallerJoined(
    nodes: seq<Addr>, treeKey: R.Keys, nodes': seq<Addr>, s: set<Addr>, key: map<Addr, int>, c: Addr, d: int)
    requires StandsFor(nodes, treeKey, s, key) && c !in s && R.Sorted(nodes', treeKey[c := d])
    requires forall u :: u in nodes' <==> u in nodes || u == c
    ensures StandsFor(nodes', treeKey[c := d], s + {c}, key[c := d])
  {
  }

  // Registering the suspended caller is what `Register` does to the queue.
  method Register(mq: Ring, sender: bool, d: int, ghost s: P.System, canBlock: bool, elapsed: nat, c: Addr)
    requires Carries(mq, s) && c == s.k.current && c != T.NULL && c !in s.q.senders && c !in s.q.receivers
    requires P.Register(s, sender, canBlock, elapsed).Next? && P.MayBlock(s.k, canBlock)
    requires d == Tm(s.k, OwnTimer(s.k, c)).expireAt
    modifies if sender then mq.senders else mq.receivers
    ensures Carries(mq, P.Register(s, sender, canBlock, elapsed).s)
  {
    P.RegisterLeaves(s, sender, canBlock, elapsed);
    if sender {
      ghost var nodes, key := mq.senders.nodes, mq.senders.key;
      DeadlineRecorded(mq.receivers.nodes, mq.receivers.key, s.q.receivers, s.q.deadline, c, d);
      mq.Register(true, c, d);
      CallerJoined(nodes, key, mq.senders.nodes, s.q.senders, s.q.deadline, c, d);
    } else {
      ghost var nodes, key := mq.receivers.nodes, mq.receivers.key;
      DeadlineRecorded(mq.senders.nodes, mq.senders.key, s.q.senders, s.q.deadline, c, d);
      mq.Register(false, c, d);
      CallerJoined(nodes, key, mq.receivers.nodes, s.q.receivers, s.q.deadline, c, d);
    }
  }
}
