/** The message ring of src/message.rs with its two waiter trees: a bounded FIFO over initialised and uninitialised
    slots. Waking the popped thread is the scheduler's part, in module MessageProtocol. */
module MessageQueues {
  import opened Topology
  import opened RbTrees

  // A target's word, so that index arithmetic is checked against overflow at every capacity.
  newtype Usize = x: int | 0 <= x < 0x1_0000_0000

  datatype Slot<T> = Uninit | Init(value: T)

  datatype Sent = Accepted(waiter: Addr) | Full
  datatype Received<T> = Message(value: T, waiter: Addr) | Empty

  lemma Wraps(x: int, n: int)
    requires 0 <= x < n
    ensures x % n == x && (x + n) % n == x
  {
    assert x + n == 1 * n + x;
  }

  // A sum of two positions on the ring wraps at most once.
  lemma Turn(head: int, i: int, n: int)
    requires 0 <= head < n && 0 <= i < n
    ensures (head + i) % n == if head + i < n then head + i else head + i - n
  {
    if head + i >= n { Wraps(head + i - n, n); }
  }

  function Successor(head: Usize, n: Usize): Usize
    requires head < n
  { if head == n - 1 then 0 else head + 1 }

  // The cell `i` places after `head`.
  ghost function Cell(head: Usize, i: int, n: Usize): int
    requires n > 0
  { (head as int + i) % n as int }

  lemma CellIs(head: Usize, i: int, n: Usize)
    requires 0 <= i < n as int && head < n
    ensures Cell(head, i, n) == if head as int + i < n as int then head as int + i else head as int + i - n as int
  {
    Turn(head as int, i, n as int);
  }

  // The `len` cells from `head` on hold messages.
  ghost predicate Filled<T>(slots: seq<Slot<T>>, head: Usize, len: Usize, n: Usize) {
    && n > 0 && |slots| == n as int && head < n && len <= n
    && forall i :: 0 <= i < len as int ==> slots[Cell(head, i, n)].Init?
  }

  ghost function Window<T>(slots: seq<Slot<T>>, head: Usize, len: Usize, n: Usize): (b: seq<T>)
    requires Filled(slots, head, len, n)
    ensures |b| == len as int
  { seq(len as int, i requires 0 <= i < len as int => slots[Cell(head, i, n)].value) }

  // Writing the tail cell appends.
  lemma StoreAppends<T>(slots: seq<Slot<T>>, head: Usize, len: Usize, n: Usize, tail: Usize, message: T)
    requires Filled(slots, head, len, n) && len < n && tail as int == Cell(head, len as int, n)
    ensures var slots' := slots[tail as int := Init(message)];
      Filled(slots', head, len + 1, n) && Window(slots', head, len + 1, n) == Window(slots, head, len, n) + [message]
  {
    var slots' := slots[tail as int := Init(message)];
    CellIs(head, len as int, n);
    forall i | 0 <= i < len as int ensures slots'[Cell(head, i, n)] == slots[Cell(head, i, n)] { CellIs(head, i, n); }
  }

  // Advancing the head drops the first message, and the head cell holds it.
  lemma AdvanceDrops<T>(slots: seq<Slot<T>>, head: Usize, len: Usize, n: Usize)
    requires Filled(slots, head, len, n) && len > 0
    ensures slots[head as int].Init? && Filled(slots, Successor(head, n), len - 1, n)
    ensures Window(slots, head, len, n) == [slots[head as int].value] + Window(slots, Successor(head, n), len - 1, n)
  {
    CellIs(head, 0, n);
    forall i: int {:trigger Cell(Successor(head, n), i, n)} | 0 <= i < len as int - 1
      ensures Cell(Successor(head, n), i, n) == Cell(head, i + 1, n) {
      CellIs(head, i + 1, n);
      CellIs(Successor(head, n), i, n);
    }
  }

  class MessageQueue<T> {
    const slots: array<Slot<T>>
    const capacity: Usize
    var head: Usize
    var len: Usize
    const senders: RbTree
    const receivers: RbTree
    // Everything that was ever accepted and delivered.
    ghost var sent: seq<T>
    ghost var received: seq<T>

    // The buffered messages, oldest first.
    ghost function Buffered(): (b: seq<T>)
      reads this, slots
      requires Filled(slots[..], head, len, capacity)
    { Window(slots[..], head, len, capacity) }

    // Whatever was sent is what was received followed by what is buffered.
    ghost predicate Valid()
      reads this, slots, senders, receivers
    {
      && Filled(slots[..], head, len, capacity) && senders != receivers && senders.Valid() && receivers.Valid()
      && sent == received + Buffered()
    }

    constructor (n: Usize)
      requires n > 0
      ensures Valid() && capacity == n && Buffered() == [] && sent == [] && received == []
      ensures senders.nodes == [] && receivers.nodes == [] && fresh(slots) && fresh(senders) && fresh(receivers)
    {
      slots := new Slot<T>[n](_ => Uninit);
      capacity, head, len, sent, received := n, 0, 0, [], [];
      senders := new RbTree();
      receivers := new RbTree();
    }

    // Stores a message behind the others and takes the most urgent receiver off its tree.
    method TrySend(message: T) returns (r: Sent)
      requires Valid()
      modifies this`len, this`sent, slots, receivers
      ensures Valid() && received == old(received) && senders.nodes == old(senders.nodes)
      ensures receivers.key == old(receivers.key)
      ensures r.Full? <==> old(len) == capacity
      ensures r.Full? ==> Buffered() == old(Buffered()) && sent == old(sent) && receivers.nodes == old(receivers.nodes)
      ensures r.Accepted? ==> Buffered() == old(Buffered()) + [message] && sent == old(sent) + [message]
      ensures r.Accepted? ==> Popped(old(receivers.nodes), receivers.nodes, r.waiter)
    {
      if len == capacity { return Full; }
      var untilEnd := capacity - head;
      var tail := if len < untilEnd then head + len else len - untilEnd;
      CellIs(head, len as int, capacity);
      StoreAppends(slots[..], head, len, capacity, tail, message);
      slots[tail] := Init(message);
      len := len + 1;
      sent := sent + [message];
      var waiter := receivers.PopFirst();
      r := Accepted(waiter);
    }

    // Reads the head cell, which is initialised, and advances the head without dividing.
    method TakeHead() returns (message: T)
      requires Filled(slots[..], head, len, capacity) && len > 0
      modifies this`head, this`len
      ensures Filled(slots[..], head, len, capacity) && old(Buffered()) == [message] + Buffered()
    {
      AdvanceDrops(slots[..], head, len, capacity);
      message := slots[head].value;
      head := if head == capacity - 1 then 0 else head + 1;
      len := len - 1;
    }

    // Takes the oldest message, reading only an initialised slot, and the most urgent sender off its tree.
    method TryReceive() returns (r: Received<T>)
      requires Valid()
      modifies this`head, this`len, this`received, senders
      ensures Valid() && sent == old(sent) && receivers.nodes == old(receivers.nodes)
      ensures senders.key == old(senders.key)
      ensures r.Empty? <==> old(len) == 0
      ensures r.Empty? ==> Buffered() == old(Buffered()) && received == old(received)
      ensures r.Empty? ==> senders.nodes == old(senders.nodes)
      ensures r.Message? ==> old(Buffered()) == [r.value] + Buffered() && received == old(received) + [r.value]
      ensures r.Message? ==> Popped(old(senders.nodes), senders.nodes, r.waiter)
    {
      if len == 0 { return Empty; }
      var message := TakeHead();
      received := received + [message];
      var waiter := senders.PopFirst();
      r := Message(message, waiter);
    }

    // `block`, once the scheduler has suspended the calling thread: it joins the tree under its deadline.
    method Register(sender: bool, thread: Addr, deadline: int)
      requires Valid() && thread != NULL && thread !in (if sender then senders else receivers).nodes
      modifies if sender then senders else receivers
      ensures Valid() && sent == old(sent) && received == old(received) && Buffered() == old(Buffered())
      ensures var t := if sender then senders else receivers;
        && (forall u :: u in t.nodes <==> u in old(t.nodes) || u == thread) && t.key == old(t.key)[thread := deadline]
    {
      if sender {
        ghost var j := senders.Insert(thread, deadline);
        InsertedMembers(old(senders.nodes), j, thread);
      } else {
        ghost var j := receivers.Insert(thread, deadline);
        InsertedMembers(old(receivers.nodes), j, thread);
      }
    }
  }

  // `waiter` is the first of `before`, and null when there is none; `after` is the rest.
  ghost predicate Popped(before: seq<Addr>, after: seq<Addr>, waiter: Addr) {
    if before == [] then waiter == NULL && after == []
      else waiter == before[0] && waiter != NULL && after == before[1..]
  }
}
