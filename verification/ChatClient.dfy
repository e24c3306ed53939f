/** The chat client at work on its global counters and its linked hold-back queue
    (chat-c/client/client_s.c, chat-c/client/data_structure.c, chat-c/client/group.c), method by method,
    against the functions of module HoldBack. */
module ChatClient {
  import opened Wrappers
  import opened Text
  import opened GroupFrame
  import opened HoldBack

  class Node {
    var id: int
    var clkIndex: nat
    var dependency: seq<int>
    var content: string
    var next: Node?

    constructor (m: Msg)
      ensures View() == m && next == null
    {
      id, clkIndex, dependency, content, next := m.id, m.sender, m.deps, m.content, null;
    }

    ghost function View(): Msg
      reads `id, `clkIndex, `dependency, `content
    {
      Msg(id, clkIndex, dependency, content)
    }
  }

  /** Position of the first message of that sender; |queue| when there is none. */
  function FirstOf(queue: seq<Msg>, clkIndex: nat): (k: nat)
    ensures k <= |queue| && (k < |queue| ==> queue[k].sender == clkIndex)
    ensures forall i :: 0 <= i < k ==> queue[i].sender != clkIndex
  {
    if queue == [] || queue[0].sender == clkIndex then 0 else 1 + FirstOf(queue[1..], clkIndex)
  }

  function RemovedOf(queue: seq<Msg>, clkIndex: nat): seq<Msg> {
    var k := FirstOf(queue, clkIndex);
    if k < |queue| then queue[..k] + queue[k + 1..] else queue
  }

  /** The hold-back queue with the pointer to its first node. */
  class Queue {
    var head: Node?
    ghost var spine: seq<Node>
    ghost var view: seq<Msg>

    ghost predicate Valid()
      reads this, spine
    {
      && head == (if spine == [] then null else spine[0])
      && (forall i, j :: 0 <= i < j < |spine| ==> spine[i] != spine[j])
      && (forall i {:trigger spine[i].next} :: 0 <= i < |spine| ==>
            spine[i].next == if i + 1 < |spine| then spine[i + 1] else null)
      && |view| == |spine|
      && (forall i :: 0 <= i < |spine| ==> spine[i].View() == view[i])
    }

    constructor ()
      ensures Valid() && view == [] && spine == []
    {
      head, spine, view := null, [], [];
    }

    /** The linking part of `append_to_holdback_queue`. */
    method Append(m: Msg)
      requires Valid()
      modifies this, spine
      ensures Valid() && view == old(view) + [m]
      ensures forall k :: 0 <= k < |spine| ==> spine[k] in old(spine) || fresh(spine[k])
    {
      var node := new Node(m);
      if head == null {
        head, spine, view := node, [node], [m];
        return;
      }
      var current: Node := head;
      ghost var i := 0;
      while current.next != null
        invariant 0 <= i < |spine| && current == spine[i]
        decreases |spine| - i
      {
        current, i := current.next, i + 1;
      }
      current.next := node;
      spine, view := spine + [node], view + [m];
    }

    method Unhook(current: Node, ghost i: nat)
      requires Valid() && i + 1 < |spine| && current == spine[i]
      modifies this, current`next
      ensures Valid() && spine == old(spine[..i + 1] + spine[i + 2..])
      ensures view == old(view[..i + 1] + view[i + 2..])
    {
      current.next := current.next.next;
      spine, view := spine[..i + 1] + spine[i + 2..], view[..i + 1] + view[i + 2..];
    }

    method DropHead()
      requires Valid() && head != null
      modifies this
      ensures Valid() && spine == old(spine[1..]) && view == old(view[1..])
    {
      head := head.next;
      spine, view := spine[1..], view[1..];
    }

    /** The pointer to the first node is overwritten with null. */
    method Lose()
      modifies this
      ensures Valid() && view == [] && spine == []
    {
      head, spine, view := null, [], [];
    }

    /** The search of `remove_from_holdback_queue`: the node before the first message of that sender, or the
        last node. */
    method LastBefore(clkIndex: nat) returns (current: Node, ghost i: nat)
      requires Valid() && view != [] && view[0].sender != clkIndex
      ensures i < |spine| && current == spine[i]
      ensures FirstOf(view, clkIndex) == i + 1
    {
      current, i := head, 0;
      FirstOfFrom(view, clkIndex, 1);
      while current.next != null
        invariant 0 <= i < |spine| && current == spine[i]
        invariant i < FirstOf(view, clkIndex)
        decreases |spine| - i
      {
        assert spine[i + 1].View() == view[i + 1];
        FirstOfNext(view, clkIndex, i + 1);
        if current.next.clkIndex == clkIndex {
          return;
        }
        current, i := current.next, i + 1;
      }
    }

    method RemoveBehind(clkIndex: nat)
      requires Valid() && view != [] && view[0].sender != clkIndex
      modifies this, spine
      ensures Valid() && view == RemovedOf(old(view), clkIndex)
      ensures forall k :: 0 <= k < |spine| ==> spine[k] in old(spine)
    {
      var current, i := LastBefore(clkIndex);
      if current.next != null {
        Unhook(current, i);
      }
    }

    /** `remove_from_holdback_queue`: the first message of that sender goes, if there is one. */
    method Remove(clkIndex: nat)
      requires Valid()
      modifies this, spine
      ensures Valid() && view == RemovedOf(old(view), clkIndex)
      ensures (forall m :: m in old(view) ==> m.sender != clkIndex) ==> view == old(view)
      ensures old(view) != [] && old(view)[0].sender == clkIndex ==>
                view == old(view)[1..] && spine == old(spine[1..])
      ensures forall k :: 0 <= k < |spine| ==> spine[k] in old(spine)
    {
      if head == null {
        return;
      }
      assert head.View() == view[0];
      FirstOfFrom(view, clkIndex, 0);
      if head.clkIndex == clkIndex {
        FirstRemoved(view);
        DropHead();
        return;
      }
      FirstOfFrom(view, clkIndex, 1);
      RemoveBehind(clkIndex);
    }
  }

  /** The first message of that sender goes, with all others left in order; without one, nothing does. */
  lemma {:induction false} RemovedExact(before: seq<Msg>, m: Msg, behind: seq<Msg>)
    requires forall i :: 0 <= i < |before| ==> before[i].sender != m.sender
    ensures RemovedOf(before + [m] + behind, m.sender) == before + behind
    ensures RemovedOf(before, m.sender) == before
  {
    var queue := before + [m] + behind;
    FirstOfFrom(queue, m.sender, |before|);
    assert queue[..|before|] == before && queue[|before| + 1..] == behind;
    FirstOfFrom(before, m.sender, |before|);
  }

  lemma {:induction false} FirstRemoved(queue: seq<Msg>)
    requires queue != []
    ensures FirstOf(queue, queue[0].sender) == 0 && RemovedOf(queue, queue[0].sender) == queue[1..]
  {
  }

  /** The search cannot have passed k without stopping, if it has not stopped before. */
  lemma {:induction false} FirstOfNext(queue: seq<Msg>, clkIndex: nat, k: nat)
    requires k < |queue| && k <= FirstOf(queue, clkIndex)
    ensures FirstOf(queue, clkIndex) == k <==> queue[k].sender == clkIndex
  {
  }

  lemma {:induction false} FirstOfFrom(queue: seq<Msg>, clkIndex: nat, k: nat)
    requires k <= |queue| && forall i :: 0 <= i < k ==> queue[i].sender != clkIndex
    ensures k <= FirstOf(queue, clkIndex)
    ensures k < |queue| && queue[k].sender == clkIndex ==> FirstOf(queue, clkIndex) == k
  {
  }

  /** The process globals. */
  class Client {
    const id: nat
    const clkIndex: nat
    var sendSeq: nat
    const delivered: array<nat>
    const dependency: array<nat>
    const queue: Queue
    var printed: seq<Msg>  // the messages shown to the user, oldest first

    ghost predicate Valid()
      reads this, delivered, dependency, queue, queue.spine
    {
      && queue.Valid()
      && clkIndex < MAX_GROUP_SIZE
      && delivered.Length == dependency.Length == MAX_GROUP_SIZE
      && delivered != dependency
      && AllFit(queue.view)
    }

    ghost function State(): Box
      reads this, delivered, queue
    {
      Box(delivered[..], queue.view, printed)
    }

    constructor (id: nat, clkIndex: nat)
      requires clkIndex < MAX_GROUP_SIZE
      ensures Valid() && State() == EMPTY && sendSeq == 0 && this.id == id && this.clkIndex == clkIndex
      ensures fresh(delivered) && fresh(dependency) && fresh(queue) && fresh(queue.spine)
    {
      this.id, this.clkIndex, sendSeq, printed := id, clkIndex, 0, [];
      delivered := new nat[MAX_GROUP_SIZE](i => 0);
      dependency := new nat[MAX_GROUP_SIZE](i => 0);
      queue := new Queue();
      new;
      assert delivered[..] == EMPTY.delivered;
    }

    /** `array_compare`: 1 if some element is greater, else 0. */
    static method ArrayCompare(left: seq<int>, right: array<nat>) returns (r: int)
      requires |left| == right.Length == MAX_GROUP_SIZE
      ensures r <= 0 <==> Ready(left, right[..])
    {
      for i := 0 to MAX_GROUP_SIZE
        invariant forall k :: 0 <= k < i ==> left[k] <= right[k]
      {
        if left[i] != right[i] {
          if left[i] > right[i] {
            assert left[i] > right[..][i];
            return 1;
          }
        }
      }
      return 0;
    }

    /** Prints the head and counts it in DELIVERED. */
    method PrintHead(current: Node)
      requires Valid() && current == queue.head && queue.view != []
      modifies this`printed, delivered
      ensures Valid()
      ensures State() == old(HeadDelivered(State())).(queue := old(queue.view))
    {
      assert current.View() == queue.view[0];
      printed := printed + [Msg(current.id, current.clkIndex, current.dependency, current.content)];
      delivered[current.clkIndex] := delivered[current.clkIndex] + 1;
    }

    /** The loop body of `deliver_messages` for a ready head: the message just printed is the one that
        `remove_from_holdback_queue` finds under its clock index, however many share that index. */
    method DeliverHead(current: Node) returns (next: Node?)
      requires Valid() && current == queue.head && HeadReady(State())
      modifies this`printed, delivered, queue, queue.spine
      ensures Valid() && State() == HeadDelivered(old(State()))
      ensures next == queue.head && queue.spine == old(queue.spine[1..])
    {
      assert current.View() == queue.view[0];
      ghost var b := State();
      PrintHead(current);
      var clkIndex := current.clkIndex;
      next := current.next;
      queue.Remove(clkIndex);
      assert queue.view == b.queue[1..];
    }

    /** The loop of `deliver_messages`. */
    method Drain()
      requires Valid()
      modifies this`printed, delivered, queue, queue.spine
      ensures Valid() && State() == Drained(old(State()))
    {
      var current: Node? := queue.head;
      while current != null
        invariant Valid() && current == queue.head
        invariant Drained(State()) == Drained(old(State()))
        invariant forall k :: 0 <= k < |queue.spine| ==> queue.spine[k] in old(queue.spine)
        decreases |queue.spine|
      {
        assert current.View() == queue.view[0];
        var order := ArrayCompare(current.dependency, delivered);
        if order <= 0 {
          current := DeliverHead(current);
        } else {
          return;
        }
      }
    }

    /** `deliver_messages`, which follows the head of the queue without a null test if it can read the
        message; its caller has then just appended it. The caller overwrites the queue's head
        with what it returns, so where the sscanf fails the queue is gone. */
    method DeliverMessages(clean: string)
      requires Valid() && (Parse(clean).Some? ==> queue.view != [])
      modifies this`printed, delivered, queue, queue.spine
      ensures Valid()
      ensures State() == if Parse(clean).None? then old(State()).(queue := []) else Drained(old(State()))
    {
      if Parse(clean).None? {
        queue.Lose();
      } else {
        Drain();
      }
    }

    method Hold(m: Msg)
      requires Valid() && Fit(m)
      modifies queue, queue.spine
      ensures Valid() && State() == old(State()).(queue := old(queue.view) + [m])
      ensures forall k :: 0 <= k < |queue.spine| ==> queue.spine[k] in old(queue.spine) || fresh(queue.spine[k])
    {
      queue.Append(m);
    }

    /** `append_to_holdback_queue` and `deliver_messages` on a clean message. */
    method Take(clean: string)
      requires Valid() && Readable(clean)
      modifies this`printed, delivered, queue, queue.spine
      ensures Valid() && State() == Received(old(State()), clean)
    {
      var m := Read(clean);
      if m.Some? {
        Hold(m.value);
      }
      DeliverMessages(clean);
    }

    /** `handle_group_receive`, from the datagram on. */
    method HandleGroupReceive(raw: string)
      requires Valid() && (Clear(raw).Some? ==> Readable(Clear(raw).value))
      modifies this`printed, delivered, queue, queue.spine
      ensures Valid()
      ensures State() == if Clear(raw).None? then old(State()).(queue := [])
                         else Received(old(State()), Clear(raw).value)
    {
      var cut := Clear(raw);
      if cut.None? {
        queue.Lose();
      } else {
        Take(cut.value);
      }
    }

    /** One line typed in multicast mode: the datagram that goes out. */
    method MulticastSend(input: string) returns (frame: string)
      requires Valid() && id < 0x8000_0000 && |input| <= LINE_SIZE
      requires |CommaText(delivered[..][clkIndex := sendSeq])| + 1 <= DEPS_STR_SIZE
      modifies this`sendSeq, dependency
      ensures Valid() && State() == old(State()) && sendSeq == old(sendSeq) + 1
      ensures var deps := old(delivered[..][clkIndex := sendSeq]);
              var message := Frame(0, id, clkIndex, deps, input, "");
              |message| < BUFFER_SIZE && message <= frame && |frame| == BUFFER_SIZE - 1 &&
              (forall i :: |message| <= i < |frame| ==> frame[i] == 'x') &&
              frame == Frame(0, id, clkIndex, deps, input, Padding(BUFFER_SIZE - 1 - |message|))
    {
      ghost var vector := delivered[..][clkIndex := sendSeq];
      forall i | 0 <= i < MAX_GROUP_SIZE {
        dependency[i] := delivered[i];
      }
      dependency[clkIndex] := sendSeq;
      assert dependency[..] == vector;
      var deps := GetDepsStr(dependency);
      var message := "\n\t" + "GROUP_ID:" + Decimal(0)
                     + ("\n\t" + "SENDER_ID:" + Decimal(id))
                     + ("\n\t" + "SENDER_CLK_INDEX:" + Decimal(clkIndex))
                     + ("\n\t" + "DEPS:" + deps)
                     + ("\n\t" + "MESSAGE:" + input) + "\n\n";
      sendSeq := sendSeq + 1;
      FrameFitsWithDeps(id, clkIndex, vector, input);
      assert message + "" == message;
      assert message == Frame(0, id, clkIndex, vector, input, "");
      frame := message + Padding(BUFFER_SIZE - 1 - |message|);
    }
  }

  function Padding(n: nat): (s: string)
    ensures |s| == n && forall i :: 0 <= i < n ==> s[i] == 'x'
  {
    seq(n, i => 'x')
  }
}
