/** The linked list in which a process keeps the servers it knows (chat-c/server_struct.c).
    Its first node is the process itself; nodes are spliced in and out through `next`. */
module ServerStruct {

  /** The contents of one node. */
  datatype Entry = Entry(id: int, leader: bool, sock: int, beat: int)

  // ----- What the list operations mean, on the sequence of entries -----

  predicate HasId(s: seq<Entry>, id: int) {
    exists k :: 0 <= k < |s| && s[k].id == id
  }

  /** Position of the first entry from `from` on with the given ID; |s| when there is none. */
  function FindId(s: seq<Entry>, id: int, from: nat): (r: nat)
    requires from <= |s|
    ensures from <= r <= |s|
    ensures r < |s| ==> s[r].id == id
    ensures forall k :: from <= k < r ==> s[k].id != id
    decreases |s| - from
  {
    if from == |s| || s[from].id == id then from else FindId(s, id, from + 1)
  }

  /** Position of the first entry from `from` on with a greater ID; |s| when there is none. */
  function FindGreater(s: seq<Entry>, id: int, from: nat): (r: nat)
    requires from <= |s|
    ensures from <= r <= |s|
    ensures r < |s| ==> s[r].id > id
    ensures forall k :: from <= k < r ==> s[k].id <= id
    decreases |s| - from
  {
    if from == |s| || s[from].id > id then from else FindGreater(s, id, from + 1)
  }

  /** Position of the first entry from `from` on with the given socket; |s| when there is none. */
  function FindSock(s: seq<Entry>, sock: int, from: nat): (r: nat)
    requires from <= |s|
    ensures from <= r <= |s|
    ensures r < |s| ==> s[r].sock == sock
    ensures forall k :: from <= k < r ==> s[k].sock != sock
    decreases |s| - from
  {
    if from == |s| || s[from].sock == sock then from else FindSock(s, sock, from + 1)
  }

  function RemoveAt<T>(s: seq<T>, k: nat): seq<T>
    requires k < |s|
  {
    s[..k] + s[k + 1..]
  }

  function InsertAt<T>(s: seq<T>, k: nat, x: T): seq<T>
    requires k <= |s|
  {
    s[..k] + [x] + s[k..]
  }

  /** `append_server`: at the end, unless the ID is already there. */
  function Appended(s: seq<Entry>, e: Entry): seq<Entry> {
    if HasId(s, e.id) then s else s + [e]
  }

  /** `append_server_sorted`: before the first greater ID behind the head, unless the ID is already there. */
  function Inserted(s: seq<Entry>, e: Entry): seq<Entry>
    requires |s| > 0
  {
    if HasId(s, e.id) then s
    else InsertAt(s, FindGreater(s, e.id, 1), e)
  }

  /** `delete_server`: the first entry behind the head with that ID goes. */
  function Deleted(s: seq<Entry>, id: int): seq<Entry>
    requires |s| > 0
    requires FindId(s, id, 1) < |s|
  {
    RemoveAt(s, FindId(s, id, 1))
  }

  /** Position of the entry `get_successor` answers with, in a list of at least two entries. */
  function SuccessorAt(s: seq<Entry>, id: int): (r: nat)
    requires |s| > 1
    ensures 1 <= r < |s|
  {
    var k := FindGreater(s, id, 1);
    if k < |s| then k else 1
  }

  // ----- The list itself -----

  class ServerInfo {
    var id: int
    var leader: bool
    var sock: int
    var beat: int
    var next: ServerInfo?

    constructor (e: Entry)
      ensures View() == e && next == null
    {
      id, leader, sock, beat, next := e.id, e.leader, e.sock, e.beat, null;
    }

    ghost function View(): Entry
      reads `id, `leader, `sock, `beat
    {
      Entry(id, leader, sock, beat)
    }
  }

  class ServerList {
    const head: ServerInfo
    ghost var spine: seq<ServerInfo>  // the nodes reached from `head` along `next`, in order
    ghost var view: seq<Entry>        // what they hold

    ghost predicate Valid()
      reads this, spine
    {
      && |spine| > 0
      && spine[0] == head
      && (forall i, j :: 0 <= i < j < |spine| ==> spine[i] != spine[j])
      && (forall i {:trigger spine[i].next} :: 0 <= i < |spine| ==>
            spine[i].next == if i + 1 < |spine| then spine[i + 1] else null)
      && |view| == |spine|
      && (forall i :: 0 <= i < |spine| ==> spine[i].View() == view[i])
    }

    /** What Valid says of one node. */
    lemma {:induction false} NodeAt(i: nat)
      requires Valid() && i < |view|
      ensures i < |spine| && spine[i].View() == view[i]
      ensures spine[i].next == if i + 1 < |spine| then spine[i + 1] else null
    {
    }

    constructor (self: Entry)
      ensures Valid() && fresh(head) && fresh(spine)
      ensures view == [self]
    {
      var node := new ServerInfo(self);
      head := node;
      spine, view := [node], [self];
    }

    method Exists(id: int) returns (found: bool)
      requires Valid()
      ensures found <==> HasId(view, id)
    {
      var current: ServerInfo? := head;
      ghost var i := 0;
      while current != null
        invariant 0 <= i <= |spine|
        invariant current == if i < |spine| then spine[i] else null
        invariant forall k :: 0 <= k < i ==> view[k].id != id
        decreases |spine| - i
      {
        if current.id == id {
          assert view[i].id == id;
          return true;
        }
        current, i := current.next, i + 1;
      }
      return false;
    }

    method Append(e: Entry)
      requires Valid()
      modifies this, spine
      ensures Valid() && forall k :: 0 <= k < |spine| ==> spine[k] in old(spine) || fresh(spine[k])
      ensures view == Appended(old(view), e)
    {
      var found := Exists(e.id);
      if found {
        return;
      }
      var node := new ServerInfo(e);
      var current := GetLast();
      current.next := node;
      spine, view := spine + [node], view + [e];
    }

    /** Hooks in a node whose `next` is already set, behind the node at position i. */
    method HookBehind(current: ServerInfo, node: ServerInfo, ghost i: nat)
      requires Valid() && i < |spine| && current == spine[i]
      requires node !in spine && node.next == current.next
      modifies this, current`next
      ensures Valid() && spine == InsertAt(old(spine), i + 1, node)
      ensures view == InsertAt(old(view), i + 1, node.View())
    {
      ghost var before, was := spine, view;
      current.next := node;
      spine, view := InsertAt(spine, i + 1, node), InsertAt(view, i + 1, node.View());
      forall k | 0 <= k < |spine|
        ensures k != i + 1 ==> spine[k] == before[if k <= i then k else k - 1]
        ensures spine[k].View() == view[k]
        ensures spine[k].next == if k + 1 < |spine| then spine[k + 1] else null
      {
      }
    }

    method AppendSorted(e: Entry)
      requires Valid()
      modifies this, spine
      ensures Valid() && forall k :: 0 <= k < |spine| ==> spine[k] in old(spine) || fresh(spine[k])
      ensures view == Inserted(old(view), e)
    {
      var found := Exists(e.id);
      if found {
        return;
      }
      var current, i := LastUpTo(e.id);
      InsertBehind(current, e, i);
    }

    /** The search for the node to insert behind: the next one is the first behind the head with a greater
        ID, or there is none. */
    method LastUpTo(id: int) returns (current: ServerInfo, ghost i: nat)
      requires Valid()
      ensures i < |spine| && current == spine[i] && i + 1 == FindGreater(view, id, 1)
    {
      current, i := head, 0;
      while current.next != null
        invariant 0 <= i < |spine| && current == spine[i]
        invariant FindGreater(view, id, i + 1) == FindGreater(view, id, 1)
        decreases |spine| - i
      {
        assert spine[i + 1].View() == view[i + 1];
        if current.next.id > id {
          return;
        }
        current, i := current.next, i + 1;
      }
    }

    /** The insertion case: a new node takes over the rest of the list. */
    method InsertBehind(current: ServerInfo, e: Entry, ghost i: nat)
      requires Valid() && i < |spine| && current == spine[i]
      modifies this, current`next
      ensures Valid() && forall k :: 0 <= k < |spine| ==> spine[k] in old(spine) || fresh(spine[k])
      ensures view == InsertAt(old(view), i + 1, e)
    {
      var node := new ServerInfo(e);
      if current.next != null {
        node.next := current.next;
      }
      HookBehind(current, node, i);
    }

    /** Takes out the node behind the one at position i. */
    method Unhook(current: ServerInfo, ghost i: nat)
      requires Valid() && i + 1 < |spine| && current == spine[i]
      modifies this, current`next
      ensures Valid() && spine == RemoveAt(old(spine), i + 1)
      ensures view == RemoveAt(old(view), i + 1)
    {
      current.next := current.next.next;
      spine, view := RemoveAt(spine, i + 1), RemoveAt(view, i + 1);
    }

    /** The C loop reads `current->next->ID` without a null test, so some entry behind the head
        must carry the ID. */
    method Delete(id: int)
      requires Valid()
      requires FindId(view, id, 1) < |view|
      modifies this, spine
      ensures Valid() && spine == RemoveAt(old(spine), FindId(old(view), id, 1))
      ensures view == Deleted(old(view), id)
    {
      var current := head;
      ghost var i := 0;
      while current.next.id != id
        invariant 0 <= i < |spine| - 1 && current == spine[i]
        invariant FindId(view, id, i + 1) == FindId(view, id, 1)
        decreases |spine| - i
      {
        assert spine[i + 1].View() == view[i + 1];
        current, i := current.next, i + 1;
      }
      assert spine[i + 1].View() == view[i + 1];
      Unhook(current, i);
    }

    /** The node before the peer with that socket; null on a process that is not the leader
        and when there is no such peer. */
    method IstPeerServer(sock: int) returns (pred: ServerInfo?)
      requires Valid()
      ensures var k := FindSock(view, sock, 1);
              pred == if head.leader && k < |spine| then spine[k - 1] else null
    {
      if !head.leader {
        return null;
      }
      var current := head;
      ghost var i := 0;
      while current.next != null
        invariant 0 <= i < |spine| && current == spine[i]
        invariant forall k :: 1 <= k <= i ==> view[k].sock != sock
        decreases |spine| - i
      {
        if current.next.sock == sock {
          assert view[i + 1].sock == sock;
          return current;
        }
        current, i := current.next, i + 1;
      }
      return null;
    }

    method GetSuccessor(id: int) returns (succ: ServerInfo?)
      requires Valid()
      ensures succ == if |spine| == 1 then null else spine[SuccessorAt(view, id)]
    {
      var current := head;
      ghost var i := 0;
      while current.next != null
        invariant 0 <= i < |spine| && current == spine[i]
        invariant forall k :: 1 <= k <= i ==> view[k].id <= id
        decreases |spine| - i
      {
        if current.next.id > id {
          assert view[i + 1].id > id;
          return current.next;
        }
        current, i := current.next, i + 1;
      }
      return head.next;
    }

    method GetPredecessor(id: int) returns (pred: ServerInfo?)
      requires Valid()
      ensures var k := FindId(view, id, 1);
              pred == if k < |spine| then spine[k - 1] else null
    {
      var current := head;
      ghost var i := 0;
      while current.next != null
        invariant 0 <= i < |spine| && current == spine[i]
        invariant forall k :: 1 <= k <= i ==> view[k].id != id
        decreases |spine| - i
      {
        if current.next.id == id {
          assert view[i + 1].id == id;
          return current;
        }
        current, i := current.next, i + 1;
      }
      return null;
    }

    method GetLast() returns (last: ServerInfo)
      requires Valid()
      ensures last == spine[|spine| - 1]
    {
      var current := head;
      ghost var i := 0;
      while current.next != null
        invariant 0 <= i < |spine| && current == spine[i]
        decreases |spine| - i
      {
        current, i := current.next, i + 1;
      }
      return current;
    }

    /** `head->leader = 1`. */
    method MarkSelf()
      requires Valid()
      modifies this`view, head`leader
      ensures Valid() && view == old(view)[0 := old(view)[0].(leader := true)]
      ensures spine == old(spine)
    {
      head.leader := true;
      view := view[0 := view[0].(leader := true)];
    }

    /** `head->leader = 0`. */
    method UnmarkSelf()
      requires Valid()
      modifies this`view, head`leader
      ensures Valid() && view == old(view)[0 := old(view)[0].(leader := false)]
      ensures spine == old(spine)
    {
      head.leader := false;
      view := view[0 := view[0].(leader := false)];
    }

    /** `head->next->ID = id; head->next->leader = 1`. */
    method MarkNext(id: int)
      requires Valid() && |view| > 1
      modifies this`view, spine
      ensures Valid() && view == old(view)[1 := old(view)[1].(id := id, leader := true)]
      ensures spine == old(spine)
    {
      head.next.id, head.next.leader := id, true;
      view := view[1 := view[1].(id := id, leader := true)];
    }

    /** `time(&head->next->last_heartbeat)`. */
    method StampNext(now: int)
      requires Valid() && |view| > 1
      modifies this`view, spine
      ensures Valid() && view == old(view)[1 := old(view)[1].(beat := now)]
      ensures spine == old(spine)
    {
      head.next.beat := now;
      view := view[1 := view[1].(beat := now)];
    }

    /** `update_heartbeat_timeout`: the first entry with the ID, the head included, is stamped. */
    method UpdateHeartbeat(id: int, now: int)
      requires Valid()
      modifies this`view, spine
      ensures Valid() && view == Stamped(old(view), id, now) && |view| == |old(view)|
      ensures forall i :: 0 <= i < |view| ==>
                view[i] == if old(view)[i].id == id && forall j :: 0 <= j < i ==> old(view)[j].id != id
                           then old(view)[i].(beat := now) else old(view)[i]
    {
      StampedEach(view, id, now);
      var current: ServerInfo? := head;
      ghost var i := 0;
      while current != null
        invariant 0 <= i <= |spine|
        invariant current == if i < |spine| then spine[i] else null
        invariant forall k :: 0 <= k < i ==> view[k].id != id
        invariant unchanged(spine)
        decreases |spine| - i
      {
        if current.id == id {
          assert view[i].id == id;
          assert FindId(view, id, 0) == i;
          current.beat := now;
          view := Stamped(view, id, now);
          return;
        }
        current, i := current.next, i + 1;
      }
    }
  }

  function Stamped(s: seq<Entry>, id: int, now: int): (r: seq<Entry>)
    ensures |r| == |s|
  {
    var k := FindId(s, id, 0);
    if k < |s| then s[k := s[k].(beat := now)] else s
  }

  /** The first entry with the ID is stamped, and nothing else changes. */
  lemma {:induction false} StampedEach(s: seq<Entry>, id: int, now: int)
    ensures forall i :: 0 <= i < |s| ==>
              Stamped(s, id, now)[i] == if s[i].id == id && forall j :: 0 <= j < i ==> s[j].id != id
                                        then s[i].(beat := now) else s[i]
  {
  }
}
