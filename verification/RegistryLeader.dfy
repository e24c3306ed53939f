/** The leader process at work on its linked list: chat-c/multicast.c and
    chat-c/disconnection_handler.c, method by method, against the functions of module RegistryRing. */
module RegistryLeader {
  import opened Wrappers
  import opened ServerStruct
  import opened RegistryRing
  import Heartbeats

  class Leader {
    const servers: ServerList
    var outbox: seq<Sent>  // every message handed to send(), oldest first

    ghost predicate Valid()
      reads this, servers, servers.spine
    {
      servers.Valid()
    }

    ghost function State(): Registry
      reads this, servers
    {
      Registry(servers.view, outbox)
    }

    constructor (self: Entry)
      ensures Valid() && State() == Registry([self], [])
      ensures fresh(servers) && fresh(servers.spine)
    {
      servers := new ServerList(self);
      outbox := [];
    }

    /** Inserts a peer; answers with the successor to name to it, none for the first peer. */
    method Insert(id: int, sock: int, now: int) returns (next: Option<int>)
      requires Valid() && Registrable(State(), id)
      modifies servers, servers.spine
      ensures Valid() && servers.view == Inserted(old(servers.view), Newcomer(id, sock, now))
      ensures next == old(FirstNext(State(), id, sock, now))
    {
      if servers.head.next != null {
        servers.AppendSorted(Newcomer(id, sock, now));
        var successor := servers.GetSuccessor(id);
        next := Some(successor.id);
      } else {
        servers.AppendSorted(Newcomer(id, sock, now));
        next := None;
      }
    }

    method NotifyPredecessor(id: int, notice: Notice)
      requires Valid() && FindId(servers.view, id, 1) < |servers.view|
      modifies this`outbox
      ensures outbox == old(outbox) + Second(servers.view, id, notice)
    {
      if servers.head.next.next != null {
        var predecessor := servers.GetPredecessor(id);
        if predecessor == servers.head {
          predecessor := servers.GetLast();
        }
        outbox := outbox + [Sent(predecessor.sock, notice)];
      }
    }

    method NewServer(id: int, sock: int, now: int)
      requires Valid() && Registrable(State(), id)
      modifies this, servers, servers.spine
      ensures Valid() && State() == Discovered(old(State()), id, sock, now)
    {
      servers.NodeAt(0);
      var leader := servers.head.id;
      RegisteredIs(State(), id, sock, now, Welcome(leader, FirstNext(State(), id, sock, now)), UpdateFromLeader(id));
      var next := Insert(id, sock, now);
      outbox := outbox + [Sent(sock, Welcome(leader, next))];
      NotifyPredecessor(id, UpdateFromLeader(id));
    }

    method RingReconstruction(id: int, sock: int, now: int)
      requires Valid() && Registrable(State(), id)
      modifies this, servers, servers.spine
      ensures Valid() && State() == Reannounced(old(State()), id, sock, now)
    {
      servers.NodeAt(0);
      var leader := servers.head.id;
      RegisteredIs(State(), id, sock, now,
                   KnowNewLeader(leader, FirstNext(State(), id, sock, now)), KnowNewLeader(leader, Some(id)));
      var next := Insert(id, sock, now);
      outbox := outbox + [Sent(sock, KnowNewLeader(leader, next))];
      NotifyPredecessor(id, KnowNewLeader(leader, Some(id)));
    }

    /** Tells `pred` its new successor: `first` if given, else the node behind it, else the first peer. */
    method UpdateRing(first: ServerInfo?, pred: ServerInfo)
      requires Valid() && (first == null && pred.next == null ==> servers.head.next != null)
      modifies this`outbox
      ensures var next := if first != null then first
                          else if pred.next == null then servers.head.next else pred.next;
              outbox == old(outbox) + [Sent(pred.sock, UpdateFromLeader(next.id))]
    {
      var next: ServerInfo;
      if first != null {
        next := first;
      } else if pred.next == null {
        next := servers.head.next;
      } else {
        next := pred.next;
      }
      outbox := outbox + [Sent(pred.sock, UpdateFromLeader(next.id))];
    }

    /** The end of `ring_status`: the predecessor of the lost peer is told of the next one, if two are left.
        A lost first peer is followed by the one that is first now. */
    method Repair(first: bool, pred: ServerInfo, ghost p: nat)
      requires Valid() && p < |servers.view|
      requires |servers.view| > 2 ==> pred == servers.spine[p] && (first ==> p + 1 == |servers.view|)
      modifies this`outbox
      ensures outbox == old(outbox) + Repaired(servers.view, p)
    {
      if servers.head.next == null {
        return;
      }
      if servers.head.next.next == null {
        return;
      }
      servers.NodeAt(p);
      servers.NodeAt(if p + 1 < |servers.view| then p + 1 else 1);
      if first {
        UpdateRing(servers.head.next, pred);
      } else {
        UpdateRing(null, pred);
      }
    }

    /** `ring_status` when the lost peer is the first one. */
    method DropFirst()
      requires Valid() && |servers.view| > 1
      modifies this`outbox, servers, servers.spine
      ensures Valid() && servers.view == RemoveAt(old(servers.view), 1)
      ensures servers.spine == RemoveAt(old(servers.spine), 1)
      ensures outbox == old(outbox) + Repaired(servers.view, |servers.view| - 1)
    {
      var pred := servers.GetLast();
      servers.NodeAt(1);
      FindIdIs(servers.view, servers.view[1].id, 1);
      servers.Delete(servers.head.next.id);
      Repair(true, pred, |servers.view| - 1);
    }

    /** `ring_status` when the lost peer is behind the peer `pred` at position k. */
    method DropBehind(pred: ServerInfo, ghost k: nat)
      requires Valid() && 1 <= k && k + 1 < |servers.view| && pred == servers.spine[k]
      requires FindId(servers.view, servers.view[k + 1].id, 1) == k + 1
      modifies this`outbox, servers, servers.spine
      ensures Valid() && servers.view == RemoveAt(old(servers.view), k + 1)
      ensures servers.spine == RemoveAt(old(servers.spine), k + 1)
      ensures outbox == old(outbox) + Repaired(servers.view, k)
    {
      servers.NodeAt(k);
      servers.NodeAt(k + 1);
      servers.Delete(pred.next.id);
      Repair(false, pred, k);
    }

    /** The two cases together: the lost peer is behind the node `pred` at position k - 1. */
    method DropAfter(pred: ServerInfo, ghost k: nat)
      requires Valid() && 1 <= k < |servers.view| && pred == servers.spine[k - 1]
      requires FindId(servers.view, servers.view[k].id, 1) == k
      modifies this`outbox, servers, servers.spine
      ensures Valid() && servers.view == RemoveAt(old(servers.view), k)
      ensures servers.spine == RemoveAt(old(servers.spine), k)
      ensures outbox == old(outbox) + Repaired(servers.view, if k == 1 then |servers.view| - 1 else k - 1)
    {
      if pred == servers.head {
        DropFirst();
      } else {
        DropBehind(pred, k - 1);
      }
    }

    method RingStatus(sock: int)
      requires Valid() && RegistryOk(servers.view) && FindSock(servers.view, sock, 1) < |servers.view|
      modifies this, servers, servers.spine
      ensures FindId(old(servers.view), old(servers.view)[FindSock(old(servers.view), sock, 1)].id, 1)
              < |old(servers.view)|
      ensures Valid() && State() == Dropped(old(State()), sock)
      ensures servers.spine == RemoveAt(old(servers.spine), FindSock(old(servers.view), sock, 1))
    {
      ghost var k := FindSock(servers.view, sock, 1);
      DroppedAt(State(), k);
      servers.NodeAt(0);
      var pred := servers.IstPeerServer(sock);
      assert pred == servers.spine[k - 1];
      DropAfter(pred, k);
    }

    /** `ring_status` for the dead peer at position i; the nodes behind it move up by one. */
    method DropDead(sock: int, ghost i: nat)
      requires Valid() && Sound(State()) && 1 <= i < |servers.view| && servers.view[i].sock == sock
      modifies this, servers, servers.spine
      ensures FindSock(old(servers.view), sock, 1) == i && FindId(old(servers.view), old(servers.view)[i].id, 1) == i
      ensures Valid() && Sound(State()) && State() == Dropped(old(State()), sock)
      ensures servers.spine == RemoveAt(old(servers.spine), i)
    {
      DropKeeps(State(), i);
      RingStatus(sock);
    }

    /** One turn of the sweep's loop. The cursor moves on before the node it stood on is freed, so it
        is always a node of the list or null. */
    method SweepNode(current: ServerInfo, ghost i: nat, now: int, timeout: int)
      returns (next: ServerInfo?, ghost j: nat)
      requires Valid() && Sound(State()) && 1 <= i < |servers.spine| && current == servers.spine[i]
      modifies this, servers, servers.spine
      ensures Valid() && Sound(State())
      ensures forall k :: 0 <= k < |servers.spine| ==> servers.spine[k] in old(servers.spine)
      ensures 1 <= j <= |servers.spine| && |servers.spine| - j < |old(servers.spine)| - i
      ensures next == if j < |servers.spine| then servers.spine[j] else null
      ensures Swept(State(), j, now, timeout) == Swept(old(State()), i, now, timeout)
    {
      assert current.View() == servers.view[i];
      if now - current.beat >= timeout {
        var sock := current.sock;
        next, j := current.next, i;
        DropDead(sock, i);
      } else {
        next, j := current.next, i + 1;
      }
    }

    method CheckHeartbeatTimeout(now: int, timeout: int)
      requires Valid() && Sound(State())
      modifies this, servers, servers.spine
      ensures Valid() && Sound(State()) && State() == Swept(old(State()), 1, now, timeout)
      ensures servers.view[0] == old(servers.view)[0]
      ensures forall e :: e in servers.view[1..] <==> e in old(servers.view)[1..] && now - e.beat < timeout
      ensures forall i, j :: 1 <= i < j < |servers.view| ==> servers.view[i].id < servers.view[j].id
    {
      Heartbeats.SweptExact(State(), now, timeout);
      var current := servers.head.next;
      ghost var i := 1;
      while current != null
        invariant Valid() && Sound(State())
        invariant 1 <= i <= |servers.spine|
        invariant current == if i < |servers.spine| then servers.spine[i] else null
        invariant forall k :: 0 <= k < |servers.spine| ==> servers.spine[k] in old(servers.spine)
        invariant Swept(State(), i, now, timeout) == Swept(old(State()), 1, now, timeout)
        decreases |servers.spine| - i
      {
        current, i := SweepNode(current, i, now, timeout);
      }
    }

    /** The HEARTBEAT branch of `handle_socket_change`. */
    method Heartbeat(id: int, now: int)
      requires Valid()
      modifies servers, servers.spine
      ensures Valid() && State() == Done(old(State()), Beat(id, now))
    {
      servers.UpdateHeartbeat(id, now);
    }
  }
}
