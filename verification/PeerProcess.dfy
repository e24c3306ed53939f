/** The same handlers at work on the linked list and the process globals: `lcr_election`, `send_ele_msg`,
    `check_leader_timeout` and the branches of `handle_socket_change`, against the functions of modules
    Election and Peer. Where messages go out, `to` is the socket they are sent on. */
module PeerProcess {
  import opened Wrappers
  import opened ServerStruct
  import opened Election
  import opened Peer

  class Server {
    const servers: ServerList
    var participant: bool
    var leaderSock: int
    var nextSock: int
    var watched: set<int>

    ghost predicate Valid()
      reads this, servers, servers.spine
    {
      servers.Valid()
    }

    ghost function Core(): Node
      reads this, servers
    {
      Node(servers.view, participant)
    }

    ghost function State(): Process
      reads this, servers
    {
      Process(Core(), leaderSock, nextSock, watched)
    }

    constructor (self: Entry, listen: int)
      ensures Valid() && State() == Process(Node([self], false), NO_SOCKET, NO_SOCKET, {listen})
      ensures fresh(servers) && fresh(servers.spine)
    {
      servers := new ServerList(self);
      participant, leaderSock, nextSock, watched := false, NO_SOCKET, NO_SOCKET, {listen};
    }

    /** The contents of the list, node by node, for the solver. */
    lemma {:induction false} Nodes()
      requires Valid()
      ensures servers.head.View() == servers.view[0]
      ensures |servers.view| == 1 ==> servers.head.next == null
      ensures |servers.view| > 1 ==> servers.head.next != null && servers.head.next.View() == servers.view[1]
      ensures |servers.view| == 2 ==> servers.head.next.next == null
      ensures |servers.view| > 2 ==> servers.head.next.next != null && servers.head.next.next.View() == servers.view[2]
    {
      assert servers.spine[0].View() == servers.view[0];
      if |servers.view| > 1 {
        assert servers.spine[1].View() == servers.view[1];
      }
      if |servers.view| > 2 {
        assert servers.spine[2].View() == servers.view[2];
      }
    }

    method LcrVote(id: int) returns (sent: seq<Message>, code: int, to: int)
      requires Valid() && Answerable(Core(), Vote(id))
      modifies this`participant, servers, servers.spine
      ensures Valid() && Outcome(Core(), sent, code) == Lcr(old(Core()), Vote(id))
      ensures sent != [] ==> |old(servers.view)| > 2 && to == old(servers.view)[2].sock
      ensures forall k :: 0 <= k < |servers.spine| ==> servers.spine[k] in old(servers.spine)
    {
      Nodes();
      sent, code, to := [], 0, NO_SOCKET;
      if id > servers.head.id {
        if servers.head.next == null {
          return;
        }
        sent, to := [Vote(id)], servers.head.next.next.sock;
      } else if id < servers.head.id {
        if servers.head.next == null {
          return;
        }
        if participant {
          return;
        }
        participant := true;
        sent, to := [Vote(servers.head.id)], servers.head.next.next.sock;
      } else {
        if servers.head.leader {
          return;
        }
        participant := true;
        servers.MarkSelf();
        sent, to := [Leader(servers.head.id)], servers.head.next.next.sock;
        servers.Delete(servers.head.next.id);
        code := id;
      }
    }

    method LcrLeader(id: int) returns (sent: seq<Message>, code: int, to: int)
      requires Valid() && Answerable(Core(), Leader(id))
      modifies this`participant, servers, servers.spine
      ensures Valid() && Outcome(Core(), sent, code) == Lcr(old(Core()), Leader(id))
      ensures sent != [] ==> |old(servers.view)| > 2 && to == old(servers.view)[2].sock
      ensures servers.spine == old(servers.spine)
    {
      Nodes();
      sent, code, to := [], 0, NO_SOCKET;
      if id == servers.head.id {
        participant := false;
      } else {
        if servers.head.next == null {
          return;
        }
        participant := false;
        to := servers.head.next.next.sock;
        servers.MarkNext(id);
        sent, code := [Leader(id)], 1;
      }
    }

    /** Takes the successor's entry out and forgets its sockets. */
    method DropSuccessor()
      requires Valid() && |servers.view| > 1 && FindId(servers.view, servers.view[1].id, 1) == 1
      requires NO_SOCKET !in watched
      modifies this`nextSock, this`watched, servers, servers.spine
      ensures Valid() && servers.view == RemoveAt(old(servers.view), 1) && nextSock == NO_SOCKET
      ensures watched == old(watched) - {old(servers.view)[1].sock, old(nextSock)}
    {
      Nodes();
      watched := watched - {servers.head.next.sock};
      servers.Delete(servers.head.next.id);
      if nextSock != NO_SOCKET {
        watched := watched - {nextSock};
        nextSock := NO_SOCKET;
      }
    }

    /** What `handle_socket_change` does with the return code of `lcr_election`. */
    method Dispose(code: int)
      requires Valid() && Disposable(Core(), code) && NO_SOCKET !in watched
      modifies this`nextSock, this`watched, servers, servers.spine
      ensures Valid() && State() == Closed(old(State()), code)
    {
      Nodes();
      if servers.head.next == null {
        return;
      }
      if code == 1 {
        servers.Delete(servers.head.next.id);
        DropSuccessor();
      } else if servers.head.id == code {
        DropSuccessor();
      }
    }

    /** The ELECTION branch of `handle_socket_change`. */
    method ElectionMessage(m: Message) returns (sent: seq<Message>, to: int)
      requires Valid() && Manageable(Core(), m) && NO_SOCKET !in watched
      modifies this, servers, servers.spine
      ensures Valid() && (State(), sent) == ElectionHeard(old(State()), m)
      ensures sent != [] ==> |old(servers.view)| > 2 && to == old(servers.view)[2].sock
    {
      var code: int;
      match m {
        case Vote(id) => sent, code, to := LcrVote(id);
        case Leader(id) => sent, code, to := LcrLeader(id);
      }
      Dispose(code);
    }

    method SendEleMsg() returns (sent: seq<Message>, to: int)
      requires Valid() && |servers.view| > 1
      modifies this`participant, servers, servers.spine
      ensures Valid() && (Core(), sent) == TimedOut(old(Core()))
      ensures sent != [] ==> |old(servers.view)| > 2 && to == old(servers.view)[2].sock
    {
      Nodes();
      sent, to := [], NO_SOCKET;
      if servers.head.next.next == null {
        servers.MarkSelf();
        servers.Delete(servers.head.next.id);
        return;
      }
      if participant {
        return;
      }
      sent, to := [Vote(servers.head.id)], servers.head.next.next.sock;
      participant := true;
    }

    method CheckLeaderTimeout(now: int, timeout: int) returns (sent: seq<Message>, to: int)
      requires Valid() && |servers.view| > 1
      modifies this`participant, servers, servers.spine
      ensures Valid()
      ensures (Core(), sent) == Checked(old(Core()), now, timeout)
      ensures now - old(servers.view)[1].beat < timeout ==> Core() == old(Core()) && sent == []
      ensures now - old(servers.view)[1].beat >= timeout ==> (Core(), sent) == TimedOut(old(Core()))
      ensures sent != [] ==> |old(servers.view)| > 2 && to == old(servers.view)[2].sock
    {
      Nodes();
      sent, to := [], NO_SOCKET;
      if now - servers.head.next.beat >= timeout {
        sent, to := SendEleMsg();
      }
    }

    /** The HEARTBEAT branch of `handle_socket_change`. */
    method Heartbeat(id: int, now: int)
      requires Valid()
      modifies servers, servers.spine
      ensures Valid() && State() == old(State()).(node := Node(Stamped(old(servers.view), id, now), participant))
    {
      servers.UpdateHeartbeat(id, now);
    }

    /** `accept_new_client`, as far as the select set goes. */
    method Accept(sock: int)
      requires Valid()
      modifies this`watched
      ensures Valid() && State() == old(State()).(watched := old(watched) + {sock})
    {
      watched := watched + {sock};
    }

    method Learn(e: Entry)
      requires Valid()
      modifies servers, servers.spine
      ensures Valid() && servers.view == Appended(old(servers.view), e)
      ensures forall k :: 0 <= k < |servers.spine| ==> servers.spine[k] in old(servers.spine) || fresh(servers.spine[k])
    {
      servers.Append(e);
    }

    /** The leader's welcome, to a process that knows only itself. */
    method ServiceDiscovery(leader: int, from: int, next: Option<int>, sock: int, now: int)
      requires Valid()
      modifies this, servers, servers.spine
      ensures Valid() && State() == Welcomed(old(State()), leader, from, next, sock, now)
    {
      servers.UnmarkSelf();
      Learn(Entry(leader, true, from, now));
      if next.Some? {
        nextSock := sock;
        Learn(Entry(next.value, false, sock, now));
      }
      leaderSock := from;
      watched := watched + {leaderSock};
      if next.Some? {
        watched := watched + {nextSock};
      }
    }

    /** UPDATE_FROM_LEADER on socket `from`. */
    method UpdateFromLeader(from: int, id: int, sock: int, now: int)
      requires Valid() && (from == leaderSock ==> |servers.view| > 1)
      modifies this`nextSock, this`watched, servers, servers.spine
      ensures Valid() && State() == Updated(old(State()), from, id, sock, now)
    {
      if from == leaderSock {
        Repoint(id, sock, now);
      }
    }

    /** The part that UPDATE_FROM_LEADER and KNOW_NEW_LEADER share. */
    method Repoint(id: int, sock: int, now: int)
      requires Valid() && |servers.view| > 1
      modifies this`nextSock, this`watched, servers, servers.spine
      ensures Valid() && State() == Repointed(old(State()), id, sock, now)
    {
      Nodes();
      if servers.head.next.next != null {
        ThirdFound(servers.view);
        servers.Delete(servers.head.next.next.id);
        servers.Append(Entry(id, false, sock, now));
        watched := watched - {nextSock};
      } else {
        servers.Append(Entry(id, false, sock, now));
      }
      nextSock := sock;
      watched := watched + {nextSock};
    }

    method KnowNewLeader(from: int, leader: int, next: Option<int>, sock: int, now: int)
      requires Valid() && (next.Some? && |servers.view| == 1 ==> leader != servers.view[0].id)
      modifies this, servers, servers.spine
      ensures Valid() && State() == ToldLeader(old(State()), from, leader, next, sock, now)
    {
      Nodes();
      if servers.head.next == null {
        servers.Append(Entry(leader, true, from, now));
      }
      if next.Some? {
        Repoint(next.value, sock, now);
      }
      leaderSock := from;
    }

    /** `handle_disconnection` on the successor's socket, which is then no longer watched. */
    method SuccessorClosed()
      requires Valid() && |servers.view| > 2
      modifies this`watched, servers, servers.spine
      ensures Valid() && State() == SuccessorLost(old(State()))
    {
      Nodes();
      ThirdFound(servers.view);
      servers.Delete(servers.head.next.next.id);
      watched := watched - {nextSock};
    }

    /** The leader's socket has closed. */
    method LeaderClosed()
      requires Valid()
      modifies this`leaderSock, this`watched
      ensures Valid() && State() == LeaderLost(old(State()))
    {
      watched := watched - {leaderSock};
      leaderSock := NO_SOCKET;
    }

    /** A HEARTBEAT by multicast. */
    method McastHeartbeat(id: int, now: int)
      requires Valid() && |servers.view| > 1
      modifies servers, servers.spine
      ensures Valid() && State() == Pulsed(old(State()), id, now)
    {
      Nodes();
      if id == servers.head.next.id {
        servers.StampNext(now);
      }
    }
  }
}
