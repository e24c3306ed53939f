/** A process that is not the leader: its list [itself, leader?, successor?], its two sockets and the set
    of sockets it watches, under every message that changes them (chat-c/service_discovery.c,
    chat-c/socket_changes.c, chat-c/disconnection_handler.c). */
module Peer {
  import opened Wrappers
  import opened ServerStruct
  import opened Election

  const NO_SOCKET: int := -1

  /** `leaderSock` and `nextSock` are ltcp_socket and successor_socket, `watched` the select set. */
  datatype Process = Process(node: Node, leaderSock: int, nextSock: int, watched: set<int>)

  // ----- What the handlers do -----

  /** The welcome of service_discovery, to a process that knows only itself. */
  function Welcomed(p: Process, leader: int, leaderSock: int, next: Option<int>, nextSock: int, now: int): Process
    requires |p.node.list| > 0
  {
    var own := p.node.list[0 := p.node.list[0].(leader := false)];
    var list := Appended(own, Entry(leader, true, leaderSock, now));
    var q := p.(leaderSock := leaderSock, watched := p.watched + {leaderSock});
    if next.None? then q.(node := q.node.(list := list))
    else q.(node := q.node.(list := Appended(list, Entry(next.value, false, nextSock, now))),
            nextSock := nextSock, watched := q.watched + {nextSock})
  }

  /** A new successor. The C code reads `next->next` without testing `next`. */
  function Repointed(p: Process, id: int, sock: int, now: int): Process
    requires |p.node.list| > 1
  {
    var list := p.node.list;
    var e := Entry(id, false, sock, now);
    if |list| > 2 then
      ThirdFound(list);
      p.(node := p.node.(list := Appended(Deleted(list, list[2].id), e)),
         nextSock := sock, watched := p.watched - {p.nextSock} + {sock})
    else p.(node := p.node.(list := Appended(list, e)), nextSock := sock, watched := p.watched + {sock})
  }

  lemma {:induction false} ThirdFound(list: seq<Entry>)
    requires |list| > 2
    ensures FindId(list, list[2].id, 1) <= 2
  {
  }

  /** UPDATE_FROM_LEADER on socket `from`: heeded on ltcp_socket only. */
  function Updated(p: Process, from: int, id: int, sock: int, now: int): Process
    requires from == p.leaderSock ==> |p.node.list| > 1
  {
    if from == p.leaderSock then Repointed(p, id, sock, now) else p
  }

  /** KNOW_NEW_LEADER, on whatever socket `from`: from now on that is ltcp_socket. */
  function ToldLeader(p: Process, from: int, leader: int, next: Option<int>, nextSock: int, now: int): Process
    requires |p.node.list| > 0
    requires next.Some? && |p.node.list| == 1 ==> leader != p.node.list[0].id
  {
    var list := if |p.node.list| == 1 then Appended(p.node.list, Entry(leader, true, from, now)) else p.node.list;
    var q := p.(node := p.node.(list := list), leaderSock := from);
    if next.None? then q
    else
      assert |p.node.list| == 1 ==> |list| == 2;
      Repointed(q, next.value, nextSock, now)
  }

  /** The successor has closed its socket. */
  function SuccessorLost(p: Process): Process
    requires |p.node.list| > 2
  {
    ThirdFound(p.node.list);
    p.(node := p.node.(list := Deleted(p.node.list, p.node.list[2].id)), watched := p.watched - {p.nextSock})
  }

  /** The leader has closed its socket: an election comes later, with the next heartbeat that is missing. */
  function LeaderLost(p: Process): Process {
    p.(leaderSock := NO_SOCKET, watched := p.watched - {p.leaderSock})
  }

  /** A HEARTBEAT by multicast: `handle_mcast_receive` reads `next->ID` without testing `next`, to see whether
      it is the leader's. */
  function Pulsed(p: Process, id: int, now: int): Process
    requires |p.node.list| > 1
  {
    var list := p.node.list;
    if list[1].id == id then p.(node := p.node.(list := list[1 := list[1].(beat := now)])) else p
  }

  /** `check_leader_timeout`: the state left and the messages sent to the successor. */
  function Checked(node: Node, now: int, timeout: int): (Node, seq<Message>)
    requires |node.list| > 1
  {
    if now - node.list[1].beat >= timeout then TimedOut(node) else (node, [])
  }

  /** The teardown closes the successor's sockets, that of the list and `nextSock`. */
  function Closed(p: Process, code: int): Process
    requires Disposable(p.node, code)
  {
    var list := p.node.list;
    if |list| == 1 || (code != 1 && code != list[0].id) then p
    else
      var closing := if code == 1 then Deleted(list, list[1].id)[1].sock else list[1].sock;
      p.(node := Disposed(p.node, code), nextSock := NO_SOCKET, watched := p.watched - {closing, p.nextSock})
  }

  function ElectionHeard(p: Process, m: Message): (Process, seq<Message>)
    requires Manageable(p.node, m)
  {
    var o := Lcr(p.node, m);
    (Closed(p.(node := o.node), o.code), o.sent)
  }

  // ----- The shape of the list -----

  /** [itself], [itself, leader] or [itself, leader, successor], with distinct IDs. */
  predicate Shaped(p: Process) {
    var list := p.node.list;
    && 1 <= |list| <= 3
    && !list[0].leader
    && (|list| > 1 ==> list[1].leader && list[1].id != list[0].id)
    && (|list| > 2 ==> list[2].id != list[0].id && list[2].id != list[1].id)
  }

  /** While the successor's socket is watched, the third entry is the successor behind it. So when it
      closes, there is an entry for delete_server to find. */
  predicate Linked(p: Process) {
    && NO_SOCKET !in p.watched
    && (p.nextSock in p.watched ==> |p.node.list| == 3 && p.node.list[2].sock == p.nextSock)
  }

  /** An announced successor that is neither the process itself nor its leader. */
  predicate Foreign(list: seq<Entry>, id: int) {
    forall i :: 0 <= i < |list| && i < 2 ==> list[i].id != id
  }

  lemma {:induction false} WelcomeShape(p: Process, leader: int, leaderSock: int, next: Option<int>, nextSock: int,
                                        now: int)
    requires |p.node.list| == 1 && leader != p.node.list[0].id
    ensures Shaped(Welcomed(p, leader, leaderSock, next, nextSock, now))
    ensures Welcomed(p, leader, leaderSock, next, nextSock, now).node.list ==
            [p.node.list[0].(leader := false), Entry(leader, true, leaderSock, now)] +
            if next.Some? && next.value != leader && next.value != p.node.list[0].id
            then [Entry(next.value, false, nextSock, now)] else []
  {
    var own := p.node.list[0 := p.node.list[0].(leader := false)];
    var e := Entry(leader, true, leaderSock, now);
    assert own == [p.node.list[0].(leader := false)];
    assert Appended(own, e) == [own[0], e];
    assert own[0].id == p.node.list[0].id && e.id == leader;
    if next.Some? {
      assert HasId([own[0], e], next.value) <==> next.value == own[0].id || next.value == leader by {
        assert [own[0], e][0].id == own[0].id && [own[0], e][1].id == leader;
      }
    }
  }

  lemma {:induction false} RepointShape(p: Process, id: int, sock: int, now: int)
    requires |p.node.list| > 1 && Shaped(p)
    ensures Shaped(Repointed(p, id, sock, now))
    ensures Repointed(p, id, sock, now).node.list ==
            p.node.list[..2] + if Foreign(p.node.list, id) then [Entry(id, false, sock, now)] else []
  {
    var list := p.node.list;
    if |list| > 2 {
      assert FindId(list, list[2].id, 1) == 2;
      assert Deleted(list, list[2].id) == list[..2];
    } else {
      assert list == list[..2];
    }
    var two := list[..2];
    assert two[0] == list[0] && two[1] == list[1];
    assert HasId(two, id) <==> !Foreign(list, id);
  }

  lemma {:induction false} LeaderShape(p: Process, from: int, leader: int, next: Option<int>, nextSock: int, now: int)
    requires Shaped(p) && (next.Some? && |p.node.list| == 1 ==> leader != p.node.list[0].id)
    ensures Shaped(ToldLeader(p, from, leader, next, nextSock, now))
    ensures |p.node.list| == 1 && leader == p.node.list[0].id ==>
              ToldLeader(p, from, leader, next, nextSock, now).node.list == p.node.list
    ensures |p.node.list| > 1 || leader != p.node.list[0].id ==>
              var two := if |p.node.list| == 1 then [p.node.list[0], Entry(leader, true, from, now)]
                         else p.node.list[..2];
              ToldLeader(p, from, leader, next, nextSock, now).node.list ==
              if next.None? then (if |p.node.list| == 1 then two else p.node.list)
              else two + if two[0].id != next.value && two[1].id != next.value
                         then [Entry(next.value, false, nextSock, now)] else []
  {
    var list := if |p.node.list| == 1 then Appended(p.node.list, Entry(leader, true, from, now)) else p.node.list;
    if |p.node.list| == 1 {
      assert HasId(p.node.list, leader) <==> p.node.list[0].id == leader;
    }
    var q := p.(node := p.node.(list := list), leaderSock := from);
    if next.Some? {
      RepointShape(q, next.value, nextSock, now);
    }
  }

  lemma {:induction false} LossShape(p: Process)
    requires Shaped(p) && |p.node.list| > 2
    ensures Shaped(SuccessorLost(p)) && SuccessorLost(p).node.list == p.node.list[..2]
  {
    var list := p.node.list;
    assert FindId(list, list[2].id, 1) == 2;
    assert Deleted(list, list[2].id) == list[..2];
  }

  lemma {:induction false} WelcomeKeeps(p: Process, leader: int, leaderSock: int, next: Option<int>, nextSock: int,
                                        now: int)
    requires |p.node.list| == 1 && Linked(p) && leader != p.node.list[0].id
    requires {leaderSock, nextSock} !! p.watched + {NO_SOCKET} && leaderSock != nextSock
    requires leaderSock != p.nextSock
    ensures Shaped(Welcomed(p, leader, leaderSock, next, nextSock, now))
    ensures Linked(Welcomed(p, leader, leaderSock, next, nextSock, now)) <==>
            (next.Some? ==> next.value != leader && next.value != p.node.list[0].id)
  {
    var own := p.node.list[0 := p.node.list[0].(leader := false)];
    var e := Entry(leader, true, leaderSock, now);
    assert Appended(own, e) == [own[0], e];
    assert own[0].id == p.node.list[0].id && e.id == leader;
    var list := [own[0], e];
    assert list[0].id == p.node.list[0].id && list[1].id == leader;
  }

  lemma {:induction false} RepointKeeps(p: Process, id: int, sock: int, now: int)
    requires |p.node.list| > 1 && Shaped(p) && Linked(p)
    requires sock !in p.watched && sock != NO_SOCKET
    ensures Shaped(Repointed(p, id, sock, now))
    ensures Linked(Repointed(p, id, sock, now)) <==> Foreign(p.node.list, id)
  {
    RepointShape(p, id, sock, now);
  }

  lemma {:induction false} LeaderKeeps(p: Process, from: int, leader: int, next: Option<int>, nextSock: int, now: int)
    requires Shaped(p) && Linked(p)
    requires |p.node.list| == 1 ==> leader != p.node.list[0].id
    requires nextSock !in p.watched && nextSock != NO_SOCKET
    ensures Shaped(ToldLeader(p, from, leader, next, nextSock, now))
    ensures next.None? ==> Linked(ToldLeader(p, from, leader, next, nextSock, now))
    ensures next.Some? ==> (Linked(ToldLeader(p, from, leader, next, nextSock, now)) <==>
              next.value != p.node.list[0].id &&
              next.value != if |p.node.list| == 1 then leader else p.node.list[1].id)
  {
    var list := if |p.node.list| == 1 then Appended(p.node.list, Entry(leader, true, from, now)) else p.node.list;
    if |p.node.list| == 1 {
      assert list == p.node.list + [Entry(leader, true, from, now)];
    }
    var q := p.(node := p.node.(list := list), leaderSock := from);
    if next.Some? {
      RepointKeeps(q, next.value, nextSock, now);
    }
  }

  lemma {:induction false} LossKeeps(p: Process)
    requires Shaped(p) && Linked(p) && p.nextSock in p.watched
    ensures |p.node.list| == 3 && FindId(p.node.list, p.node.list[2].id, 1) == 2
    ensures Shaped(SuccessorLost(p)) && Linked(SuccessorLost(p))
    ensures SuccessorLost(p).node.list == p.node.list[..2]
  {
    LossShape(p);
  }

  /** An election message that the process can answer leaves its list as it was or holding the process
      alone; a teardown forgets both successor sockets, so that no watched one is left without its entry. */
  lemma {:induction false} ElectionKeeps(p: Process, m: Message)
    requires Shaped(p) && Linked(p) && p.node.list[0].id > 0 && Answerable(p.node, m)
    requires m == Vote(p.node.list[0].id) ==> p.node.list[0].id != 1
    ensures Manageable(p.node, m)
    ensures var (q, sent) := ElectionHeard(p, m);
            && Linked(q) && (q.node, sent) == Handled(p.node, m)
            && (q.node.list == p.node.list || |q.node.list| == 1)
            && (m != Vote(p.node.list[0].id) ==> Shaped(q))
  {
    if |p.node.list| == 3 {
      IntactHandles(p.node, p.node.list[0].id, p.node.list[2].id, m);
    }
  }

  // ----- Over any history of a process that does not come to lead -----

  datatype Event =
    | Welcome(leader: int, from: int, next: Option<int>, sock: int, now: int)
    | Update(from: int, id: int, sock: int, now: int)
    | KnowLeader(leader: int, from: int, next: Option<int>, sock: int, now: int)
    | NextClosed
    | LeaderClosed
    | Pulse(id: int, now: int)
    | Beat(id: int, now: int)
    | Accept(sock: int)
    | Check(now: int, timeout: int)
    | Elect(m: Message)

  /** New sockets are unused, a welcome comes to a process that knows only itself, and the process does not
      win: neither by its own VOTE nor by missing its leader's heartbeat without a successor. */
  ghost predicate Legal(p: Process, e: Event)
    requires Shaped(p)
  {
    var list := p.node.list;
    var id := list[0].id;
    match e
    case Welcome(leader, from, next, sock, _) =>
      && |list| == 1 && leader != id
      && {from, sock} !! p.watched + {NO_SOCKET} && from != sock && from != p.nextSock
    case Update(_, _, sock, _) => sock !in p.watched && sock != NO_SOCKET
    case KnowLeader(_, _, _, sock, _) => sock !in p.watched && sock != NO_SOCKET
    case NextClosed => p.nextSock in p.watched
    case LeaderClosed => p.leaderSock in p.watched
    case Pulse(_, _) => true
    case Beat(_, _) => true
    case Accept(sock) => sock !in p.watched + {NO_SOCKET, p.nextSock}
    case Check(now, timeout) => |list| == 2 ==> now - list[1].beat < timeout
    case Elect(m) => id > 0 && m != Vote(id)
  }

  /** The handler does not follow a null pointer. */
  ghost predicate Safe(p: Process, e: Event)
    requires Shaped(p)
  {
    var list := p.node.list;
    match e
    case Welcome(_, _, _, _, _) => true
    case Update(from, _, _, _) => from == p.leaderSock ==> |list| > 1
    case KnowLeader(leader, _, next, _, _) => next.Some? && |list| == 1 ==> leader != list[0].id
    case NextClosed => |list| > 2
    case LeaderClosed => true
    case Pulse(_, _) => |list| > 1
    case Beat(_, _) => true
    case Accept(_) => true
    case Check(_, _) => |list| > 1
    case Elect(m) => Manageable(p.node, m)
  }

  /** A successor that the event makes the process accept is neither the process itself nor its leader. */
  ghost predicate Apt(p: Process, e: Event)
    requires Shaped(p)
  {
    var list := p.node.list;
    match e
    case Welcome(leader, _, next, _, _) => next.Some? ==> next.value != leader && next.value != list[0].id
    case Update(from, id, _, _) => from == p.leaderSock ==> Foreign(list, id)
    case KnowLeader(leader, _, next, _, _) =>
      next.Some? ==> Foreign(list, next.value) && (|list| == 1 ==> next.value != leader)
    case NextClosed => true
    case LeaderClosed => true
    case Pulse(_, _) => true
    case Beat(_, _) => true
    case Accept(_) => true
    case Check(_, _) => true
    case Elect(_) => true
  }

  function Changed(p: Process, e: Event): Process
    requires Shaped(p) && Safe(p, e)
  {
    match e
    case Welcome(leader, from, next, sock, now) => Welcomed(p, leader, from, next, sock, now)
    case Update(from, id, sock, now) => Updated(p, from, id, sock, now)
    case KnowLeader(leader, from, next, sock, now) => ToldLeader(p, from, leader, next, sock, now)
    case NextClosed => SuccessorLost(p)
    case LeaderClosed => LeaderLost(p)
    case Pulse(id, now) => Pulsed(p, id, now)
    case Beat(id, now) => p.(node := p.node.(list := Stamped(p.node.list, id, now)))
    case Accept(sock) => p.(watched := p.watched + {sock})
    case Check(now, timeout) => p.(node := Checked(p.node, now, timeout).0)
    case Elect(m) => ElectionHeard(p, m).0
  }

  /** The shape needs nothing but that no handler trips. */
  lemma {:induction false} ShapeStep(p: Process, e: Event)
    requires Shaped(p) && Legal(p, e) && Safe(p, e)
    ensures Shaped(Changed(p, e))
  {
    match e
    case Welcome(leader, from, next, sock, now) => WelcomeShape(p, leader, from, next, sock, now);
    case Update(_, id, sock, now) =>
      if |p.node.list| > 1 {
        RepointShape(p, id, sock, now);
      }
    case KnowLeader(leader, from, next, sock, now) => LeaderShape(p, from, leader, next, sock, now);
    case NextClosed => LossShape(p);
    case LeaderClosed =>
    case Pulse(_, _) =>
    case Beat(id, now) => StampedEach(p.node.list, id, now);
    case Accept(_) =>
    case Check(_, _) =>
    case Elect(m) =>
      if |p.node.list| == 3 {
        IntactHandles(p.node, p.node.list[0].id, p.node.list[2].id, m);
      }
  }

  /** The link between socket and entry is kept exactly by apt events; and with it a successor that closes
      its socket is safe to delete. */
  lemma {:induction false} LinkStep(p: Process, e: Event)
    requires Shaped(p) && Linked(p) && Legal(p, e)
    ensures e.NextClosed? ==> Safe(p, e)
    ensures Safe(p, e) ==> (Linked(Changed(p, e)) <==> Apt(p, e))
  {
    match e
    case Welcome(leader, from, next, sock, now) => WelcomeKeeps(p, leader, from, next, sock, now);
    case Update(_, id, sock, now) =>
      if |p.node.list| > 1 {
        RepointKeeps(p, id, sock, now);
      }
    case KnowLeader(leader, from, next, sock, now) =>
      if |p.node.list| == 1 ==> leader != p.node.list[0].id {
        LeaderKeeps(p, from, leader, next, sock, now);
      }
    case NextClosed => LossKeeps(p);
    case LeaderClosed =>
    case Pulse(_, _) =>
    case Beat(id, now) => StampedEach(p.node.list, id, now);
    case Accept(_) =>
    case Check(_, _) =>
    case Elect(m) =>
      if Answerable(p.node, m) {
        ElectionKeeps(p, m);
      }
  }

  /** Should a handler ever trip, anything may follow. */
  ghost predicate History(ps: seq<Process>, es: seq<Event>) {
    && |ps| == |es| + 1
    && |ps[0].node.list| == 1 && !ps[0].node.list[0].leader && NO_SOCKET !in ps[0].watched
    && ps[0].nextSock == NO_SOCKET
    && forall k :: 0 <= k < |es| && Shaped(ps[k]) ==>
        Legal(ps[k], es[k]) && (Safe(ps[k], es[k]) ==> ps[k + 1] == Changed(ps[k], es[k]))
  }

  ghost predicate SafeUpTo(ps: seq<Process>, es: seq<Event>, k: nat) {
    forall j :: 0 <= j < k && j < |es| && j < |ps| && Shaped(ps[j]) ==> Safe(ps[j], es[j])
  }

  ghost predicate AptUpTo(ps: seq<Process>, es: seq<Event>, k: nat) {
    forall j :: 0 <= j < k && j < |es| && j < |ps| && Shaped(ps[j]) ==> Apt(ps[j], es[j])
  }

  /** As long as no handler has tripped, the list is [itself], [itself, leader] or [itself, leader,
      successor] with distinct IDs. */
  lemma {:induction false} ShapeKept(ps: seq<Process>, es: seq<Event>, k: nat)
    requires History(ps, es) && k <= |es| && SafeUpTo(ps, es, k)
    ensures Shaped(ps[k])
  {
    if k > 0 {
      ShapeKept(ps, es, k - 1);
      ShapeStep(ps[k - 1], es[k - 1]);
    }
  }

  /** And if moreover every successor it accepted was a third process, then while the successor's socket is
      watched its entry is there: when it closes, delete_server finds what it looks for. */
  lemma {:induction false} LinkKept(ps: seq<Process>, es: seq<Event>, k: nat)
    requires History(ps, es) && k <= |es| && SafeUpTo(ps, es, k) && AptUpTo(ps, es, k)
    ensures Shaped(ps[k]) && Linked(ps[k])
    ensures k < |es| && es[k].NextClosed? ==> Safe(ps[k], es[k])
  {
    ShapeKept(ps, es, k);
    if k > 0 {
      LinkKept(ps, es, k - 1);
      LinkStep(ps[k - 1], es[k - 1]);
    }
    if k < |es| {
      LinkStep(ps[k], es[k]);
    }
  }

  // ----- When a handler trips -----

  /** The events that make a process follow a null pointer, by its list, IDs, flag and sockets. */
  predicate Trips(p: Process, e: Event)
    requires |p.node.list| > 0
  {
    var id, n := p.node.list[0].id, |p.node.list|;
    match e
    case Update(from, _, _, _) => n == 1 && from == p.leaderSock
    case KnowLeader(leader, _, next, _, _) => n == 1 && next.Some? && leader == id
    case Pulse(_, _) => n == 1
    case Check(_, _) => n == 1
    case Elect(Vote(v)) => n == 2 && (v > id || (v < id && !p.node.participant))
    case Elect(Leader(v)) => n == 2 && v != id
    case _ => false
  }

  lemma {:induction false} TripsStep(p: Process, e: Event)
    requires Shaped(p) && Linked(p) && Legal(p, e)
    ensures !Safe(p, e) <==> Trips(p, e)
  {
    if e.NextClosed? {
      LossKeeps(p);
    }
    if e.Elect? && |p.node.list| == 3 {
      IntactHandles(p.node, p.node.list[0].id, p.node.list[2].id, e.m);
    }
  }

  /** In a history in which nothing has tripped and every accepted successor was a third process, the next
      event trips exactly if it is an election message that must be answered by a process with a leader
      but no successor, or one of these to a process alone in its list: an update on the socket of the
      leader it had, a heartbeat by multicast, a check of the leader's age (the main loop makes none then),
      or a new leader's announcement that gives the process itself as leader. */
  lemma {:induction false} TripsExactly(ps: seq<Process>, es: seq<Event>, k: nat)
    requires History(ps, es) && k < |es| && SafeUpTo(ps, es, k) && AptUpTo(ps, es, k)
    ensures Shaped(ps[k]) && (!Safe(ps[k], es[k]) <==> Trips(ps[k], es[k]))
  {
    LinkKept(ps, es, k);
    TripsStep(ps[k], es[k]);
  }

  /** A successor that closes its socket leaves the process without one; a VOTE it would have to forward
      then trips it. */
  lemma {:induction false} ClosedExample(now: int) returns (ps: seq<Process>, es: seq<Event>)
    ensures es == [Welcome(9, 10, Some(7), 11, now), NextClosed, Elect(Vote(7))]
    ensures History(ps, es) && SafeUpTo(ps, es, 2) && AptUpTo(ps, es, 3)
    ensures Shaped(ps[2]) && Linked(ps[2]) && !Safe(ps[2], es[2])
  {
    var p0, p1 := WelcomedExample(now);
    LossKeeps(p1);
    var p2 := SuccessorLost(p1);
    es := [Welcome(9, 10, Some(7), 11, now), NextClosed, Elect(Vote(7))];
    ps := [p0, p1, p2, p2];
    assert p2.node.list == p1.node.list[..2];
  }

  lemma {:induction false} WelcomedExample(now: int) returns (p0: Process, p1: Process)
    ensures p0 == Process(Node([Entry(5, false, NO_SOCKET, now)], false), NO_SOCKET, NO_SOCKET, {})
    ensures p1 == Welcomed(p0, 9, 10, Some(7), 11, now) && Shaped(p0) && Shaped(p1) && Linked(p1)
    ensures p1.node == Node([Entry(5, false, NO_SOCKET, now), Entry(9, true, 10, now), Entry(7, false, 11, now)], false)
    ensures p1.leaderSock == 10 && p1.nextSock == 11 && p1.watched == {10, 11}
  {
    p0 := Process(Node([Entry(5, false, NO_SOCKET, now)], false), NO_SOCKET, NO_SOCKET, {});
    p1 := Welcomed(p0, 9, 10, Some(7), 11, now);
    WelcomeKeeps(p0, 9, 10, Some(7), 11, now);
    var own := [Entry(5, false, NO_SOCKET, now)];
    assert p0.node.list[0 := p0.node.list[0].(leader := false)] == own;
    assert Appended(own, Entry(9, true, 10, now)) == [own[0], Entry(9, true, 10, now)];
  }

  /** The teardown leaves ltcp_socket as it was. If the lost leader was only slow and sends an update about
      its other peers there, or if the new leader's heartbeat comes before its announcement, the process
      trips. */
  lemma {:induction false} TornDownExample(now: int, e: Event) returns (ps: seq<Process>, es: seq<Event>)
    requires e == Update(10, 6, 12, now) || e == Pulse(7, now)
    ensures es == [Welcome(9, 10, Some(7), 11, now), Elect(Leader(7)), e]
    ensures History(ps, es) && SafeUpTo(ps, es, 2) && AptUpTo(ps, es, 3)
    ensures Shaped(ps[2]) && Linked(ps[2]) && !Safe(ps[2], es[2])
  {
    var p0, p1 := WelcomedExample(now);
    IntactHandles(p1.node, 5, 7, Leader(7));
    ElectionKeeps(p1, Leader(7));
    var p2 := ElectionHeard(p1, Leader(7)).0;
    es := [Welcome(9, 10, Some(7), 11, now), Elect(Leader(7)), e];
    ps := [p0, p1, p2, p2];
    assert |p2.node.list| == 1 && p2.leaderSock == 10;
    assert p2.watched <= p1.watched;
  }
}
