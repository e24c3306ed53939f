/** What a process that does not lead watches: its sockets, and the age of its leader's last heartbeat. */
module PeerWatch {
  import opened Wrappers
  import opened ServerStruct
  import opened Election
  import opened Peer

  // ----- One event, exactly -----

  /** A new successor's socket in place of the old one, if there was a successor; nothing else. */
  ghost predicate Swapped(p: Process, q: Process, sock: int) {
    && q.nextSock == sock
    && forall s :: s in q.watched <==> s == sock || (s in p.watched && !(|p.node.list| > 2 && s == p.nextSock))
  }

  ghost predicate SameSockets(p: Process, q: Process) {
    q.leaderSock == p.leaderSock && q.nextSock == p.nextSock && q.watched == p.watched
  }

  /** The sockets after each event. */
  ghost predicate SocketsAfter(p: Process, e: Event, q: Process)
    requires Shaped(p)
  {
    match e
    case Welcome(_, from, next, sock, _) =>
      && q.leaderSock == from && q.nextSock == (if next.Some? then sock else p.nextSock)
      && (forall s :: s in q.watched <==> s in p.watched || s == from || (next.Some? && s == sock))
    case Update(from, _, sock, _) =>
      if from != p.leaderSock then q == p else q.leaderSock == p.leaderSock && Swapped(p, q, sock)
    case KnowLeader(_, from, next, sock, _) =>
      && q.leaderSock == from
      && (if next.None? then q.nextSock == p.nextSock && q.watched == p.watched else Swapped(p, q, sock))
    case NextClosed =>
      && q.leaderSock == p.leaderSock && q.nextSock == p.nextSock
      && forall s :: s in q.watched <==> s in p.watched && s != p.nextSock
    case LeaderClosed =>
      && q.node == p.node && q.leaderSock == NO_SOCKET && q.nextSock == p.nextSock
      && forall s :: s in q.watched <==> s in p.watched && s != p.leaderSock
    case Pulse(_, _) => SameSockets(p, q)
    case Beat(_, _) => SameSockets(p, q)
    case Accept(sock) =>
      && q.node == p.node && q.leaderSock == p.leaderSock && q.nextSock == p.nextSock
      && forall s :: s in q.watched <==> s in p.watched || s == sock
    case Check(_, _) => SameSockets(p, q)
    case Elect(_) =>
      if |q.node.list| == |p.node.list| then SameSockets(p, q)
      else
        && |p.node.list| == 3 && q.leaderSock == p.leaderSock && q.nextSock == NO_SOCKET
        && forall s :: s in q.watched <==> s in p.watched && s != p.nextSock && s != p.node.list[2].sock
  }

  lemma {:induction false} SocketsExact(p: Process, e: Event)
    requires Shaped(p) && Legal(p, e) && Safe(p, e)
    ensures SocketsAfter(p, e, Changed(p, e))
  {
    if e.Elect? && |p.node.list| == 3 {
      TeardownSockets(p, e.m);
    }
  }

  lemma {:induction false} TeardownSockets(p: Process, m: Message)
    requires Shaped(p) && |p.node.list| == 3 && p.node.list[0].id > 0 && m != Vote(p.node.list[0].id)
    requires Manageable(p.node, m)
    ensures SocketsAfter(p, Elect(m), ElectionHeard(p, m).0)
  {
    IntactHandles(p.node, p.node.list[0].id, p.node.list[2].id, m);
    if m.Leader? && m.id != p.node.list[0].id {
      var list := Lcr(p.node, m).node.list;
      assert FindId(list, list[1].id, 1) == 1;
      assert Deleted(list, list[1].id) == [list[0], list[2]];
    }
  }

  /** A heartbeat by multicast dates the leader's entry if it is the leader's; it touches nothing else. */
  lemma {:induction false} PulseExact(p: Process, id: int, now: int)
    requires Shaped(p) && |p.node.list| > 1
    ensures var q := Changed(p, Pulse(id, now));
            && SameSockets(p, q) && q.node.participant == p.node.participant
            && |q.node.list| == |p.node.list|
            && forall i :: 0 <= i < |q.node.list| ==>
                q.node.list[i] == if i == 1 && p.node.list[1].id == id then p.node.list[i].(beat := now)
                                  else p.node.list[i]
  {
  }

  // ----- The sockets, over any history -----

  /** The listening socket is watched, the leader's while there is one, and the successor's while it has an
      entry; and these three are different. */
  ghost predicate Selects(p: Process, listen: int) {
    && listen in p.watched
    && (p.leaderSock != NO_SOCKET ==> p.leaderSock in p.watched && p.leaderSock != listen)
    && (p.nextSock in p.watched ==> p.nextSock != listen && p.nextSock != p.leaderSock)
    && (|p.node.list| == 3 ==> p.node.list[2].sock == p.nextSock && p.nextSock in p.watched)
  }

  /** A message comes in on a watched socket; an announcement on neither the listening socket nor the
      successor's. */
  ghost predicate ArrivesWell(p: Process, e: Event, listen: int) {
    && (e.KnowLeader? ==> e.from in p.watched && e.from != listen && e.from != p.nextSock)
    && (e.LeaderClosed? ==> p.leaderSock != NO_SOCKET)
  }

  lemma {:induction false} SelectsStep(p: Process, e: Event, listen: int)
    requires Shaped(p) && Linked(p) && Legal(p, e) && Safe(p, e) && Apt(p, e)
    requires Selects(p, listen) && ArrivesWell(p, e, listen)
    ensures Selects(Changed(p, e), listen)
  {
    SocketsExact(p, e);
    LinkStep(p, e);
    ShapeStep(p, e);
    ThirdEntry(p, e);
  }

  /** The socket in the third entry is the one to the successor. */
  lemma {:induction false} ThirdEntry(p: Process, e: Event)
    requires Shaped(p) && Linked(p) && Legal(p, e) && Safe(p, e) && Apt(p, e)
    requires |p.node.list| == 3 ==> p.node.list[2].sock == p.nextSock && p.nextSock in p.watched
    requires |p.node.list| == 3 ==> p.nextSock != p.leaderSock
    ensures var q := Changed(p, e);
            |q.node.list| == 3 ==> q.node.list[2].sock == q.nextSock && q.nextSock in q.watched
  {
    match e
    case Welcome(leader, from, next, sock, now) => WelcomeShape(p, leader, from, next, sock, now);
    case Update(_, id, sock, now) =>
      if |p.node.list| > 1 {
        RepointShape(p, id, sock, now);
      }
    case KnowLeader(leader, from, next, sock, now) => LeaderShape(p, from, leader, next, sock, now);
    case NextClosed => LossShape(p);
    case LeaderClosed =>
    case Pulse(_, _) =>
    case Beat(id, now) => StampedEach(p.node.list, id, now);
    case Accept(_) =>
    case Check(_, _) =>
    case Elect(m) =>
      if |p.node.list| == 3 {
        IntactHandles(p.node, p.node.list[0].id, p.node.list[2].id, m);
      }
  }

  ghost predicate WellUpTo(ps: seq<Process>, es: seq<Event>, k: nat, listen: int) {
    forall j :: 0 <= j < k && j < |es| && j < |ps| && Shaped(ps[j]) ==>
      Apt(ps[j], es[j]) && ArrivesWell(ps[j], es[j], listen)
  }

  /** Over any history without a trip, in which every accepted successor was a third process: the process
      never stops listening, and never stops selecting on its leader's socket until that closes. */
  lemma {:induction false} SocketsKept(ps: seq<Process>, es: seq<Event>, k: nat, listen: int)
    requires History(ps, es) && k <= |es| && SafeUpTo(ps, es, k) && WellUpTo(ps, es, k, listen)
    requires listen in ps[0].watched && ps[0].leaderSock == NO_SOCKET
    ensures Shaped(ps[k]) && Selects(ps[k], listen)
  {
    LinkKept(ps, es, k);
    if k > 0 {
      SocketsKept(ps, es, k - 1, listen);
      LinkKept(ps, es, k - 1);
      SelectsStep(ps[k - 1], es[k - 1], listen);
    }
  }

  // ----- The leader's heartbeat, over any history -----

  /** When the process last had a sign of life from its leader: its greeting, or its last heartbeat. */
  ghost function LeaderSeen(ps: seq<Process>, es: seq<Event>, k: nat): int
    requires |ps| == |es| + 1 && k <= |es|
  {
    if k == 0 then 0
    else
      var before, list := LeaderSeen(ps, es, k - 1), ps[k - 1].node.list;
      match es[k - 1]
      case Welcome(_, _, _, _, now) => now
      case KnowLeader(_, _, _, _, now) => if |list| == 1 then now else before
      case Pulse(id, now) => if |list| > 1 && list[1].id == id then now else before
      case Beat(id, now) => if |list| > 1 && list[1].id == id then now else before
      case _ => before
  }

  lemma {:induction false} DatedStep(p: Process, e: Event)
    requires Shaped(p) && Legal(p, e) && Safe(p, e)
    ensures var list, list' := p.node.list, Changed(p, e).node.list;
            |list'| > 1 ==>
              match e
              case Welcome(_, _, _, _, now) => list'[1].beat == now
              case KnowLeader(_, _, _, _, now) => list'[1].beat == if |list| == 1 then now else list[1].beat
              case Pulse(id, now) => |list| > 1 && list'[1].beat == if list[1].id == id then now else list[1].beat
              case Beat(id, now) => |list| > 1 && list'[1].beat == if list[1].id == id then now else list[1].beat
              case _ => |list| > 1 && list'[1].beat == list[1].beat
  {
    match e
    case Welcome(leader, from, next, sock, now) => WelcomeShape(p, leader, from, next, sock, now);
    case Update(_, id, sock, now) =>
      if |p.node.list| > 1 {
        RepointShape(p, id, sock, now);
      }
    case KnowLeader(leader, from, next, sock, now) => LeaderShape(p, from, leader, next, sock, now);
    case NextClosed => LossShape(p);
    case LeaderClosed =>
    case Pulse(_, _) =>
    case Beat(id, now) => StampedEach(p.node.list, id, now);
    case Accept(_) =>
    case Check(_, _) =>
    case Elect(m) =>
      if |p.node.list| == 3 {
        IntactHandles(p.node, p.node.list[0].id, p.node.list[2].id, m);
      }
  }

  lemma {:induction false} LeaderDated(ps: seq<Process>, es: seq<Event>, k: nat)
    requires History(ps, es) && k <= |es| && SafeUpTo(ps, es, k)
    ensures Shaped(ps[k])
    ensures |ps[k].node.list| > 1 ==> ps[k].node.list[1].beat == LeaderSeen(ps, es, k)
  {
    ShapeKept(ps, es, k);
    if k > 0 {
      LeaderDated(ps, es, k - 1);
      DatedStep(ps[k - 1], es[k - 1]);
    }
  }

  /** Over any history without a trip: when the process checks its leader, it asks for an election, with its
      own VOTE and its flag up, if and only if the leader's last sign of life is at least `timeout` ago
      and it has not voted yet; otherwise nothing happens. Heartbeats of others do not count. */
  lemma {:induction false} CheckAsks(ps: seq<Process>, es: seq<Event>, k: nat, now: int, timeout: int)
    requires History(ps, es) && k < |es| && SafeUpTo(ps, es, k + 1) && es[k] == Check(now, timeout)
    ensures Shaped(ps[k]) && |ps[k].node.list| > 1
    ensures var (node, sent) := Checked(ps[k].node, now, timeout);
            if now - LeaderSeen(ps, es, k) >= timeout && !ps[k].node.participant
            then node == ps[k].node.(participant := true) && sent == [Vote(ps[k].node.list[0].id)]
            else node == ps[k].node && sent == []
    ensures ps[k + 1] == ps[k].(node := Checked(ps[k].node, now, timeout).0)
  {
    LeaderDated(ps, es, k);
  }
}
