/** The peers of a registry at work: runs of their handlers over everything the leader sends them, in any
    history of the registry. */
module PeerRuns {
  import opened Wrappers
  import opened ServerStruct
  import opened RegistryRing
  import opened PeerKnowledge
  import opened RingFormation
  import Peer

  // ----- What the leader sends is what a peer expects -----

  function EventOf(notice: Notice, from: int, sock: int, now: int): Peer.Event {
    match notice
    case Welcome(leader, next) => Peer.Welcome(leader, from, next, sock, now)
    case UpdateFromLeader(id) => Peer.Update(from, id, sock, now)
    case KnowNewLeader(leader, next) => Peer.KnowLeader(leader, from, next, sock, now)
  }

  /** The process is the one registered at position i, with a list that the leader's messages have made. */
  ghost predicate Is(list: seq<Entry>, i: nat, p: Peer.Process)
    requires 1 <= i < |list|
  {
    && Peer.Shaped(p)
    && p.node.list[0].id == list[i].id
    && (|p.node.list| > 1 ==> p.node.list[1].id == list[0].id)
  }

  lemma {:induction false} OutwardIsApt(list: seq<Entry>, i: nat, p: Peer.Process, m: Sent, sock: int, now: int)
    requires RegistryOk(list) && 1 <= i < |list| && Is(list, i, p)
    requires Outward(list, m) && m.to == list[i].sock
    requires !m.notice.UpdateFromLeader? ==> m.notice.leader == list[0].id
    ensures Peer.Apt(p, EventOf(m.notice, m.to, sock, now))
  {
    var j :| 1 <= j < |list| && list[j].sock == m.to && NamesOther(list, j, m.notice);
    assert j == i;
  }

  ghost predicate NewsOf(r: Registry, op: Op, r': Registry, j: nat, list: seq<Entry>, i: nat) {
    && |r.outbox| <= j < |r'.outbox|
    && list == (if Joining(op) then r'.list else r.list)
    && 1 <= i < |list| && r'.outbox[j].to == list[i].sock
  }

  /** Whatever an operation of the leader sends to a peer under the socket it is registered with names a third
      process. */
  lemma {:induction false} SentIsApt(rs: seq<Registry>, ops: seq<Op>, k: nat, j: nat, list: seq<Entry>, i: nat,
                                     p: Peer.Process,
                  sock: int, now: int)
    requires History(rs, ops) && k < |ops| && AllFresh(rs, ops, k + 1)
    requires NewsOf(rs[k], ops[k], rs[k + 1], j, list, i) && Is(list, i, p)
    ensures var m := rs[k + 1].outbox[j]; Peer.Apt(p, EventOf(m.notice, m.to, sock, now))
  {
    var m := rs[k + 1].outbox[j];
    RingAgreement(rs, ops, k);
    RingAgreement(rs, ops, k + 1);
    HistoryGreets(rs, ops, k + 1);
    SentOutward(rs[k], ops[k]);
    HeadKept(rs[k], ops[k]);
    NotRepeated(rs[k], ops[k], m, list, i);
    OutwardIsApt(list, i, p, m, sock, now);
  }

  lemma {:induction false} HeadKept(r: Registry, op: Op)
    requires Sound(r) && Legal(r, op)
    ensures |Done(r, op).list| > 0 && Done(r, op).list[0].id == r.list[0].id
  {
    if op.Sweep? {
      SweepFilters(r, 1, op.now, op.timeout);
    }
  }

  /** The answer to a repeated announcement comes on a socket that is registered nowhere. */
  lemma {:induction false} NotRepeated(r: Registry, op: Op, m: Sent, list: seq<Entry>, i: nat)
    requires Sound(r) && Legal(r, op) && list == (if Joining(op) then Done(r, op).list else r.list)
    requires 1 <= i < |list| && list[i].sock == m.to
    ensures !Repeat(r, op, m)
  {
  }

  // ----- The registered peers, as they handle it -----

  /** What was sent to these sockets and is read at all names a third process: all of it but a welcome that
      comes after another greeting. */
  ghost predicate Tactful(outbox: seq<Sent>, socks: set<int>, self: int, leader: int) {
    forall k :: 0 <= k < |outbox| && outbox[k].to in socks ==> TactfulAt(outbox[..k], outbox[k], socks, self, leader)
  }

  ghost predicate TactfulAt(before: seq<Sent>, m: Sent, socks: set<int>, self: int, leader: int) {
    Announced(m.notice).Some? && (m.notice.Welcome? ==> Silent(before, socks)) ==>
    Announced(m.notice).value != self && Announced(m.notice).value != leader
  }

  ghost predicate AllTactful(r: Registry, own: Owners) {
    && |r.list| > 0
    && forall id :: id in IdsOf(r.list) ==> id in own && Tactful(r.outbox, own[id], id, r.list[0].id)
  }

  lemma {:induction false} TactfulWider(outbox: seq<Sent>, socks: set<int>, sock: int, self: int, leader: int)
    requires Tactful(outbox, socks, self, leader) && Unused(outbox, sock)
    ensures Tactful(outbox, socks + {sock}, self, leader)
  {
    forall k | 0 <= k < |outbox| && outbox[k].to in socks + {sock}
      ensures TactfulAt(outbox[..k], outbox[k], socks + {sock}, self, leader)
    {
      assert TactfulAt(outbox[..k], outbox[k], socks, self, leader);
    }
  }

  lemma {:induction false} TactfulMore(outbox: seq<Sent>, outbox': seq<Sent>, socks: set<int>, self: int, leader: int)
    requires Tactful(outbox, socks, self, leader) && outbox <= outbox'
    requires forall k :: |outbox| <= k < |outbox'| && outbox'[k].to in socks ==>
              TactfulAt(outbox'[..k], outbox'[k], socks, self, leader)
    ensures Tactful(outbox', socks, self, leader)
  {
    forall k | 0 <= k < |outbox|
      ensures outbox'[k] == outbox[k] && outbox'[..k] == outbox[..k]
    {
    }
  }

  /** What is already there stays tactful for whoever is a peer after the operation. */
  lemma {:induction false} TactfulBefore(r: Registry, own: Owners, op: Op, id: int)
    requires Sound(r) && Greeted(r, own) && AllTactful(r, own) && Legal(r, op) && FreshSockets(r, op)
    requires |Done(r, op).list| > 0 && id in IdsOf(Done(r, op).list)
    ensures id in Owned(own, r, op) && Tactful(r.outbox, Owned(own, r, op)[id], id, r.list[0].id)
  {
    if !Joining(op) {
      KeptIds(r, op);
    } else if id == op.id {
      TactfulJoiner(r, own, op);
    } else {
      JoinIds(r, op);
    }
  }

  lemma {:induction false} TactfulJoiner(r: Registry, own: Owners, op: Op)
    requires AllTactful(r, own) && Joining(op) && Legal(r, op) && FreshSockets(r, op)
    ensures Tactful(r.outbox, Joined(own, r, op.id, op.sock)[op.id], op.id, r.list[0].id)
  {
    if HasId(r.list, op.id) {
      var k :| 0 <= k < |r.list| && r.list[k].id == op.id;
      assert op.id in IdsOf(r.list);
      TactfulWider(r.outbox, own[op.id], op.sock, op.id, r.list[0].id);
    }
  }

  lemma {:induction false} KeptIds(r: Registry, op: Op)
    requires Sound(r) && Legal(r, op) && !Joining(op)
    ensures IdsOf(Done(r, op).list) <= IdsOf(r.list)
  {
    if op.Sweep? {
      SweepIds(r, 1, op.now, op.timeout);
    }
  }

  lemma {:induction false} RemovedIds(list: seq<Entry>, k: nat)
    requires 1 <= k < |list|
    ensures IdsOf(RemoveAt(list, k)) <= IdsOf(list)
  {
    var less := RemoveAt(list, k);
    forall j | 1 <= j < |less|
      ensures less[j].id in IdsOf(list)
    {
      assert less[j] == list[if j < k then j else j + 1];
    }
  }

  lemma {:induction false} SweepIds(r: Registry, i: nat, now: int, timeout: int)
    requires Sound(r) && 1 <= i <= |r.list|
    ensures IdsOf(Swept(r, i, now, timeout).list) <= IdsOf(r.list)
    decreases |r.list| - i
  {
    if i < |r.list| {
      if Dead(r.list[i], now, timeout) {
        DropKeeps(r, i);
        RemovedIds(r.list, i);
        SweepIds(Dropped(r, r.list[i].sock), i, now, timeout);
      } else {
        SweepIds(r, i + 1, now, timeout);
      }
    }
  }

  /** A new message to one of the sockets of a peer: it was sent to that peer, and names a third process. */
  lemma {:induction false} NewsTactful(r: Registry, own: Owners, op: Op, id: int, k: nat)
    requires Sound(r) && Greeted(r, own) && Legal(r, op) && FreshSockets(r, op)
    requires !(op.Reannounce? && HasId(r.list, op.id))
    requires var r' := Done(r, op);
             && |r'.list| > 0 && r'.list[0].id == r.list[0].id && id in IdsOf(r'.list)
             && r.outbox <= r'.outbox && |r.outbox| <= k < |r'.outbox|
             && Proper(r, op, if Joining(op) then r'.list else r.list, r'.outbox[k])
             && Greeted(r', Owned(own, r, op))
             && id in Owned(own, r, op) && r'.outbox[k].to in Owned(own, r, op)[id]
    ensures TactfulAt(Done(r, op).outbox[..k], Done(r, op).outbox[k], Owned(own, r, op)[id], id, r.list[0].id)
  {
    var r', own' := Done(r, op), Owned(own, r, op);
    var m, list := r'.outbox[k], if Joining(op) then r'.list else r.list;
    if Outward(list, m) {
      var p :| 1 <= p < |list| && list[p].sock == m.to && NamesOther(list, p, m.notice);
      assert list[p].id == id by {
        OwnerOfSock(r, own, op, id, p);
      }
    } else {
      RepeatTactful(r, own, op, id, k);
    }
  }

  lemma {:induction false} OwnerOfSock(r: Registry, own: Owners, op: Op, id: int, p: nat)
    requires Sound(r) && Greeted(r, own) && Legal(r, op)
    requires var r' := Done(r, op);
             var list := if Joining(op) then r'.list else r.list;
             && Greeted(r', Owned(own, r, op)) && |r'.list| > 0 && id in IdsOf(r'.list) && id in Owned(own, r, op)
             && 1 <= p < |list| && list[p].sock in Owned(own, r, op)[id]
    ensures (if Joining(op) then Done(r, op).list else r.list)[p].id == id
  {
    var r', own' := Done(r, op), Owned(own, r, op);
    if Joining(op) {
      var i :| 1 <= i < |r'.list| && r'.list[i].id == id;
      assert OwnsSocks(r', own'[id], i);
    } else {
      KeptIds(r, op);
      assert id in IdsOf(r.list);
      var i :| 1 <= i < |r.list| && r.list[i].id == id;
      assert OwnsSocks(r, own[id], i);
    }
  }

  lemma {:induction false} RepeatTactful(r: Registry, own: Owners, op: Op, id: int, k: nat)
    requires Sound(r) && Greeted(r, own) && Legal(r, op) && FreshSockets(r, op) && op.Discover?
    requires var r' := Done(r, op);
             && |r'.list| > 0 && id in IdsOf(r'.list)
             && r.outbox <= r'.outbox && |r.outbox| <= k < |r'.outbox|
             && Repeat(r, op, r'.outbox[k]) && !Outward(r'.list, r'.outbox[k])
             && id in Owned(own, r, op) && r'.outbox[k].to in Owned(own, r, op)[id]
    ensures TactfulAt(Done(r, op).outbox[..k], Done(r, op).outbox[k], Owned(own, r, op)[id], id, r.list[0].id)
  {
    JoinIds(r, op);
    var r', own' := Done(r, op), Owned(own, r, op);
    var i :| 1 <= i < |r.list| && r.list[i].id == id;
    assert OwnsSocks(r, own[id], i);
    assert !Unused(r.outbox, r.list[i].sock);
    assert id == op.id;
    var j :| 0 <= j < |r.outbox| && r.outbox[j].to == r.list[i].sock;
    assert r'.outbox[..k][j] == r.outbox[j];
  }

  lemma {:induction false} DoneTactful(r: Registry, own: Owners, op: Op)
    requires Sound(r) && Greeted(r, own) && AllTactful(r, own) && Legal(r, op) && FreshSockets(r, op)
    requires !(op.Reannounce? && HasId(r.list, op.id))
    ensures AllTactful(Done(r, op), Owned(own, r, op))
  {
    var r', own' := Done(r, op), Owned(own, r, op);
    HeadKept(r, op);
    DoneGreets(r, own, op);
    SentOutward(r, op);
    forall id | id in IdsOf(r'.list)
      ensures id in own' && Tactful(r'.outbox, own'[id], id, r'.list[0].id)
    {
      TactfulBefore(r, own, op, id);
      forall k | |r.outbox| <= k < |r'.outbox| && r'.outbox[k].to in own'[id]
        ensures TactfulAt(r'.outbox[..k], r'.outbox[k], own'[id], id, r.list[0].id)
      {
        NewsTactful(r, own, op, id, k);
      }
      TactfulMore(r.outbox, r'.outbox, own'[id], id, r.list[0].id);
    }
  }

  lemma {:induction false} HistoryTactful(rs: seq<Registry>, ops: seq<Op>, k: nat)
    requires History(rs, ops) && k <= |ops| && AllFresh(rs, ops, k) && Once(rs, ops, k)
    ensures AllTactful(rs[k], OwnersAt(rs, ops, k))
  {
    if k > 0 {
      HistoryTactful(rs, ops, k - 1);
      HistoryGreets(rs, ops, k - 1);
      RingAgreement(rs, ops, k - 1);
      DoneTactful(rs[k - 1], OwnersAt(rs, ops, k - 1), ops[k - 1]);
    }
  }

  /** A run of the peer at position i, from knowing only itself to having handled everything sent to it. */
  ghost predicate RunOf(r: Registry, own: Owners, i: nat, ps: seq<Peer.Process>, news: seq<int>, now: int)
    requires i < |r.list|
  {
    && r.list[i].id in own
    && Handles(ps, r.list[i].id, r.outbox, own[r.list[i].id], news, now)
  }

  /** Over any history of the registry, repeated announcements included: no message of the leader makes a
      registered peer trip, its list always has one of the three shapes and it keeps the flag it had; and
      in the end its list is [itself, leader, cyclic successor] if and only if it is in touch. */
  lemma {:induction false} PeerHandlesAll(rs: seq<Registry>, ops: seq<Op>, k: nat, i: nat, ps: seq<Peer.Process>,
                                          news: seq<int>,
                       now: int, j: nat)
    requires History(rs, ops) && k <= |ops| && AllFresh(rs, ops, k) && 1 <= i < |rs[k].list|
    requires RunOf(rs[k], OwnersAt(rs, ops, k), i, ps, news, now) && j <= |rs[k].outbox|
    ensures var r, own := rs[k], OwnersAt(rs, ops, k);
            && Peer.Shaped(ps[j]) && ps[j].node.participant == ps[0].node.participant
            && (j < |r.outbox| && r.outbox[j].to in own[r.list[i].id] ==> Handleable(ps[j], r.outbox[j]))
            && (j == |r.outbox| ==> Ids(ps[j].node.list) == MindOf(r, own, i).ids)
            && (j == |r.outbox| && |r.list| > 2 ==>
                  (Ids(ps[j].node.list) == [r.list[i].id, r.list[0].id, r.list[Cyclic(r.list, i)].id] <==>
                   InTouch(r, own, i)))
  {
    var r, own := rs[k], OwnersAt(rs, ops, k);
    HistoryGreets(rs, ops, k);
    RingAgreement(rs, ops, k);
    assert OwnsSocks(r, own[r.list[i].id], i);
    HandlesAll(ps, r.list[i].id, r.list[0].id, r.outbox, own[r.list[i].id], news, now, j);
    assert r.outbox[..|r.outbox|] == r.outbox;
    if |r.list| > 2 {
      RingForms(rs, ops, k, i);
    }
  }

  /** Where nobody announces itself twice, it is. */
  lemma {:induction false} PeerKnowsRing(rs: seq<Registry>, ops: seq<Op>, k: nat, i: nat, ps: seq<Peer.Process>,
                                         news: seq<int>,
                      now: int)
    requires History(rs, ops) && k <= |ops| && AllFresh(rs, ops, k) && Once(rs, ops, k)
    requires |rs[k].list| > 2 && 1 <= i < |rs[k].list|
    requires RunOf(rs[k], OwnersAt(rs, ops, k), i, ps, news, now)
    ensures var r := rs[k];
            Ids(ps[|r.outbox|].node.list) == [r.list[i].id, r.list[0].id, r.list[Cyclic(r.list, i)].id]
  {
    PeerHandlesAll(rs, ops, k, i, ps, news, now, |rs[k].outbox|);
    RingFormsOnce(rs, ops, k, i);
  }

  /** The sockets the process opens to its successors, and the one its welcome comes on, are unused. */
  ghost predicate NewSockets(ps: seq<Peer.Process>, outbox: seq<Sent>, socks: set<int>, news: seq<int>)
    requires |ps| == |outbox| + 1 && |news| == |outbox|
  {
    && Peer.NO_SOCKET !in ps[0].watched && ps[0].nextSock !in ps[0].watched
    && forall j :: 0 <= j < |outbox| && outbox[j].to in socks ==>
        && news[j] !in ps[j].watched && news[j] != Peer.NO_SOCKET
        && (outbox[j].notice.Welcome? && |ps[j].node.list| == 1 ==>
              outbox[j].to !in ps[j].watched + {Peer.NO_SOCKET, news[j], ps[j].nextSock})
  }

  lemma {:induction false} HandledLinked(p: Peer.Process, m: Sent, sock: int, now: int)
    requires Peer.Shaped(p) && Peer.Linked(p) && Handleable(p, m)
    requires (m.notice.Welcome? && |p.node.list| > 1) || Peer.Apt(p, EventOf(m.notice, m.to, sock, now))
    requires sock !in p.watched && sock != Peer.NO_SOCKET
    requires m.notice.Welcome? && |p.node.list| == 1 ==> m.notice.leader != p.node.list[0].id
    requires m.notice.Welcome? && |p.node.list| == 1 ==> m.to !in p.watched + {Peer.NO_SOCKET, sock, p.nextSock}
    ensures Peer.Linked(Handled(p, m.to, m.notice, sock, now))
  {
    if !(m.notice.Welcome? && |p.node.list| > 1) {
      Peer.LinkStep(p, EventOf(m.notice, m.to, sock, now));
    }
  }

  /** A message that is tactful makes the process accept a third process, or nobody. */
  lemma {:induction false} TactfulIsApt(ps: seq<Peer.Process>, self: int, leader: int, outbox: seq<Sent>,
                                        socks: set<int>, j: nat,
                     sock: int, now: int)
    requires j < |ps| && j < |outbox| && Tracks(ps, self, outbox, socks, j) && outbox[j].to in socks
    requires Orderly(outbox, leader) && Firm(outbox, socks) && self != leader
    requires TactfulAt(outbox[..j], outbox[j], socks, self, leader)
    ensures var p, m := ps[j], outbox[j];
            && ((m.notice.Welcome? && |p.node.list| > 1) || Peer.Apt(p, EventOf(m.notice, m.to, sock, now)))
            && (m.notice.Welcome? ==> m.notice.leader != self)
  {
    OrderlyUpTo(outbox, leader, socks, j);
    KnowsLastHeard(self, leader, outbox[..j], socks);
    var list := ps[j].node.list;
    assert |list| > 1 ==> Ids(list)[1] == list[1].id;
  }

  /** And where nobody announces itself twice, no message of the registry leaves a peer watching a successor
      that has no entry: at every point of its run, delete_server would find what it looks for. */
  lemma {:induction false} PeerStaysLinked(rs: seq<Registry>, ops: seq<Op>, k: nat, i: nat,
                                           ps: seq<Peer.Process>, news: seq<int>, now: int, j: nat)
    requires History(rs, ops) && k <= |ops| && AllFresh(rs, ops, k) && Once(rs, ops, k) && 1 <= i < |rs[k].list|
    requires RunOf(rs[k], OwnersAt(rs, ops, k), i, ps, news, now) && j <= |rs[k].outbox|
    requires NewSockets(ps, rs[k].outbox, OwnersAt(rs, ops, k)[rs[k].list[i].id], news)
    ensures Peer.Linked(ps[j])
  {
    if j > 0 {
      PeerStaysLinked(rs, ops, k, i, ps, news, now, j - 1);
      LinkedNext(rs, ops, k, i, ps, news, now, j - 1);
    }
  }

  lemma {:induction false} LinkedNext(rs: seq<Registry>, ops: seq<Op>, k: nat, i: nat, ps: seq<Peer.Process>,
                                      news: seq<int>,
                   now: int, j: nat)
    requires History(rs, ops) && k <= |ops| && AllFresh(rs, ops, k) && Once(rs, ops, k) && 1 <= i < |rs[k].list|
    requires RunOf(rs[k], OwnersAt(rs, ops, k), i, ps, news, now) && j < |rs[k].outbox|
    requires NewSockets(ps, rs[k].outbox, OwnersAt(rs, ops, k)[rs[k].list[i].id], news)
    requires Peer.Linked(ps[j])
    ensures Peer.Linked(ps[j + 1])
  {
    var r, own := rs[k], OwnersAt(rs, ops, k);
    var self, leader, m := r.list[i].id, r.list[0].id, r.outbox[j];
    HistoryGreets(rs, ops, k);
    HistoryTactful(rs, ops, k);
    RingAgreement(rs, ops, k);
    assert OwnsSocks(r, own[self], i);
    HandlesAll(ps, self, leader, r.outbox, own[self], news, now, j);
    if m.to in own[self] {
      assert self in IdsOf(r.list);
      TactfulIsApt(ps, self, leader, r.outbox, own[self], j, news[j], now);
      HandledLinked(ps[j], m, news[j], now);
    }
  }
}
