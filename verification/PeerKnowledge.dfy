/** What a peer makes of the messages its leader has sent it, on all the sockets the leader has opened to
    it: by the IDs in its list and the one socket on which it heeds updates. */
module PeerKnowledge {
  import opened Wrappers
  import opened ServerStruct
  import opened RegistryRing
  import Peer

  /** The IDs in the list, and ltcp_socket: the last socket on which the process was greeted. */
  datatype Mind = Mind(ids: seq<int>, ear: Option<int>)

  function Learned(ids: seq<int>, id: int): seq<int> {
    if id in ids then ids else ids + [id]
  }

  /** One message on socket `from`, without the sockets to successors. A welcome is for a process that knows
      only itself; later ones reach a loop that has no branch for them. */
  function Heard(p: Mind, from: int, notice: Notice): Mind {
    match notice
    case Welcome(leader, next) =>
      if |p.ids| != 1 then p
      else
        var known := Learned(p.ids, leader);
        Mind(if next.Some? then Learned(known, next.value) else known, Some(from))
    case UpdateFromLeader(id) =>
      if p.ear != Some(from) then p
      else Mind(Learned(if |p.ids| > 2 then p.ids[..2] else p.ids, id), p.ear)
    case KnowNewLeader(leader, next) =>
      var known := if |p.ids| == 1 then Learned(p.ids, leader) else p.ids;
      Mind(if next.Some? then Learned(if |known| > 2 then known[..2] else known, next.value) else known, Some(from))
  }

  /** A process that has handled everything sent to its sockets, in the order in which it was sent. */
  function KnownTo(self: int, outbox: seq<Sent>, socks: set<int>): Mind {
    if outbox == [] then Mind([self], None)
    else
      var known, last := KnownTo(self, outbox[..|outbox| - 1], socks), outbox[|outbox| - 1];
      if last.to in socks then Heard(known, last.to, last.notice) else known
  }

  // ----- `Heard` is what the handlers do -----

  ghost function Ids(list: seq<Entry>): (ids: seq<int>)
    ensures |ids| == |list| && forall i :: 0 <= i < |ids| ==> ids[i] == list[i].id
  {
    seq(|list|, i requires 0 <= i < |list| => list[i].id)
  }

  ghost predicate Matches(p: Peer.Process, mind: Mind) {
    Ids(p.node.list) == mind.ids && (mind.ear.Some? ==> mind.ear.value == p.leaderSock)
  }

  /** The handler that a message on socket `from` gets to. */
  function Handled(p: Peer.Process, from: int, notice: Notice, sock: int, now: int): Peer.Process
    requires |p.node.list| > 0
    requires notice.UpdateFromLeader? && from == p.leaderSock ==> |p.node.list| > 1
    requires notice.KnowNewLeader? && |p.node.list| == 1 ==> notice.leader != p.node.list[0].id
  {
    match notice
    case Welcome(leader, next) =>
      if |p.node.list| == 1 then Peer.Welcomed(p, leader, from, next, sock, now) else p
    case UpdateFromLeader(id) => Peer.Updated(p, from, id, sock, now)
    case KnowNewLeader(leader, next) => Peer.ToldLeader(p, from, leader, next, sock, now)
  }

  lemma {:induction false} AppendedIds(list: seq<Entry>, e: Entry)
    ensures Ids(Appended(list, e)) == Learned(Ids(list), e.id)
  {
    if HasId(list, e.id) {
      var k :| 0 <= k < |list| && list[k].id == e.id;
      assert Ids(list)[k] == e.id;
    }
  }

  lemma {:induction false} RepointIds(p: Peer.Process, id: int, sock: int, now: int)
    requires Peer.Shaped(p) && |p.node.list| > 1
    ensures Ids(Peer.Repointed(p, id, sock, now).node.list) ==
            Learned(if |p.node.list| > 2 then Ids(p.node.list)[..2] else Ids(p.node.list), id)
    ensures Peer.Repointed(p, id, sock, now).node.list[0] == p.node.list[0]
  {
    var list := p.node.list;
    if |list| > 2 {
      assert FindId(list, list[2].id, 1) == 2;
      assert Deleted(list, list[2].id) == list[..2];
      assert Ids(list[..2]) == Ids(list)[..2];
      AppendedIds(list[..2], Entry(id, false, sock, now));
    } else {
      AppendedIds(list, Entry(id, false, sock, now));
    }
  }

  /** The handlers agree with `Heard`; and they leave the flag of the last election alone and make nobody
      leader. */
  lemma {:induction false} HeardIsHandled(p: Peer.Process, mind: Mind, from: int, notice: Notice, sock: int, now: int)
    requires Peer.Shaped(p) && Matches(p, mind) && (mind.ear.None? ==> from != p.leaderSock)
    requires notice.UpdateFromLeader? && from == p.leaderSock ==> |p.node.list| > 1
    requires notice.KnowNewLeader? && |p.node.list| == 1 ==> notice.leader != p.node.list[0].id
    ensures var q := Handled(p, from, notice, sock, now);
            && Matches(q, Heard(mind, from, notice))
            && q.node.participant == p.node.participant
            && |q.node.list| > 0 && !q.node.list[0].leader
  {
    match notice
    case Welcome(leader, next) =>
      var own := p.node.list[0 := p.node.list[0].(leader := false)];
      assert Ids(own) == Ids(p.node.list);
      AppendedIds(own, Entry(leader, true, from, now));
      if next.Some? {
        AppendedIds(Appended(own, Entry(leader, true, from, now)), Entry(next.value, false, sock, now));
      }
    case UpdateFromLeader(id) =>
      if from == p.leaderSock {
        RepointIds(p, id, sock, now);
      }
    case KnowNewLeader(leader, next) =>
      var e := Entry(leader, true, from, now);
      var list := if |p.node.list| == 1 then Appended(p.node.list, e) else p.node.list;
      AppendedIds(p.node.list, e);
      if next.Some? {
        assert |p.node.list| == 1 ==> list == p.node.list + [e];
        RepointIds(p.(node := p.node.(list := list), leaderSock := from), next.value, sock, now);
      }
  }

  // ----- What an outbox amounts to for one peer -----

  predicate Greets(notice: Notice, leader: int) {
    !notice.UpdateFromLeader? && notice.leader == leader
  }

  predicate Unused(outbox: seq<Sent>, sock: int) {
    forall j :: 0 <= j < |outbox| ==> outbox[j].to != sock
  }

  predicate Silent(outbox: seq<Sent>, socks: set<int>) {
    forall j :: 0 <= j < |outbox| ==> outbox[j].to !in socks
  }

  /** Every greeting names the same leader, a welcome opens its socket, and an update never does. */
  ghost predicate Orderly(outbox: seq<Sent>, leader: int) {
    forall k :: 0 <= k < |outbox| ==>
      if outbox[k].notice.UpdateFromLeader? then !Unused(outbox[..k], outbox[k].to)
      else outbox[k].notice.leader == leader && (outbox[k].notice.Welcome? ==> Unused(outbox[..k], outbox[k].to))
  }

  predicate Lonely(notice: Notice) {
    notice.KnowNewLeader? && notice.next.None?
  }

  /** A peer is told of no successor at its first greeting or never. */
  ghost predicate Firm(outbox: seq<Sent>, socks: set<int>) {
    forall k :: 0 <= k < |outbox| && outbox[k].to in socks && Lonely(outbox[k].notice) ==>
      Silent(outbox[..k], socks)
  }

  lemma {:induction false} OrderlyPrefix(outbox: seq<Sent>, leader: int)
    requires Orderly(outbox, leader) && outbox != []
    ensures Orderly(outbox[..|outbox| - 1], leader)
  {
    var rest := outbox[..|outbox| - 1];
    forall k | 0 <= k < |rest|
      ensures rest[k] == outbox[k] && rest[..k] == outbox[..k]
    {
    }
  }

  lemma {:induction false} FirmPrefix(outbox: seq<Sent>, socks: set<int>)
    requires Firm(outbox, socks) && outbox != []
    ensures Firm(outbox[..|outbox| - 1], socks)
  {
    var rest := outbox[..|outbox| - 1];
    forall k | 0 <= k < |rest|
      ensures rest[k] == outbox[k] && rest[..k] == outbox[..k]
    {
    }
  }

  lemma {:induction false} OrderlySnoc(outbox: seq<Sent>, leader: int, m: Sent)
    requires Orderly(outbox, leader)
    requires if m.notice.UpdateFromLeader? then !Unused(outbox, m.to)
             else m.notice.leader == leader && (m.notice.Welcome? ==> Unused(outbox, m.to))
    ensures Orderly(outbox + [m], leader)
  {
    var more := outbox + [m];
    assert more[..|outbox|] == outbox;
    forall k | 0 <= k < |outbox|
      ensures more[k] == outbox[k] && more[..k] == outbox[..k]
    {
    }
  }

  lemma {:induction false} FirmSnoc(outbox: seq<Sent>, socks: set<int>, m: Sent)
    requires Firm(outbox, socks)
    requires m.to in socks && Lonely(m.notice) ==> Silent(outbox, socks)
    ensures Firm(outbox + [m], socks)
  {
    var more := outbox + [m];
    assert more[..|outbox|] == outbox;
    forall k | 0 <= k < |outbox|
      ensures more[k] == outbox[k] && more[..k] == outbox[..k]
    {
    }
  }

  lemma {:induction false} FirmWider(outbox: seq<Sent>, socks: set<int>, sock: int)
    requires Firm(outbox, socks) && Unused(outbox, sock)
    ensures Firm(outbox, socks + {sock})
  {
    forall k | 0 <= k < |outbox| && outbox[k].to in socks + {sock} && Lonely(outbox[k].notice)
      ensures Silent(outbox[..k], socks + {sock})
    {
      assert outbox[k].to in socks;
      assert forall j :: 0 <= j < k ==> outbox[..k][j] == outbox[j];
    }
  }

  lemma {:induction false} NothingTold(outbox: seq<Sent>, sock: int)
    requires Unused(outbox, sock)
    ensures Told(outbox, sock) == None
  {
    if outbox != [] {
      NothingTold(outbox[..|outbox| - 1], sock);
    }
  }

  lemma {:induction false} KnownSnoc(self: int, outbox: seq<Sent>, m: Sent, socks: set<int>)
    ensures var known := KnownTo(self, outbox, socks);
            KnownTo(self, outbox + [m], socks) == if m.to in socks then Heard(known, m.to, m.notice) else known
  {
    assert (outbox + [m])[..|outbox|] == outbox;
  }

  lemma {:induction false} KnownWider(self: int, outbox: seq<Sent>, socks: set<int>, sock: int)
    requires Unused(outbox, sock)
    ensures KnownTo(self, outbox, socks + {sock}) == KnownTo(self, outbox, socks)
  {
    if outbox != [] {
      KnownWider(self, outbox[..|outbox| - 1], socks, sock);
    }
  }

  function Knows(self: int, leader: int, told: Option<int>): seq<int> {
    if told.Some? && told.value != self && told.value != leader then [self, leader, told.value] else [self, leader]
  }

  /** A peer greeted at all knows itself, the leader and the successor last named on the socket on which it
      was greeted last, if that is a third process. */
  ghost predicate WellInformed(self: int, leader: int, outbox: seq<Sent>, socks: set<int>, mind: Mind) {
    if Silent(outbox, socks) then mind == Mind([self], None)
    else
      && mind.ear.Some? && mind.ear.value in socks && !Unused(outbox, mind.ear.value)
      && mind.ids == Knows(self, leader, Told(outbox, mind.ear.value))
  }

  lemma {:induction false} KnowsLastHeard(self: int, leader: int, outbox: seq<Sent>, socks: set<int>)
    requires Orderly(outbox, leader) && Firm(outbox, socks) && self != leader
    ensures WellInformed(self, leader, outbox, socks, KnownTo(self, outbox, socks))
  {
    if outbox != [] {
      var rest, last := outbox[..|outbox| - 1], outbox[|outbox| - 1];
      OrderlyPrefix(outbox, leader);
      FirmPrefix(outbox, socks);
      KnowsLastHeard(self, leader, rest, socks);
      assert rest + [last] == outbox;
      KnownSnoc(self, rest, last, socks);
      if last.to in socks {
        if Silent(rest, socks) {
          FirstHeard(self, leader, rest, socks, last);
        } else {
          LaterHeard(self, leader, rest, socks, last);
        }
      }
    }
  }

  lemma {:induction false} FirstHeard(self: int, leader: int, rest: seq<Sent>, socks: set<int>, last: Sent)
    requires Silent(rest, socks) && last.to in socks && self != leader
    requires if last.notice.UpdateFromLeader? then !Unused(rest, last.to) else last.notice.leader == leader
    ensures WellInformed(self, leader, rest + [last], socks, Heard(Mind([self], None), last.to, last.notice))
  {
    NothingTold(rest, last.to);
    ToldSnoc(rest, last);
    assert (rest + [last])[|rest|] == last;
  }

  lemma {:induction false} LaterHeard(self: int, leader: int, rest: seq<Sent>, socks: set<int>, last: Sent)
    requires !Silent(rest, socks) && last.to in socks && self != leader
    requires WellInformed(self, leader, rest, socks, KnownTo(self, rest, socks))
    requires last.notice.Welcome? ==> Unused(rest, last.to)
    requires last.notice.KnowNewLeader? ==> last.notice.leader == leader && last.notice.next.Some?
    ensures WellInformed(self, leader, rest + [last], socks, Heard(KnownTo(self, rest, socks), last.to, last.notice))
  {
    var mind, all := KnownTo(self, rest, socks), rest + [last];
    ToldSnoc(rest, last);
    var j :| 0 <= j < |rest| && rest[j].to in socks;
    assert all[j] == rest[j];
    var e :| 0 <= e < |rest| && rest[e].to == mind.ear.value;
    assert all[e] == rest[e] && all[|rest|] == last;
    if mind.ids != [self, leader] {
      assert mind.ids[..2] == [self, leader];
    }
  }

  // ----- A process that handles it all -----

  /** The handler does not follow a null pointer. */
  predicate Handleable(p: Peer.Process, m: Sent) {
    && |p.node.list| > 0
    && (m.notice.UpdateFromLeader? && m.to == p.leaderSock ==> |p.node.list| > 1)
    && (m.notice.KnowNewLeader? && |p.node.list| == 1 ==> m.notice.leader != p.node.list[0].id)
  }

  /** The states of a process that starts out knowing only itself and handles what is sent to its sockets,
      with news[k] as socket to the successor that message k names, if any. Should a handler trip,
      anything may follow. */
  ghost predicate Handles(ps: seq<Peer.Process>, self: int, outbox: seq<Sent>, socks: set<int>, news: seq<int>,
                          now: int) {
    && |ps| == |outbox| + 1 && |news| == |outbox|
    && |ps[0].node.list| == 1 && ps[0].node.list[0].id == self && !ps[0].node.list[0].leader
    && ps[0].leaderSock !in socks
    && forall k :: 0 <= k < |outbox| ==>
        var m := outbox[k];
        if m.to !in socks then ps[k + 1] == ps[k]
        else Handleable(ps[k], m) ==> ps[k + 1] == Handled(ps[k], m.to, m.notice, news[k], now)
  }

  /** Whatever is sent, some process handles it. */
  lemma {:induction false} RunExists(p: Peer.Process, self: int, outbox: seq<Sent>, socks: set<int>, now: int)
    returns (ps: seq<Peer.Process>, news: seq<int>)
    requires |p.node.list| == 1 && p.node.list[0].id == self && !p.node.list[0].leader && p.leaderSock !in socks
    ensures Handles(ps, self, outbox, socks, news, now) && ps[0] == p
  {
    if outbox == [] {
      ps, news := [p], [];
    } else {
      var n, m := |outbox| - 1, outbox[|outbox| - 1];
      var before, olds := RunExists(p, self, outbox[..n], socks, now);
      var last := before[n];
      ps := before + [if m.to in socks && Handleable(last, m) then Handled(last, m.to, m.notice, n, now) else last];
      news := olds + [n];
      assert forall k :: 0 <= k < n ==> outbox[..n][k] == outbox[k];
      assert forall k :: 0 <= k < n ==> news[k] == olds[k];
      assert forall k :: 0 <= k <= n ==> ps[k] == before[k];
    }
  }

  lemma {:induction false} HandledShape(p: Peer.Process, m: Sent, sock: int, now: int)
    requires Peer.Shaped(p) && Handleable(p, m)
    requires m.notice.Welcome? ==> m.notice.leader != p.node.list[0].id
    ensures Peer.Shaped(Handled(p, m.to, m.notice, sock, now))
  {
    match m.notice
    case Welcome(leader, next) =>
      if |p.node.list| == 1 {
        Peer.WelcomeShape(p, leader, m.to, next, sock, now);
      }
    case UpdateFromLeader(id) =>
      if m.to == p.leaderSock {
        Peer.RepointShape(p, id, sock, now);
      }
    case KnowNewLeader(leader, next) => Peer.LeaderShape(p, m.to, leader, next, sock, now);
  }

  lemma {:induction false} OrderlyUpTo(outbox: seq<Sent>, leader: int, socks: set<int>, k: nat)
    requires Orderly(outbox, leader) && Firm(outbox, socks) && k <= |outbox|
    ensures Orderly(outbox[..k], leader) && Firm(outbox[..k], socks)
  {
    forall j | 0 <= j < k
      ensures outbox[..k][j] == outbox[j] && outbox[..k][..j] == outbox[..j]
    {
    }
  }

  /** What the process is after k messages. */
  ghost predicate Tracks(ps: seq<Peer.Process>, self: int, outbox: seq<Sent>, socks: set<int>, k: nat)
    requires k < |ps| && k <= |outbox|
  {
    var p, mind := ps[k], KnownTo(self, outbox[..k], socks);
    && Peer.Shaped(p) && p.node.list[0].id == self && Matches(p, mind)
    && (mind.ear.None? ==> p.leaderSock !in socks)
    && p.node.participant == ps[0].node.participant
  }

  /** It never trips, its list is what KnownTo says, and it comes out neither leader nor with another flag
      than it went in with. */
  lemma {:induction false} HandlesAll(ps: seq<Peer.Process>, self: int, leader: int, outbox: seq<Sent>,
                                      socks: set<int>, news: seq<int>, now: int, k: nat)
    requires Handles(ps, self, outbox, socks, news, now) && self != leader && k <= |outbox|
    requires Orderly(outbox, leader) && Firm(outbox, socks)
    ensures Tracks(ps, self, outbox, socks, k)
    ensures k < |outbox| && outbox[k].to in socks ==> Handleable(ps[k], outbox[k])
  {
    if k > 0 {
      HandlesAll(ps, self, leader, outbox, socks, news, now, k - 1);
      TracksStep(ps, self, leader, outbox, socks, news, now, k - 1);
    }
    if k < |outbox| && outbox[k].to in socks {
      TracksHandles(ps, self, leader, outbox, socks, k);
    }
  }

  lemma {:induction false} TracksHandles(ps: seq<Peer.Process>, self: int, leader: int, outbox: seq<Sent>,
                                         socks: set<int>, k: nat)
    requires k < |ps| && k < |outbox| && Tracks(ps, self, outbox, socks, k) && outbox[k].to in socks
    requires Orderly(outbox, leader) && Firm(outbox, socks) && self != leader
    ensures Handleable(ps[k], outbox[k])
  {
    OrderlyUpTo(outbox, leader, socks, k);
    KnowsLastHeard(self, leader, outbox[..k], socks);
  }

  lemma {:induction false} TracksStep(ps: seq<Peer.Process>, self: int, leader: int, outbox: seq<Sent>, socks: set<int>,
                   news: seq<int>, now: int, k: nat)
    requires Handles(ps, self, outbox, socks, news, now) && self != leader && k < |outbox|
    requires Orderly(outbox, leader) && Firm(outbox, socks) && Tracks(ps, self, outbox, socks, k)
    ensures Tracks(ps, self, outbox, socks, k + 1)
  {
    var p, m, mind := ps[k], outbox[k], KnownTo(self, outbox[..k], socks);
    assert outbox[..k + 1] == outbox[..k] + [m];
    KnownSnoc(self, outbox[..k], m, socks);
    if m.to in socks {
      TracksHandles(ps, self, leader, outbox, socks, k);
      HandledShape(p, m, news[k], now);
      HeardIsHandled(p, mind, m.to, m.notice, news[k], now);
    }
  }

  // ----- Which sockets belong to whom -----

  /** The sockets to each process since it was last entered in the registry, by ID. */
  type Owners = map<int, set<int>>

  function Joined(own: Owners, r: Registry, id: int, sock: int): Owners {
    own[id := (if HasId(r.list, id) && id in own then own[id] else {}) + {sock}]
  }

  function Owned(own: Owners, r: Registry, op: Op): Owners {
    if op.Discover? || op.Reannounce? then Joined(own, r, op.id, op.sock) else own
  }

  ghost function OwnersAt(rs: seq<Registry>, ops: seq<Op>, k: nat): Owners
    requires |rs| == |ops| + 1 && k <= |ops|
  {
    if k == 0 then map[] else Owned(OwnersAt(rs, ops, k - 1), rs[k - 1], ops[k - 1])
  }

  /** Sockets are never handed out twice. */
  ghost predicate FreshSockets(r: Registry, op: Op) {
    op.Discover? || op.Reannounce? ==> Unused(r.outbox, op.sock)
  }

  ghost predicate OwnsSocks(r: Registry, socks: set<int>, i: nat)
    requires i < |r.list|
  {
    && r.list[i].sock in socks
    && Firm(r.outbox, socks)
    && (forall s :: s in socks ==> !Unused(r.outbox, s))
    && (forall j :: 1 <= j < |r.list| && r.list[j].sock in socks ==> j == i)
  }

  /** Every registered peer was greeted on each of its sockets, the registered one among them. */
  ghost predicate Greeted(r: Registry, own: Owners) {
    && |r.list| > 0
    && Orderly(r.outbox, r.list[0].id)
    && forall i :: 1 <= i < |r.list| ==> r.list[i].id in own && OwnsSocks(r, own[r.list[i].id], i)
  }

  ghost function MindOf(r: Registry, own: Owners, i: nat): Mind
    requires i < |r.list| && r.list[i].id in own
  {
    KnownTo(r.list[i].id, r.outbox, own[r.list[i].id])
  }

  /** The peer heeds the leader on the socket under which it is registered. */
  ghost predicate Attends(r: Registry, own: Owners, i: nat)
    requires i < |r.list|
  {
    r.list[i].id in own && MindOf(r, own, i).ear == Some(r.list[i].sock)
  }

  ghost predicate AllAttend(r: Registry, own: Owners) {
    forall i :: 1 <= i < |r.list| ==> Attends(r, own, i)
  }

  lemma {:induction false} UsedSnoc(outbox: seq<Sent>, m: Sent)
    ensures forall s :: Unused(outbox + [m], s) <==> Unused(outbox, s) && m.to != s
  {
    var more := outbox + [m];
    assert forall j :: 0 <= j < |outbox| ==> more[j] == outbox[j];
    assert more[|outbox|] == m;
  }

  lemma {:induction false} OwnsSnoc(r: Registry, socks: set<int>, i: nat, m: Sent)
    requires i < |r.list| && OwnsSocks(r, socks, i)
    requires m.to in socks ==> !Lonely(m.notice)
    ensures OwnsSocks(r.(outbox := r.outbox + [m]), socks, i)
  {
    FirmSnoc(r.outbox, socks, m);
    UsedSnoc(r.outbox, m);
  }

  // ----- A message to a registered peer -----

  ghost predicate Further(notice: Notice, leader: int) {
    notice.UpdateFromLeader? || (notice.KnowNewLeader? && notice.leader == leader && notice.next.Some?)
  }

  lemma {:induction false} SendGreets(r: Registry, own: Owners, p: nat, notice: Notice)
    requires Greeted(r, own) && 1 <= p < |r.list| && Further(notice, r.list[0].id)
    ensures Greeted(r.(outbox := r.outbox + [Sent(r.list[p].sock, notice)]), own)
  {
    var m := Sent(r.list[p].sock, notice);
    assert OwnsSocks(r, own[r.list[p].id], p);
    OrderlySnoc(r.outbox, r.list[0].id, m);
    forall i | 1 <= i < |r.list|
      ensures OwnsSocks(r.(outbox := r.outbox + [m]), own[r.list[i].id], i)
    {
      OwnsSnoc(r, own[r.list[i].id], i, m);
    }
  }

  /** It changes nobody's attention, but may win that of the peer itself back. */
  lemma {:induction false} SendAttends(r: Registry, own: Owners, p: nat, notice: Notice, i: nat)
    requires Greeted(r, own) && 1 <= p < |r.list| && Further(notice, r.list[0].id) && 1 <= i < |r.list|
    ensures Attends(r, own, i) || (i == p && notice.KnowNewLeader?) <==>
            Attends(r.(outbox := r.outbox + [Sent(r.list[p].sock, notice)]), own, i)
  {
    assert OwnsSocks(r, own[r.list[i].id], i);
    KnownSnoc(r.list[i].id, r.outbox, Sent(r.list[p].sock, notice), own[r.list[i].id]);
  }

  // ----- A process joins -----

  lemma {:induction false} NewcomerOwns(r: Registry, own: Owners, e: Entry, first: Notice)
    requires Sound(r) && Greeted(r, own) && Registrable(r, e.id) && !HasId(r.list, e.id)
    requires Unused(r.outbox, e.sock) && Greets(first, r.list[0].id)
    ensures Greeted(Registry(Inserted(r.list, e), r.outbox + [Sent(e.sock, first)]),
                    own[e.id := {e.sock}])
  {
    var list, m, k := Inserted(r.list, e), Sent(e.sock, first), FindGreater(r.list, e.id, 1);
    var r' := Registry(list, r.outbox + [m]);
    OrderlySnoc(r.outbox, r.list[0].id, m);
    UsedSnoc(r.outbox, m);
    forall j | 1 <= j < |list| && j != k
      ensures var i := if j < k then j else j - 1;
              list[j] == r.list[i] && OwnsSocks(r, own[r.list[i].id], i) && list[j].sock != e.sock
    {
      assert OwnsSocks(r, own[r.list[if j < k then j else j - 1].id], if j < k then j else j - 1);
    }
    forall j | 1 <= j < |list|
      ensures list[j].id in own[e.id := {e.sock}] && OwnsSocks(r', own[e.id := {e.sock}][list[j].id], j)
    {
      if j == k {
        FirmAlone(r.outbox, m);
      } else {
        OwnsMoved(r, own[list[j].id], e, k, j, m);
      }
    }
  }

  lemma {:induction false} FirmAlone(outbox: seq<Sent>, m: Sent)
    requires Unused(outbox, m.to)
    ensures Firm(outbox + [m], {m.to})
  {
    assert (outbox + [m])[..|outbox|] == outbox;
  }

  lemma {:induction false} OwnsMoved(r: Registry, socks: set<int>, e: Entry, k: nat, j: nat, m: Sent)
    requires 1 <= k <= |r.list| && 1 <= j <= |r.list| && j != k && m.to == e.sock
    requires OwnsSocks(r, socks, if j < k then j else j - 1) && Unused(r.outbox, e.sock)
    ensures OwnsSocks(Registry(InsertAt(r.list, k, e), r.outbox + [m]), socks, j)
  {
    OwnsSnoc(r, socks, if j < k then j else j - 1, m);
    var list := InsertAt(r.list, k, e);
    forall q | 1 <= q < |list| && list[q].sock in socks
      ensures q == j
    {
      if q != k {
        assert list[q] == r.list[if q < k then q else q - 1];
      }
    }
  }

  lemma {:induction false} RepeatOwns(r: Registry, own: Owners, id: int, sock: int, first: Notice)
    requires Sound(r) && Greeted(r, own) && Registrable(r, id) && HasId(r.list, id)
    requires Unused(r.outbox, sock) && Greets(first, r.list[0].id) && first.next.Some?
    ensures id in own
    ensures Greeted(Registry(r.list, r.outbox + [Sent(sock, first)]), own[id := own[id] + {sock}])
  {
    var m := Sent(sock, first);
    var k :| 0 <= k < |r.list| && r.list[k].id == id;
    assert OwnsSocks(r, own[id], k);
    OrderlySnoc(r.outbox, r.list[0].id, m);
    UsedSnoc(r.outbox, m);
    FirmWider(r.outbox, own[id], sock);
    forall i | 1 <= i < |r.list|
      ensures OwnsSocks(Registry(r.list, r.outbox + [m]), own[id := own[id] + {sock}][r.list[i].id], i)
      ensures r.list[i].sock != sock
    {
      assert OwnsSocks(r, own[r.list[i].id], i);
      if i == k {
        FirmSnoc(r.outbox, own[id] + {sock}, m);
      } else {
        OwnsSnoc(r, own[r.list[i].id], i, m);
      }
    }
  }

  // ----- Every operation keeps the peers greeted -----

  lemma {:induction false} RegisteredGreets(r: Registry, own: Owners, id: int, sock: int, now: int, first: Notice,
                                            second: Notice)
    requires Sound(r) && Greeted(r, own) && Registrable(r, id) && Unused(r.outbox, sock)
    requires Greets(first, r.list[0].id) && first.next == FirstNext(r, id, sock, now)
    requires Further(second, r.list[0].id)
    ensures Greeted(Registered(r, id, sock, now, first, second), Joined(own, r, id, sock))
  {
    var e := Newcomer(id, sock, now);
    var list, own' := Inserted(r.list, e), Joined(own, r, id, sock);
    InsertedHasId(r.list, e);
    var r1 := Registry(list, r.outbox + [Sent(sock, first)]);
    if HasId(r.list, id) {
      RepeatOwns(r, own, id, sock, first);
    } else {
      NewcomerOwns(r, own, e, first);
      assert {} + {sock} == {sock};
    }
    assert Greeted(r1, own');
    if |list| > 2 {
      SendGreets(r1, own', PredecessorAt(list, id), second);
    }
  }

  lemma {:induction false} RemovedGreets(r: Registry, own: Owners, k: nat)
    requires Greeted(r, own) && 1 <= k < |r.list|
    ensures Greeted(r.(list := RemoveAt(r.list, k)), own)
    ensures AllAttend(r, own) ==> AllAttend(r.(list := RemoveAt(r.list, k)), own)
  {
    var list := RemoveAt(r.list, k);
    forall i | 1 <= i < |list|
      ensures list[i].id in own && OwnsSocks(r.(list := list), own[list[i].id], i)
      ensures AllAttend(r, own) ==> Attends(r.(list := list), own, i)
    {
      var j := if i < k then i else i + 1;
      assert list[i] == r.list[j] && OwnsSocks(r, own[r.list[j].id], j);
      assert AllAttend(r, own) ==> Attends(r, own, j);
      forall q | 1 <= q < |list| && list[q].sock in own[list[i].id]
        ensures q == i
      {
        assert list[q] == r.list[if q < k then q else q + 1];
      }
    }
  }

  lemma {:induction false} DropGreets(r: Registry, own: Owners, k: nat)
    requires Sound(r) && Greeted(r, own) && 1 <= k < |r.list|
    ensures FindSock(r.list, r.list[k].sock, 1) == k && FindId(r.list, r.list[k].id, 1) == k
    ensures Greeted(Dropped(r, r.list[k].sock), own)
    ensures AllAttend(r, own) ==> AllAttend(Dropped(r, r.list[k].sock), own)
  {
    DropsAt(r, k);
    RemovedGreets(r, own, k);
    var r', r1 := Dropped(r, r.list[k].sock), r.(list := RemoveAt(r.list, k));
    if |r'.list| > 2 {
      var from := if k == 1 then |r.list| - 1 else k - 1;
      var to := if from < k then from else from - 1;
      var notice := r'.outbox[|r.outbox|].notice;
      assert r1.list[to] == r.list[from] && r' == r1.(outbox := r1.outbox + [Sent(r1.list[to].sock, notice)]);
      SendGreets(r1, own, to, notice);
      forall i | AllAttend(r, own) && 1 <= i < |r1.list|
        ensures Attends(r', own, i)
      {
        SendAttends(r1, own, to, notice, i);
      }
    }
  }

  lemma {:induction false} SweepGreets(r: Registry, own: Owners, i: nat, now: int, timeout: int)
    requires Sound(r) && Greeted(r, own) && 1 <= i <= |r.list|
    ensures Greeted(Swept(r, i, now, timeout), own)
    ensures AllAttend(r, own) ==> AllAttend(Swept(r, i, now, timeout), own)
    decreases |r.list| - i
  {
    if i < |r.list| {
      if Dead(r.list[i], now, timeout) {
        DropKeeps(r, i);
        DropGreets(r, own, i);
        SweepGreets(Dropped(r, r.list[i].sock), own, i, now, timeout);
      } else {
        SweepGreets(r, own, i + 1, now, timeout);
      }
    }
  }

  lemma {:induction false} BeatGreets(r: Registry, own: Owners, id: int, now: int)
    requires Greeted(r, own)
    ensures Greeted(r.(list := Stamped(r.list, id, now)), own)
    ensures AllAttend(r, own) ==> AllAttend(r.(list := Stamped(r.list, id, now)), own)
  {
    var r' := r.(list := Stamped(r.list, id, now));
    forall i | 1 <= i < |r.list|
      ensures OwnsSocks(r', own[r.list[i].id], i) && (AllAttend(r, own) ==> Attends(r', own, i))
    {
      assert OwnsSocks(r, own[r.list[i].id], i) && (AllAttend(r, own) ==> Attends(r, own, i));
    }
  }

  lemma {:induction false} DoneGreets(r: Registry, own: Owners, op: Op)
    requires Sound(r) && Greeted(r, own) && Legal(r, op) && FreshSockets(r, op)
    ensures Greeted(Done(r, op), Owned(own, r, op))
  {
    match op
    case Discover(id, sock, now) =>
      var next := FirstNext(r, id, sock, now);
      RegisteredGreets(r, own, id, sock, now, Welcome(r.list[0].id, next), UpdateFromLeader(id));
    case Reannounce(id, sock, now) =>
      var next := FirstNext(r, id, sock, now);
      RegisteredGreets(r, own, id, sock, now, KnowNewLeader(r.list[0].id, next), KnowNewLeader(r.list[0].id, Some(id)));
    case Beat(id, now) => BeatGreets(r, own, id, now);
    case Sweep(now, timeout) => SweepGreets(r, own, 1, now, timeout);
  }

  // ----- Who attends -----

  lemma {:induction false} NewcomerAttends(r: Registry, own: Owners, e: Entry, first: Notice)
    requires Sound(r) && Greeted(r, own) && AllAttend(r, own) && Registrable(r, e.id) && !HasId(r.list, e.id)
    requires Unused(r.outbox, e.sock) && Greets(first, r.list[0].id)
    ensures AllAttend(Registry(Inserted(r.list, e), r.outbox + [Sent(e.sock, first)]), own[e.id := {e.sock}])
  {
    var list, m, k := Inserted(r.list, e), Sent(e.sock, first), FindGreater(r.list, e.id, 1);
    var own' := own[e.id := {e.sock}];
    forall j | 1 <= j < |list|
      ensures Attends(Registry(list, r.outbox + [m]), own', j)
    {
      if j == k {
        KnowsLastHeard(e.id, r.list[0].id, r.outbox, {e.sock});
        KnownSnoc(e.id, r.outbox, m, {e.sock});
      } else {
        var i := if j < k then j else j - 1;
        assert list[j] == r.list[i] && OwnsSocks(r, own[r.list[i].id], i) && Attends(r, own, i);
        KnownSnoc(r.list[i].id, r.outbox, m, own[r.list[i].id]);
      }
    }
  }

  /** A process that is already registered, greeted on a new socket: a welcome it does not even read, but a
      new leader's announcement it follows. */
  lemma {:induction false} RepeatAttends(r: Registry, own: Owners, id: int, sock: int, first: Notice, i: nat)
    requires Sound(r) && Greeted(r, own) && AllAttend(r, own) && Registrable(r, id) && HasId(r.list, id)
    requires Unused(r.outbox, sock) && Greets(first, r.list[0].id) && 1 <= i < |r.list| && id in own
    ensures Attends(Registry(r.list, r.outbox + [Sent(sock, first)]), own[id := own[id] + {sock}], i) <==>
            (r.list[i].id == id ==> first.Welcome?)
  {
    var e, m := r.list[i], Sent(sock, first);
    assert OwnsSocks(r, own[e.id], i) && Attends(r, own, i);
    if e.id == id {
      KnowsLastHeard(id, r.list[0].id, r.outbox, own[id]);
      KnownWider(id, r.outbox, own[id], sock);
      KnownSnoc(id, r.outbox, m, own[id] + {sock});
    } else {
      KnownSnoc(e.id, r.outbox, m, own[e.id]);
    }
  }

  lemma {:induction false} SecondAttends(r: Registry, own: Owners, p: nat, notice: Notice, k: nat)
    requires Greeted(r, own) && 1 <= p < |r.list| && Further(notice, r.list[0].id) && 1 <= k < |r.list| && p != k
    requires forall i :: 1 <= i < |r.list| && i != k ==> Attends(r, own, i)
    ensures AllAttend(r.(outbox := r.outbox + [Sent(r.list[p].sock, notice)]), own) <==> Attends(r, own, k)
  {
    forall i | 1 <= i < |r.list|
      ensures Attends(r.(outbox := r.outbox + [Sent(r.list[p].sock, notice)]), own, i) <==> Attends(r, own, i)
    {
      SendAttends(r, own, p, notice, i);
    }
  }

  /** After the first message of a registration, all but the process that joins heed the leader on their
      registered sockets, and that one does unless it was registered and is given a new leader. */
  ghost predicate OthersAttend(r: Registry, own: Owners, k: nat, too: bool)
    requires k < |r.list|
  {
    && Greeted(r, own)
    && (forall i :: 1 <= i < |r.list| && i != k ==> Attends(r, own, i))
    && (Attends(r, own, k) <==> too)
  }

  lemma {:induction false} RepeatFirst(r: Registry, own: Owners, e: Entry, first: Notice, k: nat)
    requires Sound(r) && Greeted(r, own) && AllAttend(r, own) && Registrable(r, e.id) && Unused(r.outbox, e.sock)
    requires Greets(first, r.list[0].id) && first.next.Some? && 1 <= k < |r.list| && r.list[k].id == e.id
    ensures e.id in own
    ensures OthersAttend(Registry(r.list, r.outbox + [Sent(e.sock, first)]), own[e.id := own[e.id] + {e.sock}], k,
                         first.Welcome?)
  {
    RepeatOwns(r, own, e.id, e.sock, first);
    var r1, own' := Registry(r.list, r.outbox + [Sent(e.sock, first)]), own[e.id := own[e.id] + {e.sock}];
    forall i | 1 <= i < |r.list|
      ensures Attends(r1, own', i) <==> (i == k ==> first.Welcome?)
    {
      RepeatAttends(r, own, e.id, e.sock, first, i);
    }
  }

  lemma {:induction false} FirstAttends(r: Registry, own: Owners, e: Entry, first: Notice) returns (k: nat)
    requires Sound(r) && Greeted(r, own) && AllAttend(r, own) && Registrable(r, e.id) && Unused(r.outbox, e.sock)
    requires forall i :: 1 <= i < |r.list| ==> r.list[i].sock != e.sock
    requires Greets(first, r.list[0].id) && (HasId(r.list, e.id) ==> first.next.Some?)
    ensures var list := Inserted(r.list, e);
            && 1 <= k < |list| && FindId(list, e.id, 1) == k
            && OthersAttend(Registry(list, r.outbox + [Sent(e.sock, first)]), Joined(own, r, e.id, e.sock), k,
                            HasId(r.list, e.id) ==> first.Welcome?)
  {
    k := InsertedAt(r.list, e);
    if HasId(r.list, e.id) {
      RepeatFirst(r, own, e, first, k);
    } else {
      NewcomerOwns(r, own, e, first);
      NewcomerAttends(r, own, e, first);
      assert {} + {e.sock} == {e.sock};
    }
  }

  lemma {:induction false} RegisteredAttends(r: Registry, own: Owners, id: int, sock: int, now: int, first: Notice,
                                             second: Notice)
    requires Sound(r) && Greeted(r, own) && AllAttend(r, own) && Registrable(r, id) && Unused(r.outbox, sock)
    requires forall i :: 1 <= i < |r.list| ==> r.list[i].sock != sock
    requires Greets(first, r.list[0].id) && first.next == FirstNext(r, id, sock, now)
    requires Further(second, r.list[0].id)
    ensures AllAttend(Registered(r, id, sock, now, first, second), Joined(own, r, id, sock)) <==>
            (HasId(r.list, id) ==> first.Welcome?)
  {
    var e := Newcomer(id, sock, now);
    var k := FirstAttends(r, own, e, first);
    var list := Inserted(r.list, e);
    if |list| > 2 {
      SecondAttends(Registry(list, r.outbox + [Sent(sock, first)]), Joined(own, r, id, sock),
                    PredecessorAt(list, id), second, k);
    }
  }

  /** Where all peers heed the leader on the sockets under which they are registered, every operation leaves
      it so, except the announcement of a process that is registered already. */
  lemma {:induction false} AttentionKept(r: Registry, own: Owners, op: Op)
    requires Sound(r) && Greeted(r, own) && AllAttend(r, own) && Legal(r, op) && FreshSockets(r, op)
    ensures AllAttend(Done(r, op), Owned(own, r, op)) <==> !(op.Reannounce? && HasId(r.list, op.id))
  {
    match op
    case Discover(id, sock, now) =>
      var next := FirstNext(r, id, sock, now);
      RegisteredAttends(r, own, id, sock, now, Welcome(r.list[0].id, next), UpdateFromLeader(id));
    case Reannounce(id, sock, now) =>
      var next := FirstNext(r, id, sock, now);
      RegisteredAttends(r, own, id, sock, now,
                        KnowNewLeader(r.list[0].id, next), KnowNewLeader(r.list[0].id, Some(id)));
    case Beat(id, now) => BeatGreets(r, own, id, now);
    case Sweep(now, timeout) => SweepGreets(r, own, 1, now, timeout);
  }

  // ----- Over any history -----

  ghost predicate AllFresh(rs: seq<Registry>, ops: seq<Op>, k: nat)
    requires k <= |ops| && k <= |rs|
  {
    forall j :: 0 <= j < k ==> FreshSockets(rs[j], ops[j])
  }

  /** Nobody announces itself to its new leader while it is registered there. */
  ghost predicate Once(rs: seq<Registry>, ops: seq<Op>, k: nat)
    requires k <= |ops| && k <= |rs|
  {
    forall j :: 0 <= j < k && ops[j].Reannounce? ==> !HasId(rs[j].list, ops[j].id)
  }

  lemma {:induction false} HistoryGreets(rs: seq<Registry>, ops: seq<Op>, k: nat)
    requires History(rs, ops) && k <= |ops| && AllFresh(rs, ops, k)
    ensures Greeted(rs[k], OwnersAt(rs, ops, k))
  {
    if k > 0 {
      HistoryGreets(rs, ops, k - 1);
      RingAgreement(rs, ops, k - 1);
      DoneGreets(rs[k - 1], OwnersAt(rs, ops, k - 1), ops[k - 1]);
    }
  }

  lemma {:induction false} OnceAttend(rs: seq<Registry>, ops: seq<Op>, k: nat)
    requires History(rs, ops) && k <= |ops| && AllFresh(rs, ops, k) && Once(rs, ops, k)
    ensures AllAttend(rs[k], OwnersAt(rs, ops, k))
  {
    if k > 0 {
      OnceAttend(rs, ops, k - 1);
      HistoryGreets(rs, ops, k - 1);
      RingAgreement(rs, ops, k - 1);
      AttentionKept(rs[k - 1], OwnersAt(rs, ops, k - 1), ops[k - 1]);
    }
  }
}
