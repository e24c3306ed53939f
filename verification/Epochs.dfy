/** From one epoch to the next: the peers a leader leaves behind elect its successor, and the others announce
    themselves to that one. */
module Epochs {
  import opened Wrappers
  import opened ServerStruct
  import opened RegistryRing
  import opened PeerKnowledge
  import opened RingFormation
  import opened PeerRuns
  import Election
  import Peer
  import Ring = ElectionRing
  import Properties = ElectionProperties

  // ----- And then the leader falls silent -----

  ghost function PeerIds(list: seq<Entry>): (ids: seq<int>)
    requires |list| > 0
    ensures |ids| == |list| - 1 && forall q :: 0 <= q < |ids| ==> ids[q] == list[q + 1].id
  {
    seq(|list| - 1, q requires 0 <= q < |list| - 1 => list[q + 1].id)
  }

  /** The peers of registry r, with nothing of an election under way: each has the list that its
      messages have given it. */
  ghost predicate Formed(r: Registry, own: Owners, s: Ring.Ring) {
    && |r.list| > 2 && Ring.Sized(|r.list| - 1, s)
    && s.votes == [] && s.leaders == []
    && forall q :: 0 <= q < |r.list| - 1 ==>
        && s.links[q] == [] && s.heard[q] == []
        && |s.nodes[q].list| > 0 && !s.nodes[q].list[0].leader && !s.nodes[q].participant
        && r.list[q + 1].id in own && Ids(s.nodes[q].list) == MindOf(r, own, q + 1).ids
  }

  /** A registered peer knows itself and the leader in any case. */
  lemma {:induction false} KnowsLeader(rs: seq<Registry>, ops: seq<Op>, k: nat, i: nat)
    requires History(rs, ops) && k <= |ops| && AllFresh(rs, ops, k) && 1 <= i < |rs[k].list|
    ensures var r, own := rs[k], OwnersAt(rs, ops, k);
            && r.list[i].id in own
            && 2 <= |MindOf(r, own, i).ids| <= 3
            && MindOf(r, own, i).ids[0] == r.list[i].id && MindOf(r, own, i).ids[1] == r.list[0].id
  {
    var r, own := rs[k], OwnersAt(rs, ops, k);
    HistoryGreets(rs, ops, k);
    RingAgreement(rs, ops, k);
    assert OwnsSocks(r, own[r.list[i].id], i);
    assert !Unused(r.outbox, r.list[i].sock);
    KnowsLastHeard(r.list[i].id, r.list[0].id, r.outbox, own[r.list[i].id]);
    assert !Silent(r.outbox, own[r.list[i].id]);
  }

  lemma {:induction false} IntactIffInTouch(rs: seq<Registry>, ops: seq<Op>, k: nat, s: Ring.Ring, q: nat)
    requires History(rs, ops) && k <= |ops| && AllFresh(rs, ops, k)
    requires Formed(rs[k], OwnersAt(rs, ops, k), s) && q < |rs[k].list| - 1
    ensures var ids := PeerIds(rs[k].list);
            Election.Intact(s.nodes[q], ids[q], ids[Ring.Next(|ids|, q)]) <==>
            InTouch(rs[k], OwnersAt(rs, ops, k), q + 1)
  {
    KnowsLeader(rs, ops, k, q + 1);
    RingForms(rs, ops, k, q + 1);
    var r := rs[k];
    NextPeer(r.list, q);
    IntactIds(s.nodes[q], r.list[q + 1].id, r.list[0].id, r.list[Cyclic(r.list, q + 1)].id);
  }

  lemma {:induction false} NextPeer(list: seq<Entry>, q: nat)
    requires q < |list| - 1
    ensures var ids := PeerIds(list);
            ids[q] == list[q + 1].id && ids[Ring.Next(|ids|, q)] == list[Cyclic(list, q + 1)].id
  {
  }

  lemma {:induction false} IntactIds(node: Election.Node, self: int, leader: int, next: int)
    requires |node.list| > 1 && node.list[0].id == self && node.list[1].id == leader && !node.list[0].leader
    ensures Election.Intact(node, self, next) <==> Ids(node.list) == [self, leader, next]
  {
  }

  /** They are an ascending ring, ready for an election, if and only if all of them are in touch. */
  lemma {:induction false} FormedIsInitial(rs: seq<Registry>, ops: seq<Op>, k: nat, s: Ring.Ring)
    requires History(rs, ops) && k <= |ops| && AllFresh(rs, ops, k)
    requires Formed(rs[k], OwnersAt(rs, ops, k), s)
    requires forall i :: 0 <= i < |rs[k].list| ==> rs[k].list[i].id > 0
    ensures var ids := PeerIds(rs[k].list);
            && Ring.Ids(ids) && Properties.Ascending(ids)
            && (Ring.Initial(ids, s) <==> AllInTouch(rs[k], OwnersAt(rs, ops, k)))
  {
    var ids, own := PeerIds(rs[k].list), OwnersAt(rs, ops, k);
    RingAgreement(rs, ops, k);
    forall q | 0 <= q < |ids|
      ensures Election.Intact(s.nodes[q], ids[q], ids[Ring.Next(|ids|, q)]) <==> InTouch(rs[k], own, q + 1)
    {
      IntactIffInTouch(rs, ops, k, s, q);
    }
    if Ring.Initial(ids, s) {
      forall i | 1 <= i < |rs[k].list|
        ensures InTouch(rs[k], own, i)
      {
        assert Election.Intact(s.nodes[i - 1], ids[i - 1], ids[Ring.Next(|ids|, i - 1)]);
      }
    }
  }

  /** What an election among n processes on an ascending ring comes to, at any moment of it. */
  ghost predicate Linear(ids: seq<int>, ss: seq<Ring.Ring>, es: seq<Ring.Event>, j: nat)
    requires Ring.Ids(ids) && Ring.Run(ids, ss, es) && j <= |es|
    requires forall i :: 0 <= i < j ==> Ring.CanStep(|ids|, ss[i], es[i])
  {
    && |ss[j].votes| <= 2 * |ids| - 1
    && |ss[j].leaders| <= |ids|
    && Properties.Work(|ids|, ss, es, j) <= 6 * |ids| - 2
    && ((forall e :: Ring.CanStep(|ids|, ss[j], e) ==> !Properties.Effective(|ids|, ss[j], e)) ==>
        exists mx :: Properties.Elected(ids, mx, ss[j]))
  }

  /** The peers a leader leaves behind, if all are in touch, form an ascending ring, so the election among
      them sends at most 2n-1 VOTEs and n LEADERs, is over after 6n-2 events that count, and then
      somebody is elected. */
  lemma {:induction false} NextElection(rs: seq<Registry>, ops: seq<Op>, k: nat, ss: seq<Ring.Ring>,
                                        es: seq<Ring.Event>, j: nat)
    requires History(rs, ops) && k <= |ops| && AllFresh(rs, ops, k) && AllInTouch(rs[k], OwnersAt(rs, ops, k))
    requires |rs[k].list| > 2 && forall i :: 0 <= i < |rs[k].list| ==> rs[k].list[i].id > 0
    requires Ring.Steps(|rs[k].list| - 1, ss, es) && Formed(rs[k], OwnersAt(rs, ops, k), ss[0]) && j <= |es|
    ensures var ids := PeerIds(rs[k].list);
            Ring.Ids(ids) && Properties.Ascending(ids) && Ring.Run(ids, ss, es) && Linear(ids, ss, es, j)
  {
    var ids := PeerIds(rs[k].list);
    FormedIsInitial(rs, ops, k, ss[0]);
    Properties.MessageBounds(ids, ss, es, j);
    Properties.ElectionTerminates(ids, ss, es, j);
    if forall e :: Ring.CanStep(|ids|, ss[j], e) ==> !Properties.Effective(|ids|, ss[j], e) {
      Properties.StuckMeansElected(ids, ss, es, j);
    }
  }

  // ----- And when somebody has been elected, the next ring forms -----

  lemma {:induction false} HeadStays(rs: seq<Registry>, ops: seq<Op>, k: nat)
    requires History(rs, ops) && k <= |ops|
    ensures |rs[k].list| > 0 && rs[k].list[0].id == rs[0].list[0].id
  {
    if k > 0 {
      HeadStays(rs, ops, k - 1);
      RingAgreement(rs, ops, k - 1);
      HeadKept(rs[k - 1], ops[k - 1]);
    }
  }

  /** From the end of an election to a registry: the others announce themselves to the winner,
      which is alone in its list. */
  ghost predicate Regrouped(ids: seq<int>, mx: nat, s: Ring.Ring, rs: seq<Registry>, ops: seq<Op>) {
    && Ring.Ids(ids) && Ring.Sized(|ids|, s) && mx < |ids|
    && |rs| == |ops| + 1
    && rs[0] == Registry(s.nodes[mx].list, [])
    && (forall k :: 0 <= k < |ops| ==> ops[k].Reannounce?)
    && (forall k :: 0 <= k < |ops| ==> Legal(rs[k], ops[k]) && rs[k + 1] == Done(rs[k], ops[k]))
    && AllFresh(rs, ops, |ops|) && Once(rs, ops, |ops|)
    && JoinedIds(ops, |ops|) == set q | 0 <= q < |ids| && q != mx :: ids[q]
  }

  lemma {:induction false} RegroupedIsHistory(ids: seq<int>, mx: nat, s: Ring.Ring, rs: seq<Registry>, ops: seq<Op>)
    requires Properties.Elected(ids, mx, s) && Regrouped(ids, mx, s, rs, ops)
    ensures History(rs, ops)
    ensures var r := rs[|ops|];
            RegistryOk(r.list) && r.list[0].id == ids[mx] &&
            IdsOf(r.list) == (set q | 0 <= q < |ids| && q != mx :: ids[q])
  {
    assert Alone(rs[0]);
    HeadStays(rs, ops, |ops|);
    HistoryIds(rs, ops, |ops|);
    RingAgreement(rs, ops, |ops|);
  }

  /** The winner is a leader alone in its registry, and once each of the others, in whatever order, has
      announced itself and handled the answers, it knows itself, the winner and the next of them in
      ascending order. */
  lemma {:induction false} NextEpoch(ids: seq<int>, mx: nat, s: Ring.Ring, rs: seq<Registry>, ops: seq<Op>, i: nat)
    requires Properties.Elected(ids, mx, s) && Regrouped(ids, mx, s, rs, ops)
    requires |rs[|ops|].list| > 2 && 1 <= i < |rs[|ops|].list|
    ensures var r, own := rs[|ops|], OwnersAt(rs, ops, |ops|);
            && r.list[0].id == ids[mx]
            && IdsOf(r.list) == (set q | 0 <= q < |ids| && q != mx :: ids[q])
            && RegistryOk(r.list)
            && InTouch(r, own, i) && KnowsRing(r, own, i)
  {
    RegroupedIsHistory(ids, mx, s, rs, ops);
    RingFormsOnce(rs, ops, |ops|, i);
  }

  /** The peers of registry r after runs of their handlers, with nothing of an election under way. */
  ghost predicate Settled(r: Registry, own: Owners, runs: seq<seq<Peer.Process>>, news: seq<seq<int>>, now: int,
                          s: Ring.Ring) {
    && |r.list| > 2 && |runs| == |news| == |r.list| - 1 && Ring.Sized(|r.list| - 1, s)
    && s.votes == [] && s.leaders == []
    && forall q :: 0 <= q < |r.list| - 1 ==>
        && s.links[q] == [] && s.heard[q] == []
        && RunOf(r, own, q + 1, runs[q], news[q], now)
        && s.nodes[q] == runs[q][|r.outbox|].node
  }

  lemma {:induction false} RunsExist(r: Registry, own: Owners, starts: seq<Peer.Process>, n: nat, now: int)
    returns (runs: seq<seq<Peer.Process>>, news: seq<seq<int>>)
    requires n <= |starts| && |starts| < |r.list|
    requires forall q :: 0 <= q < |starts| ==> Starts(r, own, q + 1, starts[q])
    ensures |runs| == |news| == n
    ensures forall q :: 0 <= q < n ==> RunOf(r, own, q + 1, runs[q], news[q], now) && runs[q][0] == starts[q]
  {
    if n == 0 {
      runs, news := [], [];
    } else {
      var before, olds := RunsExist(r, own, starts, n - 1, now);
      assert Starts(r, own, n, starts[n - 1]);
      var run, socks := RunExists(starts[n - 1], r.list[n].id, r.outbox, own[r.list[n].id], now);
      runs, news := before + [run], olds + [socks];
    }
  }

  /** The peers of any history can get there, wherever each of them starts from. */
  lemma {:induction false} SettledExists(rs: seq<Registry>, ops: seq<Op>, k: nat, starts: seq<Peer.Process>, now: int)
    returns (runs: seq<seq<Peer.Process>>, news: seq<seq<int>>, s: Ring.Ring)
    requires History(rs, ops) && k <= |ops| && AllFresh(rs, ops, k) && |rs[k].list| > 2
    requires |starts| == |rs[k].list| - 1
    requires forall q :: 0 <= q < |starts| ==> Starts(rs[k], OwnersAt(rs, ops, k), q + 1, starts[q])
    ensures Settled(rs[k], OwnersAt(rs, ops, k), runs, news, now, s)
    ensures forall q :: 0 <= q < |starts| ==> runs[q][0] == starts[q]
  {
    var r, own := rs[k], OwnersAt(rs, ops, k);
    runs, news := RunsExist(r, own, starts, |starts|, now);
    assert forall q :: 0 <= q < |runs| ==> RunOf(r, own, q + 1, runs[q], news[q], now);
    var nodes := seq(|runs|, q requires 0 <= q < |runs| => runs[q][|r.outbox|].node);
    s := Ring.Ring(nodes, seq(|runs|, _ => []), [], [], seq(|runs|, _ => []));
  }

  /** A process that knows only itself and has no socket to this leader yet. */
  ghost predicate Starts(r: Registry, own: Owners, i: nat, p: Peer.Process)
    requires i < |r.list|
  {
    && r.list[i].id in own
    && |p.node.list| == 1 && p.node.list[0].id == r.list[i].id && !p.node.list[0].leader
    && p.leaderSock !in own[r.list[i].id]
  }

  lemma {:induction false} SettledNode(rs: seq<Registry>, ops: seq<Op>, k: nat, q: nat, run: seq<Peer.Process>,
                                       news: seq<int>, now: int)
    requires History(rs, ops) && k <= |ops| && AllFresh(rs, ops, k) && q < |rs[k].list| - 1
    requires RunOf(rs[k], OwnersAt(rs, ops, k), q + 1, run, news, now) && !run[0].node.participant
    ensures var r, node := rs[k], run[|rs[k].outbox|].node;
            && |node.list| > 0 && !node.list[0].leader && !node.participant
            && Ids(node.list) == MindOf(r, OwnersAt(rs, ops, k), q + 1).ids
  {
    PeerHandlesAll(rs, ops, k, q + 1, run, news, now, |rs[k].outbox|);
  }

  /** What the handlers have made of the peers is what the messages say. */
  lemma {:induction false} SettledIsFormed(rs: seq<Registry>, ops: seq<Op>, k: nat, runs: seq<seq<Peer.Process>>,
                        news: seq<seq<int>>, now: int, s: Ring.Ring)
    requires History(rs, ops) && k <= |ops| && AllFresh(rs, ops, k)
    requires Settled(rs[k], OwnersAt(rs, ops, k), runs, news, now, s)
    requires forall q :: 0 <= q < |runs| ==> |runs[q]| > 0 && !runs[q][0].node.participant
    ensures Formed(rs[k], OwnersAt(rs, ops, k), s)
  {
    var r, own := rs[k], OwnersAt(rs, ops, k);
    forall q | 0 <= q < |r.list| - 1
      ensures |s.nodes[q].list| > 0 && !s.nodes[q].list[0].leader && !s.nodes[q].participant
      ensures r.list[q + 1].id in own && Ids(s.nodes[q].list) == MindOf(r, own, q + 1).ids
    {
      assert RunOf(r, own, q + 1, runs[q], news[q], now);
      SettledNode(rs, ops, k, q, runs[q], news[q], now);
    }
  }

  /** The runs start where the last election has left the processes. */
  ghost predicate Continues(ids: seq<int>, s: Ring.Ring, r: Registry, runs: seq<seq<Peer.Process>>) {
    && Ring.Sized(|ids|, s) && |runs| + 1 == |r.list|
    && forall p, q :: 0 <= p < |ids| && 0 <= q < |runs| && ids[p] == r.list[q + 1].id ==>
        |runs[q]| > 0 && runs[q][0].node == s.nodes[p]
  }

  lemma {:induction false} FlagsLowered(ids: seq<int>, mx: nat, s: Ring.Ring, r: Registry, runs: seq<seq<Peer.Process>>)
    requires Properties.Elected(ids, mx, s) && Continues(ids, s, r, runs)
    requires IdsOf(r.list) == set q | 0 <= q < |ids| && q != mx :: ids[q]
    ensures forall q :: 0 <= q < |runs| ==> |runs[q]| > 0 && !runs[q][0].node.participant
  {
    forall q | 0 <= q < |runs|
      ensures |runs[q]| > 0 && !runs[q][0].node.participant
    {
      assert r.list[q + 1].id in IdsOf(r.list);
      var p :| 0 <= p < |ids| && p != mx && ids[p] == r.list[q + 1].id;
    }
  }

  /** Two epochs: an election that has come to rest after a vote leaves a winner to which the others announce
      themselves; each handles what the winner sends it, from the list and flag the election has left it
      with. When the winner falls silent in turn, they hold an election from a proper start, among the
      IDs without the winner's, linear in their number, and at its end one of them leads. The second
      election is a run like the first, so the next epoch follows in the same way. */
  lemma {:induction false} TwoEpochs(ids: seq<int>, ss: seq<Ring.Ring>, es: seq<Ring.Event>, k: nat, mx: nat,
                  rs: seq<Registry>, ops: seq<Op>, runs: seq<seq<Peer.Process>>, news: seq<seq<int>>, now: int,
                  ss': seq<Ring.Ring>, es': seq<Ring.Event>, j: nat)
    requires Ring.Ids(ids) && Ring.Run(ids, ss, es) && k <= |es|
    requires Properties.Quiet(ss[k]) && ss[k].votes != [] && Ring.IsMax(ids, mx)
    requires Regrouped(ids, mx, ss[k], rs, ops)
    requires Continues(ids, ss[k], rs[|ops|], runs)
    requires |rs[|ops|].list| > 0 && Ring.Steps(|rs[|ops|].list| - 1, ss', es') && j <= |es'|
    requires Settled(rs[|ops|], OwnersAt(rs, ops, |ops|), runs, news, now, ss'[0])
    ensures var ids' := PeerIds(rs[|ops|].list);
            && (forall v :: v in ids' <==> v in ids && v != ids[mx])
            && Ring.Ids(ids') && Properties.Ascending(ids') && Ring.Run(ids', ss', es') && Linear(ids', ss', es', j)
  {
    Properties.QuiescentElected(ids, ss, es, k);
    var w :| Properties.Elected(ids, w, ss[k]);
    assert w == mx;
    RegroupedIsHistory(ids, mx, ss[k], rs, ops);
    FlagsLowered(ids, mx, ss[k], rs[|ops|], runs);
    SettledIsFormed(rs, ops, |ops|, runs, news, now, ss'[0]);
    PeersOf(ids, mx, rs[|ops|].list);
    forall i | 1 <= i < |rs[|ops|].list|
      ensures InTouch(rs[|ops|], OwnersAt(rs, ops, |ops|), i)
    {
      RingFormsOnce(rs, ops, |ops|, i);
    }
    NextElection(rs, ops, |ops|, ss', es', j);
  }

  lemma {:induction false} PeersOf(ids: seq<int>, mx: nat, list: seq<Entry>)
    requires Ring.Ids(ids) && mx < |ids| && |list| > 0 && list[0].id == ids[mx]
    requires IdsOf(list) == set q | 0 <= q < |ids| && q != mx :: ids[q]
    ensures forall v :: v in PeerIds(list) <==> v in ids && v != ids[mx]
    ensures forall i :: 0 <= i < |list| ==> list[i].id > 0
  {
    forall v
      ensures v in PeerIds(list) <==> v in IdsOf(list)
    {
      if v in IdsOf(list) {
        var i :| 1 <= i < |list| && list[i].id == v;
        assert PeerIds(list)[i - 1] == v;
      }
    }
    forall i | 1 <= i < |list|
      ensures list[i].id > 0
    {
      assert list[i].id in IdsOf(list);
    }
  }

  /** Two winners with the same ID that hear of the same peers, in whatever order, leave each of them with
      the same knowledge. */
  lemma {:induction false} SameKnowledge(rs: seq<Registry>, ops: seq<Op>, rs': seq<Registry>, ops': seq<Op>, i: nat)
    requires History(rs, ops) && Joins(ops) && AllFresh(rs, ops, |ops|) && Once(rs, ops, |ops|)
    requires History(rs', ops') && Joins(ops') && AllFresh(rs', ops', |ops'|) && Once(rs', ops', |ops'|)
    requires JoinedIds(ops, |ops|) == JoinedIds(ops', |ops'|) && rs[0].list[0].id == rs'[0].list[0].id
    requires |rs[|ops|].list| > 2 && 1 <= i < |rs[|ops|].list|
    ensures var r, r', own, own' := rs[|ops|], rs'[|ops'|], OwnersAt(rs, ops, |ops|), OwnersAt(rs', ops', |ops'|);
            && i < |r'.list| && r.list[i].id == r'.list[i].id
            && r.list[i].id in own && r'.list[i].id in own'
            && MindOf(r, own, i).ids == MindOf(r', own', i).ids
  {
    var r, r' := rs[|ops|], rs'[|ops'|];
    OrderIndependent(rs, ops, rs', ops');
    HeadStays(rs, ops, |ops|);
    HeadStays(rs', ops', |ops'|);
    RingFormsOnce(rs, ops, |ops|, i);
    RingFormsOnce(rs', ops', |ops'|, i);
    assert r.list[Cyclic(r.list, i)].id == r'.list[Cyclic(r'.list, i)].id;
  }
}
