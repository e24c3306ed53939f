/** When the peers know the ring: over any history of the leader's registry, exactly if they are in touch with
    it; and how a peer loses touch. */
module RingFormation {
  import opened Wrappers
  import opened ServerStruct
  import opened RegistryRing
  import opened PeerKnowledge

  // ----- When the peers know the ring -----

  /** The successor last named to the peer on the socket it heeds is its cyclic one. */
  ghost predicate InTouch(r: Registry, own: Owners, i: nat)
    requires 1 <= i < |r.list|
  {
    && r.list[i].id in own
    && MindOf(r, own, i).ear.Some?
    && Told(r.outbox, MindOf(r, own, i).ear.value) == Some(r.list[Cyclic(r.list, i)].id)
  }

  ghost predicate AllInTouch(r: Registry, own: Owners) {
    forall i :: 1 <= i < |r.list| ==> InTouch(r, own, i)
  }

  ghost predicate KnowsRing(r: Registry, own: Owners, i: nat)
    requires 1 <= i < |r.list| && r.list[i].id in own
  {
    MindOf(r, own, i).ids == [r.list[i].id, r.list[0].id, r.list[Cyclic(r.list, i)].id]
  }

  /** Ring formation: over any history of joins, announcements, heartbeats and sweeps that leaves at least
      two peers, each that has handled the messages sent to it knows exactly itself, the leader and its
      cyclic successor in the registry, if and only if it is in touch. That it surely is where it heeds
      the leader on the socket under which it is registered. */
  lemma {:induction false} RingForms(rs: seq<Registry>, ops: seq<Op>, k: nat, i: nat)
    requires History(rs, ops) && k <= |ops| && AllFresh(rs, ops, k)
    requires |rs[k].list| > 2 && 1 <= i < |rs[k].list|
    ensures var r, own := rs[k], OwnersAt(rs, ops, k);
            && r.list[i].id in own
            && (KnowsRing(r, own, i) <==> InTouch(r, own, i))
            && (Attends(r, own, i) ==> InTouch(r, own, i))
  {
    var r, own := rs[k], OwnersAt(rs, ops, k);
    RingAgreement(rs, ops, k);
    HistoryGreets(rs, ops, k);
    assert Closed(r.outbox, r.list, i) && OwnsSocks(r, own[r.list[i].id], i);
    KnowsLastHeard(r.list[i].id, r.list[0].id, r.outbox, own[r.list[i].id]);
    assert !Unused(r.outbox, r.list[i].sock);
    assert r.list[Cyclic(r.list, i)].id != r.list[i].id;
  }

  /** Where nobody announces itself twice, all do. A process that is welcomed twice does no harm: it
      does not read the second welcome. */
  lemma {:induction false} RingFormsOnce(rs: seq<Registry>, ops: seq<Op>, k: nat, i: nat)
    requires History(rs, ops) && k <= |ops| && AllFresh(rs, ops, k) && Once(rs, ops, k)
    requires |rs[k].list| > 2 && 1 <= i < |rs[k].list|
    ensures var r, own := rs[k], OwnersAt(rs, ops, k);
            InTouch(r, own, i) && KnowsRing(r, own, i)
  {
    OnceAttend(rs, ops, k);
    RingForms(rs, ops, k, i);
  }

  /** And where somebody does, a peer may stay behind for good: process 5 announces itself twice, and then
      heeds its leader on the second socket; the leader, which has kept the first, tells it there of
      process 6. */
  lemma {:induction false} StrayExample(self: Entry, now: int) returns (rs: seq<Registry>, ops: seq<Op>)
    requires self.id == 1 && self.leader
    ensures ops == [Discover(5, 10, now), Discover(7, 12, now), Reannounce(5, 11, now), Discover(6, 13, now)]
    ensures History(rs, ops) && AllFresh(rs, ops, 4)
    ensures var r, own := rs[4], OwnersAt(rs, ops, 4);
            && |r.list| == 4 && r.list[1].id == 5 && r.list[2].id == 6
            && 5 in own && MindOf(r, own, 1) == Mind([5, 1, 7], Some(11)) && !InTouch(r, own, 1)
  {
    ops := [Discover(5, 10, now), Discover(7, 12, now), Reannounce(5, 11, now), Discover(6, 13, now)];
    rs := StrayStates(self, now);
    StrayLegal(self, now, rs, ops);
    StrayMind();
    assert OwnersAt(rs, ops, 1) == Owned(map[], rs[0], ops[0]);
    assert OwnersAt(rs, ops, 2) == Owned(OwnersAt(rs, ops, 1), rs[1], ops[1]);
    assert OwnersAt(rs, ops, 3) == Owned(OwnersAt(rs, ops, 2), rs[2], ops[2]);
    assert rs[2].list[1].id == 5;
    assert OwnersAt(rs, ops, 4)[5] == {10, 11};
  }

  const STRAY: seq<Sent> := [
    Sent(10, Welcome(1, None)),
    Sent(12, Welcome(1, Some(5))), Sent(10, UpdateFromLeader(7)),
    Sent(11, KnowNewLeader(1, Some(7))), Sent(12, KnowNewLeader(1, Some(5))),
    Sent(13, Welcome(1, Some(7))), Sent(10, UpdateFromLeader(6))]

  lemma {:induction false} StrayFirst(self: Entry, now: int)
    requires self.id == 1
    ensures Legal(Registry([self], []), Discover(5, 10, now))
    ensures Discovered(Registry([self], []), 5, 10, now) == Registry([self, Newcomer(5, 10, now)], STRAY[..1])
  {
    assert InsertAt([self], 1, Newcomer(5, 10, now)) == [self, Newcomer(5, 10, now)];
  }

  lemma {:induction false} StraySecond(self: Entry, now: int)
    requires self.id == 1
    ensures Legal(Registry([self, Newcomer(5, 10, now)], STRAY[..1]), Discover(7, 12, now))
    ensures Discovered(Registry([self, Newcomer(5, 10, now)], STRAY[..1]), 7, 12, now) ==
            Registry([self, Newcomer(5, 10, now), Newcomer(7, 12, now)], STRAY[..3])
  {
    var before, list := [self, Newcomer(5, 10, now)], [self, Newcomer(5, 10, now), Newcomer(7, 12, now)];
    FindGreaterIs(before, 7, 2);
    assert InsertAt(before, 2, Newcomer(7, 12, now)) == list;
    FindIdIs(list, 7, 2);
    FindGreaterIs(list, 7, 3);
    assert STRAY[..1] + [STRAY[1]] + [STRAY[2]] == STRAY[..3];
  }

  lemma {:induction false} StrayThird(self: Entry, now: int)
    requires self.id == 1
    ensures var list := [self, Newcomer(5, 10, now), Newcomer(7, 12, now)];
            Legal(Registry(list, STRAY[..3]), Reannounce(5, 11, now)) &&
            Reannounced(Registry(list, STRAY[..3]), 5, 11, now) == Registry(list, STRAY[..5])
  {
    var list := [self, Newcomer(5, 10, now), Newcomer(7, 12, now)];
    assert list[1].id == 5 && HasId(list, 5);
    FindIdIs(list, 5, 1);
    FindGreaterIs(list, 5, 2);
    assert STRAY[..3] + [STRAY[3]] + [STRAY[4]] == STRAY[..5];
  }

  lemma {:induction false} StrayFourth(self: Entry, now: int)
    requires self.id == 1
    ensures Legal(Registry([self, Newcomer(5, 10, now), Newcomer(7, 12, now)], STRAY[..5]), Discover(6, 13, now))
    ensures Discovered(Registry([self, Newcomer(5, 10, now), Newcomer(7, 12, now)], STRAY[..5]), 6, 13, now) ==
            Registry([self, Newcomer(5, 10, now), Newcomer(6, 13, now), Newcomer(7, 12, now)], STRAY)
  {
    var before := [self, Newcomer(5, 10, now), Newcomer(7, 12, now)];
    var list := [self, Newcomer(5, 10, now), Newcomer(6, 13, now), Newcomer(7, 12, now)];
    FindGreaterIs(before, 6, 2);
    assert InsertAt(before, 2, Newcomer(6, 13, now)) == list;
    FindIdIs(list, 6, 2);
    FindGreaterIs(list, 6, 3);
    assert STRAY[..5] + [STRAY[5]] + [STRAY[6]] == STRAY;
  }

  function StrayStates(self: Entry, now: int): seq<Registry> {
    [Registry([self], []),
     Registry([self, Newcomer(5, 10, now)], STRAY[..1]),
     Registry([self, Newcomer(5, 10, now), Newcomer(7, 12, now)], STRAY[..3]),
     Registry([self, Newcomer(5, 10, now), Newcomer(7, 12, now)], STRAY[..5]),
     Registry([self, Newcomer(5, 10, now), Newcomer(6, 13, now), Newcomer(7, 12, now)], STRAY)]
  }

  lemma {:induction false} StrayStep(self: Entry, now: int, rs: seq<Registry>, ops: seq<Op>, k: nat)
    requires self.id == 1 && k < 4
    requires ops == [Discover(5, 10, now), Discover(7, 12, now), Reannounce(5, 11, now), Discover(6, 13, now)]
    requires rs == StrayStates(self, now)
    ensures Legal(rs[k], ops[k]) && rs[k + 1] == Done(rs[k], ops[k])
  {
    if k == 0 {
      StrayFirst(self, now);
    } else if k == 1 {
      StraySecond(self, now);
    } else if k == 2 {
      StrayThird(self, now);
    } else {
      StrayFourth(self, now);
    }
  }

  lemma {:induction false} StrayLegal(self: Entry, now: int, rs: seq<Registry>, ops: seq<Op>)
    requires self.id == 1 && self.leader
    requires ops == [Discover(5, 10, now), Discover(7, 12, now), Reannounce(5, 11, now), Discover(6, 13, now)]
    requires rs == StrayStates(self, now)
    ensures History(rs, ops) && AllFresh(rs, ops, 4)
  {
    forall k | 0 <= k < |ops|
      ensures Legal(rs[k], ops[k]) && rs[k + 1] == Done(rs[k], ops[k])
    {
      StrayStep(self, now, rs, ops, k);
    }
    StrayFresh(self, now, rs, ops);
  }

  lemma {:induction false} StrayFresh(self: Entry, now: int, rs: seq<Registry>, ops: seq<Op>)
    requires ops == [Discover(5, 10, now), Discover(7, 12, now), Reannounce(5, 11, now), Discover(6, 13, now)]
    requires rs == StrayStates(self, now)
    ensures AllFresh(rs, ops, 4)
  {
  }

  lemma {:induction false} StrayMind()
    ensures KnownTo(5, STRAY, {10, 11}) == Mind([5, 1, 7], Some(11))
    ensures Told(STRAY, 11) == Some(7)
  {
    assert STRAY[..6][..5] == STRAY[..5] && STRAY[..5][..4] == STRAY[..4] && STRAY[..4][..3] == STRAY[..3];
    assert STRAY[..3][..2] == STRAY[..2] && STRAY[..2][..1] == STRAY[..1] && STRAY[..1][..0] == [];
    assert KnownTo(5, STRAY[..1], {10, 11}) == Mind([5, 1], Some(10));
    assert KnownTo(5, STRAY[..3], {10, 11}) == Mind([5, 1, 7], Some(10));
    assert [5, 1, 7][..2] == [5, 1];
    assert KnownTo(5, STRAY[..4], {10, 11}) == Mind([5, 1, 7], Some(11));
    assert Told(STRAY[..4], 11) == Some(7);
  }
}
