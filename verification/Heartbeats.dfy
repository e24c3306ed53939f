/** Who stays in the leader's registry: over any history, a sweep leaves exactly the peers of whom it has had
    a sign of life within the timeout. */
module Heartbeats {
  import opened Wrappers
  import opened ServerStruct
  import opened RegistryRing

  // ----- One operation -----

  lemma {:induction false} LivingExact(peers: seq<Entry>, now: int, timeout: int, e: Entry)
    ensures e in Living(peers, now, timeout) <==> e in peers && now - e.beat < timeout
  {
    if peers != [] {
      LivingExact(peers[1..], now, timeout, e);
      assert peers == [peers[0]] + peers[1..];
    }
  }

  /** A sweep leaves the leader in front and behind it exactly the entries less than `timeout` old, in
      ascending order as before. */
  lemma {:induction false} SweptExact(r: Registry, now: int, timeout: int)
    requires Sound(r)
    ensures var list := Swept(r, 1, now, timeout).list;
            && |list| > 0 && list[0] == r.list[0]
            && (forall e :: e in list[1..] <==> e in r.list[1..] && now - e.beat < timeout)
            && (forall i, j :: 1 <= i < j < |list| ==> list[i].id < list[j].id)
  {
    SweepFilters(r, 1, now, timeout);
    var living := Living(r.list[1..], now, timeout);
    assert Remaining(r.list, 1, now, timeout) == [r.list[0]] + living;
    assert ([r.list[0]] + living)[1..] == living;
    forall e
      ensures e in living <==> e in r.list[1..] && now - e.beat < timeout
    {
      LivingExact(r.list[1..], now, timeout, e);
    }
  }

  ghost predicate Enters(list: seq<Entry>, list': seq<Entry>, e: Entry) {
    exists k :: 1 <= k <= |list| && list' == list[..k] + [e] + list[k..]
  }

  /** A process that joins or announces itself enters as a peer, not leading, on that socket and as fresh as
      the message; the other entries stay. If it is there already, all of them stay. */
  ghost predicate TakesIn(list: seq<Entry>, list': seq<Entry>, id: int, sock: int, now: int) {
    if HasId(list, id) then list' == list else Enters(list, list', Entry(id, false, sock, now))
  }

  lemma {:induction false} InsertedEnters(list: seq<Entry>, id: int, sock: int, now: int)
    requires |list| > 0
    ensures TakesIn(list, Inserted(list, Newcomer(id, sock, now)), id, sock, now)
  {
    var e := Newcomer(id, sock, now);
    if !HasId(list, e.id) {
      var k := FindGreater(list, e.id, 1);
      assert Inserted(list, e) == list[..k] + [e] + list[k..];
    }
  }

  lemma {:induction false} JoinEnters(r: Registry, id: int, sock: int, now: int)
    requires Registrable(r, id)
    ensures TakesIn(r.list, Discovered(r, id, sock, now).list, id, sock, now)
    ensures TakesIn(r.list, Reannounced(r, id, sock, now).list, id, sock, now)
  {
    InsertedEnters(r.list, id, sock, now);
  }

  lemma {:induction false} EnteredAmong(list: seq<Entry>, list': seq<Entry>, e: Entry)
    requires |list| > 0 && Enters(list, list', e)
    ensures forall x :: x in list'[1..] <==> x == e || x in list[1..]
  {
    var k :| 1 <= k <= |list| && list' == list[..k] + [e] + list[k..];
    assert list'[1..] == list[1..k] + [e] + list[k..];
    assert list[1..] == list[1..k] + list[k..];
  }

  /** It survives every sweep that comes before it is `timeout` old. */
  lemma {:induction false} JoinSurvives(r: Registry, id: int, sock: int, now: int, now': int, timeout: int)
    requires Sound(r) && Registrable(r, id) && !HasId(r.list, id) && now' - now < timeout
    requires forall i :: 1 <= i < |r.list| ==> r.list[i].sock != sock
    ensures Sound(Discovered(r, id, sock, now)) && Sound(Reannounced(r, id, sock, now))
    ensures Entry(id, false, sock, now) in Swept(Discovered(r, id, sock, now), 1, now', timeout).list
    ensures Entry(id, false, sock, now) in Swept(Reannounced(r, id, sock, now), 1, now', timeout).list
  {
    JoinEnters(r, id, sock, now);
    JoinKeeps(r, id, sock, now);
    var e := Entry(id, false, sock, now);
    EnteredAmong(r.list, Discovered(r, id, sock, now).list, e);
    EnteredAmong(r.list, Reannounced(r, id, sock, now).list, e);
    SweptExact(Discovered(r, id, sock, now), now', timeout);
    SweptExact(Reannounced(r, id, sock, now), now', timeout);
    assert e in Swept(Discovered(r, id, sock, now), 1, now', timeout).list[1..];
    assert e in Swept(Reannounced(r, id, sock, now), 1, now', timeout).list[1..];
  }

  // ----- Any history -----

  /** When the leader last had a sign of life from process id: its last heartbeat, or its being entered. */
  ghost function LastSeen(rs: seq<Registry>, ops: seq<Op>, k: nat, id: int): int
    requires |rs| == |ops| + 1 && k <= |ops|
  {
    if k == 0 then 0
    else
      var before := LastSeen(rs, ops, k - 1, id);
      match ops[k - 1]
      case Discover(id', _, now) => if id' == id && !HasId(rs[k - 1].list, id) then now else before
      case Reannounce(id', _, now) => if id' == id && !HasId(rs[k - 1].list, id) then now else before
      case Beat(id', now) => if id' == id then now else before
      case Sweep(_, _) => before
  }

  /** The entries of `list` are as old as `seen` says. */
  ghost predicate Dated(list: seq<Entry>, rs: seq<Registry>, ops: seq<Op>, k: nat)
    requires |rs| == |ops| + 1 && k <= |ops|
  {
    forall e :: e in list[if list == [] then 0 else 1..] ==> e.beat == LastSeen(rs, ops, k, e.id)
  }

  lemma {:induction false} JoinDated(rs: seq<Registry>, ops: seq<Op>, k: nat, id: int, sock: int, now: int)
    requires History(rs, ops) && k < |ops| && Sound(rs[k]) && Dated(rs[k].list, rs, ops, k)
    requires ops[k] == Discover(id, sock, now) || ops[k] == Reannounce(id, sock, now)
    ensures Dated(rs[k + 1].list, rs, ops, k + 1)
  {
    var list, list' := rs[k].list, rs[k + 1].list;
    JoinEnters(rs[k], id, sock, now);
    if HasId(list, id) {
      assert list' == list;
    } else {
      var e := Entry(id, false, sock, now);
      EnteredAmong(list, list', e);
      forall x | x in list'[1..]
        ensures x.beat == LastSeen(rs, ops, k + 1, x.id)
      {
        if x != e {
          assert x in list[1..];
          var i :| 0 <= i < |list[1..]| && list[1..][i] == x;
          assert list[i + 1].id == x.id;
        }
      }
    }
  }

  lemma {:induction false} BeatDated(rs: seq<Registry>, ops: seq<Op>, k: nat, id: int, now: int)
    requires History(rs, ops) && k < |ops| && Sound(rs[k]) && Dated(rs[k].list, rs, ops, k)
    requires ops[k] == Beat(id, now)
    ensures Dated(rs[k + 1].list, rs, ops, k + 1)
  {
    var list, list' := rs[k].list, rs[k + 1].list;
    StampedEach(list, id, now);
    forall x | x in list'[1..]
      ensures x.beat == LastSeen(rs, ops, k + 1, x.id)
    {
      var i :| 0 <= i < |list'[1..]| && list'[1..][i] == x;
      assert list'[i + 1] == x && list[1..][i] == list[i + 1];
      assert list[i + 1] in list[1..];
    }
  }

  lemma {:induction false} SweepDated(rs: seq<Registry>, ops: seq<Op>, k: nat, now: int, timeout: int)
    requires History(rs, ops) && k < |ops| && Sound(rs[k]) && Dated(rs[k].list, rs, ops, k)
    requires ops[k] == Sweep(now, timeout)
    ensures Dated(rs[k + 1].list, rs, ops, k + 1)
  {
    SweptExact(rs[k], now, timeout);
  }

  /** Every peer's entry is as old as its last sign of life. */
  lemma {:induction false} AlwaysDated(rs: seq<Registry>, ops: seq<Op>, k: nat)
    requires History(rs, ops) && k <= |ops|
    ensures Sound(rs[k]) && Dated(rs[k].list, rs, ops, k)
  {
    RingAgreement(rs, ops, k);
    if k > 0 {
      AlwaysDated(rs, ops, k - 1);
      DoneDated(rs, ops, k - 1);
    }
  }

  lemma {:induction false} DoneDated(rs: seq<Registry>, ops: seq<Op>, k: nat)
    requires History(rs, ops) && k < |ops| && Sound(rs[k]) && Dated(rs[k].list, rs, ops, k)
    ensures Dated(rs[k + 1].list, rs, ops, k + 1)
  {
    match ops[k]
    case Discover(id, sock, now) => JoinDated(rs, ops, k, id, sock, now);
    case Reannounce(id, sock, now) => JoinDated(rs, ops, k, id, sock, now);
    case Beat(id, now) => BeatDated(rs, ops, k, id, now);
    case Sweep(now, timeout) => SweepDated(rs, ops, k, now, timeout);
  }

  lemma {:induction false} IdAmong(list: seq<Entry>, id: int)
    requires |list| > 0
    ensures id in IdsOf(list) <==> exists e :: e in list[1..] && e.id == id
  {
    if id in IdsOf(list) {
      var i :| 1 <= i < |list| && list[i].id == id;
      assert list[1..][i - 1] == list[i];
    }
    if e :| e in list[1..] && e.id == id {
      var j :| 0 <= j < |list[1..]| && list[1..][j] == e;
      assert list[j + 1].id == id;
    }
  }

  /** Over any history: a sweep leaves a peer if and only if its last sign of life is less than `timeout`
      ago. */
  lemma {:induction false} SweepLeaves(rs: seq<Registry>, ops: seq<Op>, k: nat, now: int, timeout: int, id: int)
    requires History(rs, ops) && k < |ops| && ops[k] == Sweep(now, timeout)
    ensures id in IdsOf(rs[k + 1].list) <==>
            id in IdsOf(rs[k].list) && now - LastSeen(rs, ops, k, id) < timeout
  {
    AlwaysDated(rs, ops, k);
    SweptExact(rs[k], now, timeout);
    IdAmong(rs[k].list, id);
    IdAmong(rs[k + 1].list, id);
  }
}
