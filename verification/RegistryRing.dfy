/** The leader's registry of peers and the ring it announces to them (new_server and
    ring_reconstruction in chat-c/multicast.c, ring_status, update_ring and check_heartbeat_timeout in
    chat-c/disconnection_handler.c): what each operation does to the list and what it sends. */
module RegistryRing {
  import opened Wrappers
  import opened ServerStruct

  /** The three messages that tell a peer its ring successor. */
  datatype Notice =
    | Welcome(leader: int, next: Option<int>)
    | UpdateFromLeader(id: int)
    | KnowNewLeader(leader: int, next: Option<int>)

  datatype Sent = Sent(to: int, notice: Notice)

  /** `list[0]` is the leader itself; `outbox` is everything it has sent, oldest first. */
  datatype Registry = Registry(list: seq<Entry>, outbox: seq<Sent>)

  function Announced(notice: Notice): Option<int> {
    if notice.UpdateFromLeader? then Some(notice.id) else notice.next
  }

  /** The last successor announced on a socket. */
  function Told(outbox: seq<Sent>, sock: int): Option<int> {
    if outbox == [] then None
    else
      var last := outbox[|outbox| - 1];
      if last.to == sock && Announced(last.notice).Some? then Announced(last.notice)
      else Told(outbox[..|outbox| - 1], sock)
  }

  // ----- The operations -----

  /** The position whose entry gets the second message of a registration: the predecessor, or the
      last peer when the newcomer comes first. */
  function PredecessorAt(list: seq<Entry>, id: int): (r: nat)
    requires |list| > 0 && FindId(list, id, 1) < |list|
    ensures 1 <= r < |list|
  {
    var k := FindId(list, id, 1);
    if k == 1 then |list| - 1 else k - 1
  }

  function Newcomer(id: int, sock: int, now: int): Entry {
    Entry(id, false, sock, now)
  }

  /** `get_predecessor` looks behind the head only, so a newcomer must not carry the leader's ID. */
  predicate Registrable(r: Registry, id: int) {
    |r.list| > 0 && r.list[0].id != id
  }

  /** The successor named in the first message: none for the first peer. */
  function FirstNext(r: Registry, id: int, sock: int, now: int): Option<int>
    requires |r.list| > 0
  {
    var list := Inserted(r.list, Newcomer(id, sock, now));
    if |r.list| > 1 then Some(list[SuccessorAt(list, id)].id) else None
  }

  lemma {:induction false} InsertedHasId(list: seq<Entry>, e: Entry)
    requires |list| > 0 && list[0].id != e.id
    ensures FindId(Inserted(list, e), e.id, 1) < |Inserted(list, e)|
  {
    if !HasId(list, e.id) {
      assert Inserted(list, e)[FindGreater(list, e.id, 1)].id == e.id;
    }
  }

  function Registered(r: Registry, id: int, sock: int, now: int, first: Notice, second: Notice): Registry
    requires Registrable(r, id)
  {
    var list := Inserted(r.list, Newcomer(id, sock, now));
    InsertedHasId(r.list, Newcomer(id, sock, now));
    var outbox := r.outbox + [Sent(sock, first)];
    Registry(list, if |list| > 2 then outbox + [Sent(list[PredecessorAt(list, id)].sock, second)] else outbox)
  }

  /** The second message, if there is one. */
  function Second(list: seq<Entry>, id: int, second: Notice): seq<Sent>
    requires |list| > 0 && FindId(list, id, 1) < |list|
  {
    if |list| > 2 then [Sent(list[PredecessorAt(list, id)].sock, second)] else []
  }

  lemma {:induction false} RegisteredIs(r: Registry, id: int, sock: int, now: int, first: Notice, second: Notice)
    requires Registrable(r, id)
    ensures var list := Inserted(r.list, Newcomer(id, sock, now));
            FindId(list, id, 1) < |list| &&
            Registered(r, id, sock, now, first, second) ==
            Registry(list, r.outbox + [Sent(sock, first)] + Second(list, id, second))
  {
    InsertedHasId(r.list, Newcomer(id, sock, now));
    assert r.outbox + [Sent(sock, first)] + [] == r.outbox + [Sent(sock, first)];
  }

  /** `new_server`. */
  function Discovered(r: Registry, id: int, sock: int, now: int): Registry
    requires Registrable(r, id)
  {
    Registered(r, id, sock, now, Welcome(r.list[0].id, FirstNext(r, id, sock, now)), UpdateFromLeader(id))
  }

  /** `ring_reconstruction`. */
  function Reannounced(r: Registry, id: int, sock: int, now: int): Registry
    requires Registrable(r, id)
  {
    Registered(r, id, sock, now,
               KnowNewLeader(r.list[0].id, FirstNext(r, id, sock, now)), KnowNewLeader(r.list[0].id, Some(id)))
  }

  /** `ring_status` for a peer known by its socket. */
  function Dropped(r: Registry, sock: int): Registry
    requires |r.list| > 0 && FindSock(r.list, sock, 1) < |r.list|
    requires FindId(r.list, r.list[FindSock(r.list, sock, 1)].id, 1) < |r.list|
  {
    var k := FindSock(r.list, sock, 1);
    var list := Deleted(r.list, r.list[k].id);
    if |list| <= 2 then Registry(list, r.outbox)
    else
      var to := r.list[if k == 1 then |r.list| - 1 else k - 1].sock;
      var next := list[if k == 1 || k == |list| then 1 else k].id;
      Registry(list, r.outbox + [Sent(to, UpdateFromLeader(next))])
  }

  predicate Dead(e: Entry, now: int, timeout: int) {
    now - e.beat >= timeout
  }

  /** `check_heartbeat_timeout` from position i on. Where a peer is dropped, the next one moves up. */
  function Swept(r: Registry, i: nat, now: int, timeout: int): Registry
    requires RegistryOk(r.list) && i <= |r.list| && i > 0
    decreases |r.list| - i
  {
    if i == |r.list| then r
    else if Dead(r.list[i], now, timeout) then
      DropsAt(r, i);
      Swept(Dropped(r, r.list[i].sock), i, now, timeout)
    else Swept(r, i + 1, now, timeout)
  }

  // ----- The registry stays sorted, and every operation closes the ring again -----

  predicate RegistryOk(list: seq<Entry>) {
    && |list| > 0
    && list[0].leader
    && (forall i :: 1 <= i < |list| ==> list[i].id != list[0].id)
    && (forall i, j :: 1 <= i < j < |list| ==> list[i].id < list[j].id)
    && (forall i, j :: 1 <= i < j < |list| ==> list[i].sock != list[j].sock)
  }

  /** The position after k among the peers 1 .. |list|-1, cyclically. */
  function Cyclic(list: seq<Entry>, k: nat): nat {
    if k + 1 < |list| then k + 1 else 1
  }

  /** The peer at position k has last been told its cyclic successor. */
  ghost predicate Closed(outbox: seq<Sent>, list: seq<Entry>, k: nat)
    requires 1 <= k < |list|
  {
    Told(outbox, list[k].sock) == Some(list[Cyclic(list, k)].id)
  }

  /** With at least two peers, each of them has. */
  ghost predicate Agreement(r: Registry) {
    |r.list| > 2 ==> forall k :: 1 <= k < |r.list| ==> Closed(r.outbox, r.list, k)
  }

  ghost predicate Sound(r: Registry) {
    RegistryOk(r.list) && Agreement(r)
  }

  lemma {:induction false} ToldSnoc(outbox: seq<Sent>, m: Sent)
    ensures forall s ::
              Told(outbox + [m], s) ==
              if m.to == s && Announced(m.notice).Some? then Announced(m.notice) else Told(outbox, s)
  {
    assert (outbox + [m])[..|outbox|] == outbox;
  }

  /** Dropping the peer at position i takes out exactly that entry. */
  lemma {:induction false} DropsAt(r: Registry, i: nat)
    requires RegistryOk(r.list) && 1 <= i < |r.list|
    ensures FindSock(r.list, r.list[i].sock, 1) == i
    ensures FindId(r.list, r.list[i].id, 1) == i
    ensures Deleted(r.list, r.list[i].id) == RemoveAt(r.list, i)
    ensures RegistryOk(RemoveAt(r.list, i))
  {
  }

  /** What goes out when a peer is gone from `list`: the peer at position p, its predecessor, is told of the
      next one, if two are left. */
  function Repaired(list: seq<Entry>, p: nat): seq<Sent>
    requires p < |list|
  {
    if |list| <= 2 then []
    else [Sent(list[p].sock, UpdateFromLeader(list[if p + 1 < |list| then p + 1 else 1].id))]
  }

  /** Dropping the peer at position k comes to removing it and telling its predecessor. */
  lemma {:induction false} DroppedAt(r: Registry, k: nat)
    requires RegistryOk(r.list) && 1 <= k < |r.list|
    ensures FindSock(r.list, r.list[k].sock, 1) == k && FindId(r.list, r.list[k].id, 1) == k
    ensures var list, p := RemoveAt(r.list, k), if k == 1 then |r.list| - 2 else k - 1;
            Dropped(r, r.list[k].sock) == Registry(list, r.outbox + Repaired(list, p))
  {
    DropsAt(r, k);
    var list, p := RemoveAt(r.list, k), if k == 1 then |r.list| - 2 else k - 1;
    if |list| <= 2 {
      assert r.outbox + [] == r.outbox;
    } else {
      assert list[p] == r.list[if k == 1 then |r.list| - 1 else k - 1];
    }
  }

  lemma {:induction false} FindIdIs(list: seq<Entry>, id: int, k: nat)
    requires 1 <= k < |list| && list[k].id == id
    requires forall i :: 1 <= i < k ==> list[i].id != id
    ensures FindId(list, id, 1) == k
  {
  }

  lemma {:induction false} FindGreaterIs(list: seq<Entry>, id: int, k: nat)
    requires 1 <= k <= |list| && (k < |list| ==> list[k].id > id)
    requires forall i :: 1 <= i < k ==> list[i].id <= id
    ensures FindGreater(list, id, 1) == k
  {
  }

  /** A newcomer between smaller and greater IDs, on a socket of its own. */
  lemma {:induction false} InsertedOk(list: seq<Entry>, e: Entry)
    requires RegistryOk(list) && list[0].id != e.id && !HasId(list, e.id)
    requires forall i :: 1 <= i < |list| ==> list[i].sock != e.sock
    ensures RegistryOk(Inserted(list, e))
  {
    var k := FindGreater(list, e.id, 1);
    var list' := Inserted(list, e);
    assert list' == list[..k] + [e] + list[k..];
    assert k < |list| ==> list[k].id > e.id;
    forall j | 1 <= j < |list'| && j != k
      ensures list'[j] == list[if j < k then j else j - 1]
      ensures list'[j].sock != e.sock && list'[j].id != list[0].id
      ensures if j < k then list'[j].id < e.id else list'[j].id > e.id
    {
      var i := if j < k then j else j - 1;
      assert list'[j] == list[i];
      assert list[i].id != e.id;
      if j > k {
        assert i > k ==> list[k].id < list[i].id;
      }
    }
  }

  /** Where a newcomer lands, and who its neighbours on the ring are. */
  lemma {:induction false} InsertedAt(list: seq<Entry>, e: Entry) returns (k: nat)
    requires RegistryOk(list) && list[0].id != e.id
    requires forall i :: 1 <= i < |list| ==> list[i].sock != e.sock
    ensures RegistryOk(Inserted(list, e))
    ensures 1 <= k < |Inserted(list, e)| && FindId(Inserted(list, e), e.id, 1) == k
    ensures SuccessorAt(Inserted(list, e), e.id) == Cyclic(Inserted(list, e), k)
    ensures HasId(list, e.id) ==> Inserted(list, e) == list
    ensures !HasId(list, e.id) ==> k <= |list| && Inserted(list, e) == list[..k] + [e] + list[k..]
  {
    var list' := Inserted(list, e);
    if HasId(list, e.id) {
      k := FindId(list, e.id, 1);
    } else {
      k := FindGreater(list, e.id, 1);
      InsertedOk(list, e);
      FindIdIs(list', e.id, k);
    }
    FindGreaterIs(list', e.id, k + 1);
  }

  /** A newcomer between its neighbours, both told: the ring is closed at every position. */
  lemma {:induction false} InsertCloses(list: seq<Entry>, outbox: seq<Sent>, e: Entry, k: nat, first: Notice,
                                        second: Notice, j: nat)
    requires 1 <= k <= |list| && |list| > 1
    requires |list| > 2 ==> forall i :: 1 <= i < |list| ==> Closed(outbox, list, i)
    requires forall i, i' :: 1 <= i < i' < |list| ==> list[i].sock != list[i'].sock
    requires forall i :: 1 <= i < |list| ==> list[i].sock != e.sock
    requires 1 <= j <= |list|
    requires var list' := list[..k] + [e] + list[k..];
             Announced(first) == Some(list'[Cyclic(list', k)].id) && Announced(second) == Some(e.id)
    ensures var list' := list[..k] + [e] + list[k..];
            var p := if k == 1 then |list| else k - 1;
            Closed(outbox + [Sent(e.sock, first)] + [Sent(list'[p].sock, second)], list', j)
  {
    var list' := list[..k] + [e] + list[k..];
    var p := if k == 1 then |list| else k - 1;
    ToldSnoc(outbox, Sent(e.sock, first));
    ToldSnoc(outbox + [Sent(e.sock, first)], Sent(list'[p].sock, second));
    assert list'[k] == e && Cyclic(list', p) == k;
    var i := if j < k then j else j - 1;
    if j != k {
      assert list'[j] == list[i] && list[i].sock != e.sock;
      if j != p {
        assert list'[p] == list[if p < k then p else p - 1] && list'[p].sock != list'[j].sock;
        assert Closed(outbox, list, i);
        assert list'[Cyclic(list', j)] == list[Cyclic(list, i)];
      }
    } else {
      assert list'[p] == list[if p < k then p else p - 1] && list'[p].sock != e.sock;
    }
  }

  /** The second message alone, for an ID that is already there, changes nothing. */
  lemma {:induction false} RepeatCloses(list: seq<Entry>, outbox: seq<Sent>, sock: int, k: nat, first: Notice,
                                        second: Notice,
                     j: nat)
    requires 1 <= k < |list| && |list| > 2
    requires 1 <= j < |list| && Closed(outbox, list, j)
    requires forall i, i' :: 1 <= i < i' < |list| ==> list[i].sock != list[i'].sock
    requires list[j].sock != sock
    requires Announced(second) == Some(list[k].id)
    ensures var p := if k == 1 then |list| - 1 else k - 1;
            Closed(outbox + [Sent(sock, first)] + [Sent(list[p].sock, second)], list, j)
  {
    var p := if k == 1 then |list| - 1 else k - 1;
    ToldSnoc(outbox, Sent(sock, first));
    ToldSnoc(outbox + [Sent(sock, first)], Sent(list[p].sock, second));
    assert Cyclic(list, p) == k;
  }

  lemma {:induction false} NewKeeps(r: Registry, id: int, sock: int, now: int, first: Notice, second: Notice)
    requires Sound(r) && Registrable(r, id) && !HasId(r.list, id)
    requires forall i :: 1 <= i < |r.list| ==> r.list[i].sock != sock
    requires Announced(first) == FirstNext(r, id, sock, now) && Announced(second) == Some(id)
    ensures Sound(Registered(r, id, sock, now, first, second))
  {
    var e := Newcomer(id, sock, now);
    var k := InsertedAt(r.list, e);
    if |r.list| > 1 {
      var list := r.list[..k] + [e] + r.list[k..];
      var outbox := r.outbox + [Sent(sock, first)] + [Sent(list[if k == 1 then |r.list| else k - 1].sock, second)];
      assert Registered(r, id, sock, now, first, second) == Registry(list, outbox);
      AllClose(r, e, k, first, second);
    }
  }

  lemma {:induction false} AllClose(r: Registry, e: Entry, k: nat, first: Notice, second: Notice)
    requires Sound(r) && |r.list| > 1 && 1 <= k <= |r.list|
    requires forall i :: 1 <= i < |r.list| ==> r.list[i].sock != e.sock
    requires var list := r.list[..k] + [e] + r.list[k..];
             Announced(first) == Some(list[Cyclic(list, k)].id) && Announced(second) == Some(e.id)
    ensures var list := r.list[..k] + [e] + r.list[k..];
            var p := if k == 1 then |r.list| else k - 1;
            Agreement(Registry(list, r.outbox + [Sent(e.sock, first)] + [Sent(list[p].sock, second)]))
  {
    var list := r.list[..k] + [e] + r.list[k..];
    var p := if k == 1 then |r.list| else k - 1;
    var outbox := r.outbox + [Sent(e.sock, first)] + [Sent(list[p].sock, second)];
    forall j | 1 <= j <= |r.list|
      ensures Closed(outbox, list, j)
    {
      InsertCloses(r.list, r.outbox, e, k, first, second, j);
    }
  }

  lemma {:induction false} RepeatKeeps(r: Registry, id: int, sock: int, now: int, first: Notice, second: Notice)
    requires Sound(r) && Registrable(r, id) && HasId(r.list, id)
    requires forall i :: 1 <= i < |r.list| ==> r.list[i].sock != sock
    requires Announced(second) == Some(id)
    ensures Sound(Registered(r, id, sock, now, first, second))
  {
    var k := InsertedAt(r.list, Newcomer(id, sock, now));
    if |r.list| > 2 {
      var p := if k == 1 then |r.list| - 1 else k - 1;
      var outbox := r.outbox + [Sent(sock, first)] + [Sent(r.list[p].sock, second)];
      forall j | 1 <= j < |r.list|
        ensures Closed(outbox, r.list, j)
      {
        RepeatCloses(r.list, r.outbox, sock, k, first, second, j);
      }
      assert Registered(r, id, sock, now, first, second) == Registry(r.list, outbox);
    }
  }

  lemma {:induction false} RegisteredKeeps(r: Registry, id: int, sock: int, now: int, first: Notice, second: Notice)
    requires Sound(r) && Registrable(r, id)
    requires forall i :: 1 <= i < |r.list| ==> r.list[i].sock != sock
    requires Announced(first) == FirstNext(r, id, sock, now) && Announced(second) == Some(id)
    ensures Sound(Registered(r, id, sock, now, first, second))
  {
    if HasId(r.list, id) {
      RepeatKeeps(r, id, sock, now, first, second);
    } else {
      NewKeeps(r, id, sock, now, first, second);
    }
  }

  /** A peer joins or announces itself again, under an ID other than the leader's and on a new socket. */
  lemma {:induction false} JoinKeeps(r: Registry, id: int, sock: int, now: int)
    requires Sound(r) && Registrable(r, id)
    requires forall i :: 1 <= i < |r.list| ==> r.list[i].sock != sock
    ensures Sound(Discovered(r, id, sock, now))
    ensures Sound(Reannounced(r, id, sock, now))
  {
    var next, leader := FirstNext(r, id, sock, now), r.list[0].id;
    RegisteredKeeps(r, id, sock, now, Welcome(leader, next), UpdateFromLeader(id));
    RegisteredKeeps(r, id, sock, now, KnowNewLeader(leader, next), KnowNewLeader(leader, Some(id)));
  }

  /** The predecessor of the dropped peer told of the next one: the ring is closed at every position. */
  lemma {:induction false} RemoveCloses(list: seq<Entry>, outbox: seq<Sent>, k: nat, notice: Notice, j: nat)
    requires 1 <= k < |list| && |list| > 3
    requires forall i :: 1 <= i < |list| ==> Closed(outbox, list, i)
    requires forall i, i' :: 1 <= i < i' < |list| ==> list[i].sock != list[i'].sock
    requires 1 <= j < |list| - 1
    requires Announced(notice) == Some(RemoveAt(list, k)[if k == 1 || k == |list| - 1 then 1 else k].id)
    ensures var p := if k == 1 then |list| - 1 else k - 1;
            Closed(outbox + [Sent(list[p].sock, notice)], RemoveAt(list, k), j)
  {
    var p := if k == 1 then |list| - 1 else k - 1;
    var list' := RemoveAt(list, k);
    ToldSnoc(outbox, Sent(list[p].sock, notice));
    var i := if j < k then j else j + 1;
    assert list'[j] == list[i] && Closed(outbox, list, i);
    if i != p {
      assert list'[Cyclic(list', j)] == list[Cyclic(list, i)];
    }
  }

  lemma {:induction false} DropKeeps(r: Registry, k: nat)
    requires Sound(r) && 1 <= k < |r.list|
    ensures FindSock(r.list, r.list[k].sock, 1) == k && FindId(r.list, r.list[k].id, 1) == k
    ensures Dropped(r, r.list[k].sock).list == RemoveAt(r.list, k)
    ensures Sound(Dropped(r, r.list[k].sock))
  {
    DropsAt(r, k);
    var r' := Dropped(r, r.list[k].sock);
    if |r'.list| > 2 {
      forall j | 1 <= j < |r'.list|
        ensures Closed(r'.outbox, r'.list, j)
      {
        RemoveCloses(r.list, r.outbox, k, r'.outbox[|r.outbox|].notice, j);
      }
    }
  }

  // ----- The sweep -----

  /** The peers that are still alive, in order. */
  function Living(peers: seq<Entry>, now: int, timeout: int): seq<Entry> {
    if peers == [] then []
    else (if Dead(peers[0], now, timeout) then [] else [peers[0]]) + Living(peers[1..], now, timeout)
  }

  /** What a sweep from position i on should leave. */
  function Remaining(list: seq<Entry>, i: nat, now: int, timeout: int): seq<Entry>
    requires i <= |list|
  {
    list[..i] + Living(list[i..], now, timeout)
  }

  lemma {:induction false} RemainingStep(list: seq<Entry>, i: nat, now: int, timeout: int)
    requires i < |list|
    ensures Remaining(list, i, now, timeout) ==
            if Dead(list[i], now, timeout) then Remaining(RemoveAt(list, i), i, now, timeout)
            else Remaining(list, i + 1, now, timeout)
  {
    var less := RemoveAt(list, i);
    assert list[i..][1..] == list[i + 1..] == less[i..];
    assert less[..i] == list[..i];
    assert list[..i + 1] == list[..i] + [list[i]];
  }

  /** A sweep that drops while it walks keeps exactly the living, in order, and if at least two of
      them are left, whichever others died, the ring is closed again. */
  lemma {:induction false} SweepFilters(r: Registry, i: nat, now: int, timeout: int)
    requires Sound(r) && 1 <= i <= |r.list|
    ensures Swept(r, i, now, timeout).list == Remaining(r.list, i, now, timeout)
    ensures Sound(Swept(r, i, now, timeout))
    decreases |r.list| - i
  {
    if i < |r.list| {
      RemainingStep(r.list, i, now, timeout);
      if Dead(r.list[i], now, timeout) {
        DropKeeps(r, i);
        SweepFilters(Dropped(r, r.list[i].sock), i, now, timeout);
      } else {
        SweepFilters(r, i + 1, now, timeout);
      }
    }
  }

  // ----- Any history -----

  datatype Op =
    | Discover(id: int, sock: int, now: int)
    | Reannounce(id: int, sock: int, now: int)
    | Beat(id: int, now: int)
    | Sweep(now: int, timeout: int)

  /** Sockets are not handed out twice at a time, and nobody uses the leader's ID. */
  predicate Legal(r: Registry, op: Op) {
    match op
    case Discover(id, sock, _) => Registrable(r, id) && forall i :: 1 <= i < |r.list| ==> r.list[i].sock != sock
    case Reannounce(id, sock, _) => Registrable(r, id) && forall i :: 1 <= i < |r.list| ==> r.list[i].sock != sock
    case Beat(_, _) => true
    case Sweep(_, _) => RegistryOk(r.list)
  }

  function Done(r: Registry, op: Op): Registry
    requires Legal(r, op)
  {
    match op
    case Discover(id, sock, now) => Discovered(r, id, sock, now)
    case Reannounce(id, sock, now) => Reannounced(r, id, sock, now)
    case Beat(id, now) => r.(list := Stamped(r.list, id, now))
    case Sweep(now, timeout) => Swept(r, 1, now, timeout)
  }

  predicate Alone(r: Registry) {
    |r.list| == 1 && r.list[0].leader && r.outbox == []
  }

  ghost predicate History(rs: seq<Registry>, ops: seq<Op>) {
    && |rs| == |ops| + 1
    && Alone(rs[0])
    && forall k :: 0 <= k < |ops| ==> Legal(rs[k], ops[k]) && rs[k + 1] == Done(rs[k], ops[k])
  }

  lemma {:induction false} BeatKeeps(r: Registry, id: int, now: int)
    requires Sound(r)
    ensures Sound(r.(list := Stamped(r.list, id, now)))
  {
    forall k | |r.list| > 2 && 1 <= k < |r.list|
      ensures Closed(r.outbox, Stamped(r.list, id, now), k)
    {
      assert Closed(r.outbox, r.list, k);
    }
  }

  lemma {:induction false} DoneKeeps(r: Registry, op: Op)
    requires Sound(r) && Legal(r, op)
    ensures Sound(Done(r, op))
  {
    match op
    case Discover(id, sock, now) => JoinKeeps(r, id, sock, now);
    case Reannounce(id, sock, now) => JoinKeeps(r, id, sock, now);
    case Beat(id, now) => BeatKeeps(r, id, now);
    case Sweep(now, timeout) => SweepFilters(r, 1, now, timeout);
  }

  /** Over any history the peers stay strictly ascending by ID, and whenever there are at least two,
      the successors announced to them form the cyclic order of the registry. */
  lemma {:induction false} RingAgreement(rs: seq<Registry>, ops: seq<Op>, k: nat)
    requires History(rs, ops) && k <= |ops|
    ensures Sound(rs[k])
  {
    if k > 0 {
      RingAgreement(rs, ops, k - 1);
      DoneKeeps(rs[k - 1], ops[k - 1]);
    }
  }

  // ----- To whom the messages go, and whom they name -----

  predicate NamesOther(list: seq<Entry>, i: nat, notice: Notice)
    requires i < |list|
  {
    Announced(notice).Some? ==> Announced(notice).value != list[0].id && Announced(notice).value != list[i].id
  }

  /** The message goes to a registered peer and names neither that peer nor the leader. */
  ghost predicate Outward(list: seq<Entry>, m: Sent) {
    exists i :: 1 <= i < |list| && list[i].sock == m.to && NamesOther(list, i, m.notice)
  }

  ghost predicate Joining(op: Op) {
    op.Discover? || op.Reannounce?
  }

  /** The answer to a process that is already registered, on its new socket. It names the process itself
      exactly if it is the only peer. */
  ghost predicate Repeat(r: Registry, op: Op, m: Sent) {
    && |r.list| > 0 && Joining(op) && HasId(r.list, op.id)
    && m.to == op.sock && Announced(m.notice).Some?
    && Announced(m.notice).value != r.list[0].id
    && (Announced(m.notice).value == op.id <==> |r.list| == 2)
  }

  ghost predicate Proper(r: Registry, op: Op, list: seq<Entry>, m: Sent) {
    Outward(list, m) || Repeat(r, op, m)
  }

  lemma {:induction false} NewOutward(r: Registry, id: int, sock: int, now: int, first: Notice, second: Notice)
    requires Sound(r) && Registrable(r, id) && !HasId(r.list, id)
    requires forall i :: 1 <= i < |r.list| ==> r.list[i].sock != sock
    requires Announced(first) == FirstNext(r, id, sock, now) && Announced(second) == Some(id)
    ensures var list := Inserted(r.list, Newcomer(id, sock, now));
            && Outward(list, Sent(sock, first))
            && FindId(list, id, 1) < |list|
            && (|list| > 2 ==> Outward(list, Sent(list[PredecessorAt(list, id)].sock, second)))
  {
    var e := Newcomer(id, sock, now);
    var list := Inserted(r.list, e);
    var k := InsertedAt(r.list, e);
    assert list[k].sock == sock && NamesOther(list, k, first);
    if |list| > 2 {
      assert NamesOther(list, PredecessorAt(list, id), second);
    }
  }

  lemma {:induction false} RepeatOutward(r: Registry, id: int, sock: int, now: int, second: Notice)
    requires Sound(r) && Registrable(r, id) && HasId(r.list, id) && Announced(second) == Some(id)
    requires forall i :: 1 <= i < |r.list| ==> r.list[i].sock != sock
    ensures FindId(r.list, id, 1) < |r.list| && |r.list| > 1
    ensures FirstNext(r, id, sock, now).Some? && FirstNext(r, id, sock, now).value != r.list[0].id
    ensures FirstNext(r, id, sock, now).value == id <==> |r.list| == 2
    ensures |r.list| > 2 ==> Outward(r.list, Sent(r.list[PredecessorAt(r.list, id)].sock, second))
  {
    var k := InsertedAt(r.list, Newcomer(id, sock, now));
    if |r.list| > 2 {
      assert NamesOther(r.list, PredecessorAt(r.list, id), second);
    }
  }

  lemma {:induction false} DropOutward(r: Registry, k: nat)
    requires Sound(r) && 1 <= k < |r.list|
    ensures FindSock(r.list, r.list[k].sock, 1) == k && FindId(r.list, r.list[k].id, 1) == k
    ensures var r' := Dropped(r, r.list[k].sock);
            r'.outbox == r.outbox || exists m :: r'.outbox == r.outbox + [m] && Outward(r.list, m)
  {
    DropsAt(r, k);
    var r' := Dropped(r, r.list[k].sock);
    if |r'.list| > 2 {
      var p := if k == 1 then |r.list| - 1 else k - 1;
      var m := r'.outbox[|r.outbox|];
      var n := if k == 1 || k == |r.list| - 1 then 1 else k;
      assert r'.list[n] == r.list[if n < k then n else n + 1];
      assert r.list[p].sock == m.to && NamesOther(r.list, p, m.notice);
      assert r'.outbox == r.outbox + [m];
    }
  }

  /** What goes out to the peers left when one is gone goes out to peers that were there before. */
  lemma {:induction false} OutwardBefore(list: seq<Entry>, k: nat, m: Sent)
    requires 1 <= k < |list| && Outward(RemoveAt(list, k), m)
    ensures Outward(list, m)
  {
    var less := RemoveAt(list, k);
    var i :| 1 <= i < |less| && less[i].sock == m.to && NamesOther(less, i, m.notice);
    var j := if i < k then i else i + 1;
    assert less[i] == list[j] && NamesOther(list, j, m.notice);
  }

  ghost predicate OutwardFrom(list: seq<Entry>, outbox: seq<Sent>, outbox': seq<Sent>) {
    outbox <= outbox' && forall j :: |outbox| <= j < |outbox'| ==> Outward(list, outbox'[j])
  }

  lemma {:induction false} SweepOutward(r: Registry, i: nat, now: int, timeout: int)
    requires Sound(r) && 1 <= i <= |r.list|
    ensures OutwardFrom(r.list, r.outbox, Swept(r, i, now, timeout).outbox)
    decreases |r.list| - i
  {
    if i < |r.list| {
      if Dead(r.list[i], now, timeout) {
        DropKeeps(r, i);
        DropOutward(r, i);
        var r1, last := Dropped(r, r.list[i].sock), Swept(r, i, now, timeout);
        SweepOutward(r1, i, now, timeout);
        forall j | |r.outbox| <= j < |last.outbox|
          ensures Outward(r.list, last.outbox[j])
        {
          if j >= |r1.outbox| {
            OutwardBefore(r.list, i, last.outbox[j]);
          } else {
            assert last.outbox[j] == r1.outbox[j];
          }
        }
      } else {
        SweepOutward(r, i + 1, now, timeout);
      }
    }
  }

  /** Whatever the leader sends, it sends to a registered peer about a third process; but for the answer to
      one that is registered already, which comes on a socket of its own. */
  lemma {:induction false} SentOutward(r: Registry, op: Op)
    requires Sound(r) && Legal(r, op)
    ensures r.outbox <= Done(r, op).outbox
    ensures forall j :: |r.outbox| <= j < |Done(r, op).outbox| ==>
              Proper(r, op, if Joining(op) then Done(r, op).list else r.list, Done(r, op).outbox[j])
  {
    match op
    case Discover(id, sock, now) =>
      var next, leader := FirstNext(r, id, sock, now), r.list[0].id;
      JoinOutward(r, op, Welcome(leader, next), UpdateFromLeader(id));
    case Reannounce(id, sock, now) =>
      var next, leader := FirstNext(r, id, sock, now), r.list[0].id;
      JoinOutward(r, op, KnowNewLeader(leader, next), KnowNewLeader(leader, Some(id)));
    case Beat(_, _) =>
    case Sweep(now, timeout) => SweepOutward(r, 1, now, timeout);
  }

  lemma {:induction false} JoinProper(r: Registry, op: Op, first: Notice, second: Notice)
    requires Sound(r) && Joining(op) && Legal(r, op)
    requires Announced(first) == FirstNext(r, op.id, op.sock, op.now) && Announced(second) == Some(op.id)
    ensures var list := Inserted(r.list, Newcomer(op.id, op.sock, op.now));
            && FindId(list, op.id, 1) < |list|
            && Proper(r, op, list, Sent(op.sock, first))
            && (|list| > 2 ==> Proper(r, op, list, Sent(list[PredecessorAt(list, op.id)].sock, second)))
  {
    if HasId(r.list, op.id) {
      RepeatOutward(r, op.id, op.sock, op.now, second);
      assert Repeat(r, op, Sent(op.sock, first));
    } else {
      NewOutward(r, op.id, op.sock, op.now, first, second);
    }
  }

  ghost predicate AllProper(r: Registry, op: Op, r': Registry) {
    && r.outbox <= r'.outbox
    && forall j :: |r.outbox| <= j < |r'.outbox| ==> Proper(r, op, r'.list, r'.outbox[j])
  }

  lemma {:induction false} JoinOutward(r: Registry, op: Op, first: Notice, second: Notice)
    requires Sound(r) && Joining(op) && Legal(r, op)
    requires Announced(first) == FirstNext(r, op.id, op.sock, op.now) && Announced(second) == Some(op.id)
    ensures AllProper(r, op, Registered(r, op.id, op.sock, op.now, first, second))
  {
    JoinProper(r, op, first, second);
    var list, a := Inserted(r.list, Newcomer(op.id, op.sock, op.now)), Sent(op.sock, first);
    if |list| > 2 {
      var b := Sent(list[PredecessorAt(list, op.id)].sock, second);
      TwoProper(r, op, list, a, b);
    }
  }

  lemma {:induction false} TwoProper(r: Registry, op: Op, list: seq<Entry>, a: Sent, b: Sent)
    requires Proper(r, op, list, a) && Proper(r, op, list, b)
    ensures AllProper(r, op, Registry(list, r.outbox + [a] + [b]))
  {
  }

  // ----- After an election: the order of the announcements does not matter -----

  ghost predicate SameIds(a: seq<Entry>, b: seq<Entry>, k: nat) {
    k <= |a| && k <= |b| && forall i :: 1 <= i < k ==> a[i].id == b[i].id
  }

  ghost function IdsOf(list: seq<Entry>): set<int> {
    set i | 1 <= i < |list| :: list[i].id
  }

  lemma {:induction false} AscendingUnique(a: seq<Entry>, b: seq<Entry>, k: nat)
    requires RegistryOk(a) && RegistryOk(b) && IdsOf(a) == IdsOf(b)
    requires 1 <= k <= |a|
    ensures SameIds(a, b, k)
  {
    if k > 1 {
      AscendingUnique(a, b, k - 1);
      var i := k - 1;
      assert a[i].id in IdsOf(b);
      var j :| 1 <= j < |b| && b[j].id == a[i].id;
      assert j >= i;
      assert b[i].id in IdsOf(a);
      var j' :| 1 <= j' < |a| && a[j'].id == b[i].id;
      assert j' >= i;
    }
  }

  lemma {:induction false} SameRegistry(a: seq<Entry>, b: seq<Entry>)
    requires RegistryOk(a) && RegistryOk(b) && IdsOf(a) == IdsOf(b)
    ensures |a| == |b| && SameIds(a, b, |a|)
  {
    AscendingUnique(a, b, |a|);
    AscendingUnique(b, a, |b|);
  }

  ghost predicate Joins(ops: seq<Op>) {
    forall k :: 0 <= k < |ops| ==> ops[k].Discover? || ops[k].Reannounce?
  }

  ghost function JoinedIds(ops: seq<Op>, k: nat): set<int>
    requires Joins(ops) && k <= |ops|
  {
    set j | 0 <= j < k :: ops[j].id
  }

  lemma {:induction false} InsertedIds(list: seq<Entry>, e: Entry)
    requires |list| > 0 && list[0].id != e.id
    ensures IdsOf(Inserted(list, e)) == IdsOf(list) + {e.id}
  {
    var list' := Inserted(list, e);
    if !HasId(list, e.id) {
      var k := FindGreater(list, e.id, 1);
      assert list'[k] == e;
      forall i | 1 <= i < |list|
        ensures list[i].id in IdsOf(list')
      {
        assert list[i] == list'[if i < k then i else i + 1];
      }
    }
  }

  lemma {:induction false} JoinIds(r: Registry, op: Op)
    requires |r.list| > 0 && Legal(r, op) && (op.Discover? || op.Reannounce?)
    ensures |Done(r, op).list| > 0 && IdsOf(Done(r, op).list) == IdsOf(r.list) + {op.id}
  {
    InsertedIds(r.list, Newcomer(op.id, op.sock, op.now));
  }

  lemma {:induction false} HistoryIds(rs: seq<Registry>, ops: seq<Op>, k: nat)
    requires History(rs, ops) && Joins(ops) && k <= |ops|
    ensures |rs[k].list| > 0 && IdsOf(rs[k].list) == JoinedIds(ops, k)
  {
    if k > 0 {
      HistoryIds(rs, ops, k - 1);
      JoinIds(rs[k - 1], ops[k - 1]);
      assert JoinedIds(ops, k) == JoinedIds(ops, k - 1) + {ops[k - 1].id};
    }
  }

  /** Two winners that hear of the same peers in whatever order, and however often, end with the same
      peers in the same order and have told each of them the same successor. */
  lemma {:induction false} OrderIndependent(rs: seq<Registry>, ops: seq<Op>, rs': seq<Registry>, ops': seq<Op>)
    requires History(rs, ops) && Joins(ops) && History(rs', ops') && Joins(ops')
    requires JoinedIds(ops, |ops|) == JoinedIds(ops', |ops'|)
    ensures var r, r' := rs[|ops|], rs'[|ops'|];
            && |r.list| == |r'.list| && SameIds(r.list, r'.list, |r.list|)
            && (|r.list| > 2 ==> forall i :: 1 <= i < |r.list| ==>
                  Told(r.outbox, r.list[i].sock) == Told(r'.outbox, r'.list[i].sock))
  {
    var r, r' := rs[|ops|], rs'[|ops'|];
    RingAgreement(rs, ops, |ops|);
    RingAgreement(rs', ops', |ops'|);
    HistoryIds(rs, ops, |ops|);
    HistoryIds(rs', ops', |ops'|);
    SameRegistry(r.list, r'.list);
    forall i | |r.list| > 2 && 1 <= i < |r.list|
      ensures Told(r.outbox, r.list[i].sock) == Told(r'.outbox, r'.list[i].sock)
    {
      assert Closed(r.outbox, r.list, i) && Closed(r'.outbox, r'.list, i);
    }
  }
}
