/** What one chat client does with the group messages that reach it, and with its own (the counters of
    chat-c/client/client_s.c and the queue of chat-c/client/data_structure.c), as functions on values;
    and what its drain can and cannot do, whatever arrives. */
module HoldBack {
  import opened Wrappers
  import opened Text
  import opened GroupFrame

  /** A node of the hold-back queue: `sender` is the sender's clock index, `content` the clean message. */
  datatype Msg = Msg(id: int, sender: nat, deps: seq<int>, content: string)

  /** DELIVERED, the queue, and what has been printed, oldest first. */
  datatype Box = Box(delivered: seq<nat>, queue: seq<Msg>, log: seq<Msg>)

  predicate Fit(m: Msg) {
    m.sender < MAX_GROUP_SIZE && |m.deps| == MAX_GROUP_SIZE
  }

  predicate AllFit(ms: seq<Msg>) {
    forall i :: 0 <= i < |ms| ==> Fit(ms[i])
  }

  predicate BoxOk(b: Box) {
    |b.delivered| == MAX_GROUP_SIZE && AllFit(b.queue)
  }

  /** A client that has just started: DELIVERED is a zero-initialised global. */
  const EMPTY: Box := Box([0, 0, 0, 0, 0, 0, 0, 0, 0, 0], [], [])

  /** `array_compare(dependency, DELIVERED) <= 0`: the comparison is pointwise. */
  predicate Ready(deps: seq<int>, delivered: seq<nat>)
    requires |deps| == |delivered| == MAX_GROUP_SIZE
  {
    forall i :: 0 <= i < MAX_GROUP_SIZE ==> deps[i] <= delivered[i]
  }

  predicate HeadReady(b: Box)
    requires BoxOk(b)
  {
    b.queue != [] && Ready(b.queue[0].deps, b.delivered)
  }

  function HeadDelivered(b: Box): (b': Box)
    requires BoxOk(b) && b.queue != []
    ensures BoxOk(b')
  {
    var m := b.queue[0];
    Box(b.delivered[m.sender := b.delivered[m.sender] + 1], b.queue[1..], b.log + [m])
  }

  /** The loop of `deliver_messages`: it stops at the first head that is not ready. */
  function Drained(b: Box): (b': Box)
    requires BoxOk(b)
    ensures BoxOk(b')
    decreases |b.queue|
  {
    if HeadReady(b) then Drained(HeadDelivered(b)) else b
  }

  function Arrived(b: Box, m: Msg): (b': Box)
    requires BoxOk(b) && Fit(m)
    ensures BoxOk(b')
  {
    Drained(b.(queue := b.queue + [m]))
  }

  /** What the receiver makes of a clean message; None when the sscanf fails. */
  function Read(clean: string): Option<Msg>
    requires Parse(clean).Some? ==> Parse(clean).value.index >= 0
  {
    var p :- Parse(clean);
    Some(Msg(p.id, p.index, Numbers(p.deps), clean))
  }

  /** The C code indexes fixed arrays with what it has read, so what it reads must fit them. */
  predicate Readable(clean: string) {
    Parse(clean).Some? ==> Parse(clean).value.index >= 0 && Fit(Read(clean).value)
  }

  /** `append_to_holdback_queue` and `deliver_messages` on what was read: an unreadable message costs the
      whole queue, for `deliver_messages` then answers with a null head. */
  function Handed(b: Box, m: Option<Msg>): (b': Box)
    requires BoxOk(b) && (m.Some? ==> Fit(m.value))
    ensures BoxOk(b')
  {
    if m.None? then b.(queue := []) else Arrived(b, m.value)
  }

  /** `handle_group_receive` after `clear_message`. */
  function Received(b: Box, clean: string): (b': Box)
    requires BoxOk(b) && Readable(clean)
    ensures BoxOk(b')
  {
    Handed(b, Read(clean))
  }

  // ----- The drain, exactly -----

  /** How many of the messages come from sender j. */
  function Count(ms: seq<Msg>, j: nat): nat {
    if ms == [] then 0
    else Count(ms[..|ms| - 1], j) + if ms[|ms| - 1].sender == j then 1 else 0
  }

  lemma {:induction false} CountSnoc(ms: seq<Msg>, m: Msg, j: nat)
    ensures Count(ms + [m], j) == Count(ms, j) + if m.sender == j then 1 else 0
  {
    assert (ms + [m])[..|ms|] == ms;
  }

  function Counts(ms: seq<Msg>): (v: seq<nat>)
    ensures |v| == MAX_GROUP_SIZE && forall j :: 0 <= j < MAX_GROUP_SIZE ==> v[j] == Count(ms, j)
  {
    seq(MAX_GROUP_SIZE, (j: nat) => Count(ms, j))
  }

  lemma {:induction false} CountsSnoc(ms: seq<Msg>, m: Msg)
    requires Fit(m)
    ensures Counts(ms + [m]) == Counts(ms)[m.sender := Counts(ms)[m.sender] + 1]
  {
    forall j: nat | j < MAX_GROUP_SIZE
      ensures Count(ms + [m], j) == Count(ms, j) + if m.sender == j then 1 else 0
    {
      CountSnoc(ms, m, j);
    }
  }

  /** Arrival i depends on nothing but the arrivals before it. */
  predicate OnTime(ms: seq<Msg>, i: nat)
    requires AllFit(ms) && i < |ms|
  {
    Ready(ms[i].deps, Counts(ms[..i]))
  }

  /** The first arrival from k on that is not on time; |ms| when all are. */
  function FirstLate(ms: seq<Msg>, k: nat): (v: nat)
    requires AllFit(ms) && k <= |ms|
    ensures k <= v <= |ms|
    ensures v < |ms| ==> !OnTime(ms, v)
    ensures forall i :: k <= i < v ==> OnTime(ms, i)
    decreases |ms| - k
  {
    if k == |ms| || !OnTime(ms, k) then k else FirstLate(ms, k + 1)
  }

  predicate AllRead(rs: seq<Option<Msg>>) {
    forall i :: 0 <= i < |rs| ==> rs[i].Some?
  }

  predicate ReadFit(rs: seq<Option<Msg>>) {
    forall i :: 0 <= i < |rs| && rs[i].Some? ==> Fit(rs[i].value)
  }

  /** A client that makes this of its arrivals, one after the other; None is a message it cannot read. */
  function Replay(rs: seq<Option<Msg>>): (b: Box)
    requires ReadFit(rs)
    ensures BoxOk(b)
  {
    if rs == [] then EMPTY else Handed(Replay(rs[..|rs| - 1]), rs[|rs| - 1])
  }

  /** How many arrivals there are up to the last unreadable one. */
  function LastCut(rs: seq<Option<Msg>>): (c: nat)
    ensures c <= |rs| && (c > 0 ==> rs[c - 1].None?) && AllRead(rs[c..])
  {
    if rs == [] || rs[|rs| - 1].None? then |rs| else LastCut(rs[..|rs| - 1])
  }

  function Values(rs: seq<Option<Msg>>): (ms: seq<Msg>)
    requires AllRead(rs)
    ensures |ms| == |rs| && forall i :: 0 <= i < |ms| ==> ms[i] == rs[i].value
  {
    seq(|rs|, i requires 0 <= i < |rs| => rs[i].value)
  }

  /** What had been printed by the last unreadable arrival. */
  function PrintedByCut(rs: seq<Option<Msg>>): seq<Msg>
    requires ReadFit(rs)
  {
    Replay(rs[..LastCut(rs)]).log
  }

  /** What had been printed when the client last lost its queue, and everything that has arrived since. */
  function Retained(rs: seq<Option<Msg>>): seq<Msg>
    requires ReadFit(rs)
  {
    PrintedByCut(rs) + Values(rs[LastCut(rs)..])
  }

  /** The box after the first v of the messages have been delivered and the rest is held back. */
  function Split(ms: seq<Msg>, v: nat): Box
    requires v <= |ms|
  {
    Box(Counts(ms[..v]), ms[v..], ms[..v])
  }

  lemma {:induction false} SplitWhole(ms: seq<Msg>, v: nat)
    requires v <= |ms|
    ensures Split(ms, v).log + Split(ms, v).queue == ms
  {
  }

  lemma {:induction false} ArrivedInOrder(ms: seq<Msg>, m: Msg)
    requires AllFit(ms) && Fit(m)
    ensures Arrived(Split(ms, |ms|), m) == Split(ms + [m], if OnTime(ms + [m], |ms|) then |ms| + 1 else |ms|)
  {
    var all := ms + [m];
    assert all[..|ms|] == ms[..|ms|] == ms && all[|ms|..] == [m] && all[..|ms| + 1] == all;
    CountsSnoc(ms, m);
    var b := Split(ms, |ms|);
    var b' := b.(queue := b.queue + [m]);
    assert b'.queue == [m];
    assert HeadReady(b') == OnTime(all, |ms|);
    if HeadReady(b') {
      assert HeadDelivered(b') == Split(all, |ms| + 1);
      assert Drained(b') == Drained(HeadDelivered(b'));
    } else {
      assert b' == Split(all, |ms|);
    }
  }

  lemma {:induction false} FirstLateSnoc(ms: seq<Msg>, m: Msg, k: nat)
    requires AllFit(ms) && Fit(m) && k <= |ms|
    ensures var v := FirstLate(ms, k);
            FirstLate(ms + [m], k) ==
            if v < |ms| then v else if OnTime(ms + [m], |ms|) then |ms| + 1 else |ms|
    decreases |ms| - k
  {
    if k < |ms| {
      assert (ms + [m])[..k] == ms[..k] && (ms + [m])[k] == ms[k];
      FirstLateSnoc(ms, m, k + 1);
    }
  }

  /** One more arrival at a box that has delivered everything before the first late one. */
  lemma {:induction false} SplitArrived(ms: seq<Msg>, m: Msg, k: nat)
    requires AllFit(ms) && Fit(m) && k <= |ms|
    ensures Arrived(Split(ms, FirstLate(ms, k)), m) == Split(ms + [m], FirstLate(ms + [m], k))
  {
    var v, all := FirstLate(ms, k), ms + [m];
    FirstLateSnoc(ms, m, k);
    var b := Split(ms, v);
    if v == |ms| {
      ArrivedInOrder(ms, m);
    } else {
      assert b.queue + [m] == all[v..] && all[..v] == ms[..v];
      assert all[v] == ms[v] && !HeadReady(b.(queue := b.queue + [m]));
    }
  }

  ghost predicate Exact(rs: seq<Option<Msg>>)
    requires ReadFit(rs)
  {
    AllFit(Retained(rs)) && Replay(rs) == Split(Retained(rs), FirstLate(Retained(rs), |PrintedByCut(rs)|))
  }

  /** The drain, exactly, whatever arrives. An unreadable message throws away the queue. Of what has
      arrived since then, everything before the first late message is delivered in order of arrival,
      and everything from it on is held back. */
  lemma {:induction false} DrainExact(rs: seq<Option<Msg>>)
    requires ReadFit(rs)
    ensures Exact(rs)
  {
    if rs == [] {
      assert Counts([]) == EMPTY.delivered;
    } else {
      var rest, m := rs[..|rs| - 1], rs[|rs| - 1];
      DrainExact(rest);
      assert rest + [m] == rs;
      if m.None? {
        CutHere(rest);
      } else {
        CutLater(rest, m.value);
      }
    }
  }

  lemma {:induction false} CutNow(rest: seq<Option<Msg>>)
    requires ReadFit(rest)
    ensures var rs := rest + [None];
            && PrintedByCut(rs) == Replay(rest).log && Retained(rs) == Replay(rest).log
            && Replay(rs) == Replay(rest).(queue := [])
  {
    var rs, log := rest + [None], Replay(rest).log;
    ReplaySnoc(rest, None);
    assert LastCut(rs) == |rs| && rs[..|rs|] == rs;
    assert Values(rs[|rs|..]) == [] && log + [] == log;
  }

  lemma {:induction false} CutHere(rest: seq<Option<Msg>>)
    requires ReadFit(rest) && Exact(rest)
    ensures Exact(rest + [None])
  {
    CutNow(rest);
    var log := Replay(rest).log;
    assert log[..|log|] == log;
  }

  lemma {:induction false} CutSnoc(rest: seq<Option<Msg>>, m: Msg)
    ensures var rs, c := rest + [Some(m)], LastCut(rest);
            LastCut(rs) == c && rs[..c] == rest[..c] && rs[c..] == rest[c..] + [Some(m)]
  {
    assert (rest + [Some(m)])[..|rest|] == rest;
  }

  lemma {:induction false} ValuesSnoc(rest: seq<Option<Msg>>, m: Msg)
    requires AllRead(rest)
    ensures Values(rest + [Some(m)]) == Values(rest) + [m]
  {
  }

  lemma {:induction false} RetainedSnoc(rest: seq<Option<Msg>>, m: Msg)
    requires ReadFit(rest) && Fit(m)
    ensures PrintedByCut(rest + [Some(m)]) == PrintedByCut(rest)
    ensures Retained(rest + [Some(m)]) == Retained(rest) + [m]
  {
    CutSnoc(rest, m);
    ValuesSnoc(rest[LastCut(rest)..], m);
  }

  lemma {:induction false} ReplaySnoc(rest: seq<Option<Msg>>, m: Option<Msg>)
    requires ReadFit(rest) && (m.Some? ==> Fit(m.value))
    ensures Replay(rest + [m]) == Handed(Replay(rest), m)
  {
    assert (rest + [m])[..|rest|] == rest;
  }

  lemma {:induction false} CutLater(rest: seq<Option<Msg>>, m: Msg)
    requires ReadFit(rest) && Exact(rest) && Fit(m)
    ensures Exact(rest + [Some(m)])
  {
    ReplaySnoc(rest, Some(m));
    RetainedSnoc(rest, m);
    SplitArrived(Retained(rest), m, |PrintedByCut(rest)|);
  }

  /** If everything can be read, nothing is lost, repeated or reordered; else something is missing. */
  lemma {:induction false} NothingLost(rs: seq<Option<Msg>>)
    requires ReadFit(rs)
    ensures AllRead(rs) ==> Replay(rs).log + Replay(rs).queue == Values(rs)
    ensures !AllRead(rs) ==> |Replay(rs).log| + |Replay(rs).queue| < |rs|
  {
    if AllRead(rs) {
      DrainExact(rs);
      NoCut(rs);
      SplitWhole(Retained(rs), FirstLate(Retained(rs), |PrintedByCut(rs)|));
    } else {
      var i :| 0 <= i < |rs| && rs[i].None?;
      OthersLost(rs, i);
    }
  }

  lemma {:induction false} NoCut(rs: seq<Option<Msg>>)
    requires ReadFit(rs) && AllRead(rs)
    ensures LastCut(rs) == 0 && PrintedByCut(rs) == [] && Retained(rs) == Values(rs)
  {
    assert rs[..0] == [] && rs[0..] == rs;
  }

  /** An unreadable arrival is never made up for. */
  lemma {:induction false} OthersLost(rs: seq<Option<Msg>>, i: nat)
    requires ReadFit(rs) && i < |rs| && rs[i].None?
    ensures |Replay(rs).log| + |Replay(rs).queue| < |rs|
  {
    var rest, m := rs[..|rs| - 1], rs[|rs| - 1];
    if i < |rest| {
      OthersLost(rest, i);
    } else {
      AtMostArrived(rest);
    }
    if m.Some? {
      DrainTotal(Replay(rest).(queue := Replay(rest).queue + [m.value]));
    }
  }

  lemma {:induction false} DrainTotal(b: Box)
    requires BoxOk(b)
    ensures |Drained(b).log| + |Drained(b).queue| == |b.log| + |b.queue|
    decreases |b.queue|
  {
    if HeadReady(b) {
      DrainTotal(HeadDelivered(b));
    }
  }

  lemma {:induction false} AtMostArrived(rs: seq<Option<Msg>>)
    requires ReadFit(rs)
    ensures |Replay(rs).log| + |Replay(rs).queue| <= |rs|
  {
    if rs != [] {
      var before, m := Replay(rs[..|rs| - 1]), rs[|rs| - 1];
      AtMostArrived(rs[..|rs| - 1]);
      if m.Some? {
        DrainTotal(before.(queue := before.queue + [m.value]));
      }
    }
  }

  /** The queue runs empty exactly when every arrival since the last unreadable one was on time. */
  lemma {:induction false} CompleteIffOnTime(rs: seq<Option<Msg>>)
    requires ReadFit(rs)
    ensures AllFit(Retained(rs))
    ensures Replay(rs).queue == [] <==>
            forall i :: |PrintedByCut(rs)| <= i < |Retained(rs)| ==> OnTime(Retained(rs), i)
  {
    DrainExact(rs);
  }

  lemma {:induction false} HeldBack(rs: seq<Option<Msg>>)
    requires ReadFit(rs) && Replay(rs).queue != []
    ensures !HeadReady(Replay(rs))
  {
    DrainExact(rs);
  }

  /** Once a message is held back, DELIVERED never changes again and the queue only grows, as long as
      what arrives can be read. */
  lemma {:induction false} StalledForever(rs: seq<Option<Msg>>, more: seq<Option<Msg>>)
    requires ReadFit(rs) && ReadFit(more) && AllRead(more) && Replay(rs).queue != []
    ensures Replay(rs + more) == Replay(rs).(queue := Replay(rs).queue + Values(more))
  {
    var b := Replay(rs);
    if more == [] {
      assert rs + more == rs && b.queue + [] == b.queue;
    } else {
      var less, m := more[..|more| - 1], more[|more| - 1];
      StalledForever(rs, less);
      assert (rs + more)[..|rs + more| - 1] == rs + less;
      StaysHeld(b, Values(less), m.value);
      assert Values(less) + [m.value] == Values(more);
      HeldBack(rs);
    }
  }

  lemma {:induction false} StaysHeld(b: Box, less: seq<Msg>, m: Msg)
    requires BoxOk(b) && AllFit(less) && Fit(m) && b.queue != []
    ensures !HeadReady(b) ==>
            Arrived(b.(queue := b.queue + less), m) == b.(queue := b.queue + (less + [m]))
  {
    assert (b.queue + less) + [m] == b.queue + (less + [m]);
  }

  /** An unreadable message frees a stalled client: it prints what comes next, if that is ready, but never
      what was lost. */
  lemma {:induction false} CutFrees(rs: seq<Option<Msg>>, m: Msg)
    requires ReadFit(rs) && Fit(m)
    ensures var b, b' := Replay(rs), Replay(rs + [None] + [Some(m)]);
            b' == if Ready(m.deps, b.delivered) then HeadDelivered(b.(queue := [m])) else b.(queue := [m])
  {
    var b := Replay(rs);
    assert (rs + [None])[..|rs|] == rs;
    assert (rs + [None] + [Some(m)])[..|rs| + 1] == rs + [None];
    var b' := b.(queue := [m]);
    assert [] + [m] == [m];
    if HeadReady(b') {
      assert Drained(b') == Drained(HeadDelivered(b')) == HeadDelivered(b');
    }
  }

  /** Holding back was meant to bridge such gaps; it does not: two messages of one sender that arrive
      in the wrong order are both kept, although the second one to arrive is deliverable at once. */
  lemma {:induction false} StallExample(first: Msg, second: Msg)
    requires Fit(first) && Fit(second) && first.sender == second.sender == 0
    requires forall i :: 0 <= i < MAX_GROUP_SIZE ==> first.deps[i] == 0
    requires second.deps == first.deps[0 := 1]
    ensures Replay([Some(first), Some(second)]).queue == []
    ensures Replay([Some(second), Some(first)]) == EMPTY.(queue := [second, first])
    ensures Ready(first.deps, EMPTY.delivered)
  {
    InOrderPrinted(first, second);
    OutOfOrderHeld(first, second);
  }

  lemma {:induction false} InOrderPrinted(first: Msg, second: Msg)
    requires Fit(first) && Fit(second) && first.sender == second.sender == 0
    requires forall i :: 0 <= i < MAX_GROUP_SIZE ==> first.deps[i] == 0
    requires second.deps == first.deps[0 := 1]
    ensures Replay([Some(first), Some(second)]).queue == []
  {
    var good := [Some(first), Some(second)];
    NoCut(good);
    assert Values(good) == [first, second];
    assert [first, second][..0] == [] && [first, second][..1] == [first];
    CountsSnoc([], first);
    assert [] + [first] == [first];
    CompleteIffOnTime(good);
  }

  lemma {:induction false} OutOfOrderHeld(first: Msg, second: Msg)
    requires Fit(first) && Fit(second) && second.deps[0] > 0
    ensures Replay([Some(second), Some(first)]) == EMPTY.(queue := [second, first])
  {
    ReplaySnoc([], Some(second));
    ReplaySnoc([Some(second)], Some(first));
    assert [] + [Some(second)] == [Some(second)] && [Some(second)] + [Some(first)] == [Some(second), Some(first)];
    var b := EMPTY.(queue := [second]);
    assert [] + [second] == [second] && !HeadReady(b);
    StaysHeld(b, [], first);
    assert [second] + [] == [second] && [] + [first] == [first] && [second] + [first] == [second, first];
  }
}
