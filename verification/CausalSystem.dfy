/** A group of chat clients over an unordered, lossy, duplicate-free multicast network. Every client is
    the box of module HoldBack; a send reaches the sender itself as well (multicast loopback). */
module CausalSystem {
  import opened Wrappers
  import opened Text
  import opened GroupFrame
  import opened HoldBack

  /** `sendSeq` and `box` are the variables of chat-c/client/client_s.c. The rest is history: what the
      client has sent, how much it had printed at each send, what has reached it and what it has made of
      that; and what the network may still deliver to it. */
  datatype Client = Client(id: nat, sendSeq: nat, box: Box,
                           sent: seq<Msg>, seen: seq<nat>,
                           arrived: seq<Msg>, read: seq<Option<Msg>>, pending: set<Msg>)

  type Group = seq<Client>

  datatype Event = Send(c: nat, text: string) | Receive(d: nat, m: Msg)

  /** The message a client makes of a line: DELIVERED with its own slot overwritten by SEND_SEQ. */
  function Composed(p: Client, index: nat, text: string): Msg
    requires BoxOk(p.box) && index < MAX_GROUP_SIZE
  {
    var deps := p.box.delivered[index := p.sendSeq];
    Msg(p.id, index, deps, Clean(0, p.id, index, deps, text))
  }

  function Sends(p: Client, m: Msg): Client {
    p.(sendSeq := p.sendSeq + 1, sent := p.sent + [m], seen := p.seen + [|p.box.log|], pending := p.pending + {m})
  }

  function Receives(p: Client, m: Msg): Client
    requires BoxOk(p.box) && Readable(m.content)
  {
    p.(box := Received(p.box, m.content),
       arrived := p.arrived + [m], read := p.read + [Read(m.content)], pending := p.pending - {m})
  }

  ghost predicate CanStep(g: Group, e: Event) {
    match e
    case Send(c, text) => c < |g| && '\n' !in text
    case Receive(d, m) => d < |g| && m in g[d].pending
  }

  /** The handler stays within DELIVERED and the dependency arrays. */
  ghost predicate Safe(g: Group, e: Event)
    requires CanStep(g, e)
  {
    match e
    case Send(c, _) => c < MAX_GROUP_SIZE && BoxOk(g[c].box)
    case Receive(d, m) => BoxOk(g[d].box) && Readable(m.content)
  }

  ghost function After(g: Group, e: Event): Group
    requires CanStep(g, e) && Safe(g, e)
  {
    match e
    case Send(c, text) =>
      var m := Composed(g[c], c, text);
      seq(|g|, i requires 0 <= i < |g| =>
        if i == c then Sends(g[i], m) else g[i].(pending := g[i].pending + {m}))
    case Receive(d, m) => g[d := Receives(g[d], m)]
  }

  /** At most MAX_GROUP_SIZE clients; their indices are their positions. */
  ghost predicate Initial(g: Group) {
    && 0 < |g| <= MAX_GROUP_SIZE
    && forall c :: 0 <= c < |g| ==> g[c] == Client(g[c].id, 0, EMPTY, [], [], [], [], {})
  }

  ghost predicate Run(gs: seq<Group>, es: seq<Event>) {
    && |gs| == |es| + 1
    && Initial(gs[0])
    && forall k :: 0 <= k < |es| ==>
        CanStep(gs[k], es[k]) && (Safe(gs[k], es[k]) ==> gs[k + 1] == After(gs[k], es[k]))
  }

  // ----- The invariant -----

  /** m is the message its sender sent under the sequence number m carries. */
  ghost predicate Known(sents: seq<seq<Msg>>, m: Msg) {
    && Fit(m) && m.sender < |sents|
    && 0 <= m.deps[m.sender] < |sents[m.sender]|
    && sents[m.sender][m.deps[m.sender]] == m
  }

  ghost function Sents(g: Group): (sents: seq<seq<Msg>>)
    ensures |sents| == |g| && forall c :: 0 <= c < |g| ==> sents[c] == g[c].sent
  {
    seq(|g|, c requires 0 <= c < |g| => g[c].sent)
  }

  ghost predicate AllKnown(sents: seq<seq<Msg>>, ms: seq<Msg>) {
    forall i :: 0 <= i < |ms| ==> Known(sents, ms[i])
  }

  /** What was printed was on time, and the next of its sender. */
  ghost predicate LogOk(log: seq<Msg>) {
    && AllFit(log)
    && forall q :: 0 <= q < |log| ==>
        && OnTime(log, q)
        && log[q].deps[log[q].sender] == Count(log[..q], log[q].sender)
  }

  ghost predicate Distinct(ms: seq<Msg>) {
    forall i, j :: 0 <= i < j < |ms| ==> ms[i] != ms[j]
  }

  ghost predicate Plain(m: Msg) {
    Readable(m.content) && Read(m.content) == Some(m)
  }

  ghost predicate AllPlain(ms: seq<Msg>) {
    forall i :: 0 <= i < |ms| ==> Plain(ms[i])
  }

  ghost predicate BoxInv(sents: seq<seq<Msg>>, b: Box) {
    && BoxOk(b)
    && LogOk(b.log)
    && b.delivered == Counts(b.log)
    && AllKnown(sents, b.log + b.queue)
    && Distinct(b.log + b.queue)
    && AllPlain(b.log + b.queue)
  }

  /** A sent message carries its own number, and for every other sender what had been printed. */
  ghost predicate SentAt(c: nat, p: Client, k: nat)
    requires k < |p.sent| == |p.seen|
  {
    var m := p.sent[k];
    && Fit(m) && m.sender == c && m.deps[c] == k
    && p.seen[k] <= |p.box.log|
    && (forall j: nat :: j < MAX_GROUP_SIZE && j != c ==> m.deps[j] == Count(p.box.log[..p.seen[k]], j))
    && Count(p.box.log[..p.seen[k]], c) <= k
    && Readable(m.content)
    && (Read(m.content).Some? ==> Read(m.content) == Some(m))
  }

  ghost predicate SentOk(c: nat, p: Client) {
    && p.sendSeq == |p.sent| == |p.seen|
    && (forall k :: 0 <= k < |p.sent| ==> SentAt(c, p, k))
    && (forall k, l :: 0 <= k < l < |p.seen| ==> p.seen[k] <= p.seen[l])
  }

  /** Nothing reaches a client twice. */
  ghost predicate NetOk(sents: seq<seq<Msg>>, p: Client) {
    && AllKnown(sents, p.arrived)
    && (forall m :: m in p.pending ==> Known(sents, m) && m !in p.arrived)
    && (forall m :: m in p.box.log + p.box.queue ==> m in p.arrived)
  }

  /** What arrived was read as it was sent or not at all, and accounts for the whole box. */
  ghost predicate ReplayOk(p: Client) {
    && |p.read| == |p.arrived|
    && (forall i :: 0 <= i < |p.read| && p.read[i].Some? ==> p.read[i].value == p.arrived[i])
    && ReadFit(p.read)
    && p.box == Replay(p.read)
  }

  ghost predicate ClientInv(sents: seq<seq<Msg>>, c: nat, p: Client) {
    BoxInv(sents, p.box) && SentOk(c, p) && NetOk(sents, p) && ReplayOk(p)
  }

  ghost predicate ClientOk(g: Group, c: nat)
    requires c < |g|
  {
    ClientInv(Sents(g), c, g[c])
  }

  ghost predicate Inv(g: Group) {
    0 < |g| <= MAX_GROUP_SIZE && forall c :: 0 <= c < |g| ==> ClientOk(g, c)
  }

  ghost predicate Kept(g: Group, e: Event) {
    CanStep(g, e) && Safe(g, e) && Inv(After(g, e))
  }

  // ----- Sequence numbers in a log -----

  /** A log without gaps contains, of each sender, every number below its count. */
  lemma {:induction false} NumberFound(log: seq<Msg>, j: nat, k: nat) returns (q: nat)
    requires LogOk(log) && k < Count(log, j)
    ensures q < |log| && log[q].sender == j && j < MAX_GROUP_SIZE && log[q].deps[j] == k
  {
    var rest := log[..|log| - 1];
    LogPrefix(log, |log| - 1);
    if k < Count(rest, j) {
      q := NumberFound(rest, j, k);
    } else {
      q := |log| - 1;
    }
  }

  lemma {:induction false} LogPrefix(log: seq<Msg>, q: nat)
    requires LogOk(log) && q <= |log|
    ensures LogOk(log[..q])
  {
    forall i | 0 <= i < q
      ensures OnTime(log[..q], i) && log[..q][..i] == log[..i]
    {
      assert log[..q][..i] == log[..i];
      assert OnTime(log, i);
    }
  }

  lemma {:induction false} CountGrows(log: seq<Msg>, q: nat, r: nat, j: nat)
    requires q <= r <= |log|
    ensures Count(log[..q], j) <= Count(log[..r], j)
  {
    if q < r {
      CountGrows(log, q, r - 1, j);
      assert log[..r][..r - 1] == log[..r - 1];
    }
  }

  // ----- A delivery -----

  /** A known message whose number is below the count of its sender has been printed. */
  lemma {:induction false} Printed(sents: seq<seq<Msg>>, log: seq<Msg>, m: Msg)
    requires LogOk(log) && AllKnown(sents, log) && Known(sents, m)
    requires m.deps[m.sender] < Count(log, m.sender)
    ensures m in log
  {
    var q := NumberFound(log, m.sender, m.deps[m.sender]);
    assert Known(sents, log[q]);
  }

  /** Nobody prints more of a sender than that sender has sent. */
  lemma {:induction false} CountBelowSent(sents: seq<seq<Msg>>, log: seq<Msg>, j: nat)
    requires LogOk(log) && AllKnown(sents, log)
    ensures Count(log, j) <= if j < |sents| then |sents[j]| else 0
  {
    if Count(log, j) > 0 {
      var q := NumberFound(log, j, Count(log, j) - 1);
      assert Known(sents, log[q]);
    }
  }

  lemma {:induction false} BoxParts(sents: seq<seq<Msg>>, b: Box)
    requires AllKnown(sents, b.log + b.queue)
    ensures AllKnown(sents, b.log) && AllKnown(sents, b.queue)
  {
    var all := b.log + b.queue;
    assert forall i :: 0 <= i < |b.log| ==> b.log[i] == all[i];
    assert forall i :: 0 <= i < |b.queue| ==> b.queue[i] == all[|b.log| + i];
  }

  /** The head that passes the pointwise test is exactly the next message of its sender. */
  lemma {:induction false} Gapless(sents: seq<seq<Msg>>, b: Box)
    requires BoxInv(sents, b) && HeadReady(b)
    ensures b.queue[0].deps[b.queue[0].sender] == b.delivered[b.queue[0].sender]
  {
    var m, all := b.queue[0], b.log + b.queue;
    BoxParts(sents, b);
    assert all[|b.log|] == m;
    assert m !in b.log by {
      assert forall q :: 0 <= q < |b.log| ==> all[q] == b.log[q];
    }
    if m.deps[m.sender] < Count(b.log, m.sender) {
      Printed(sents, b.log, m);
    }
  }

  lemma {:induction false} LogSnoc(log: seq<Msg>, m: Msg)
    requires LogOk(log) && Fit(m) && Ready(m.deps, Counts(log)) && m.deps[m.sender] == Count(log, m.sender)
    ensures LogOk(log + [m])
  {
    var log' := log + [m];
    forall q | 0 <= q < |log'|
      ensures OnTime(log', q) && log'[q].deps[log'[q].sender] == Count(log'[..q], log'[q].sender)
    {
      assert log'[..q] == log[..q];
      assert log[..|log|] == log;
      if q < |log| {
        assert OnTime(log, q);
      }
    }
  }

  lemma {:induction false} HeadMoves(b: Box)
    requires BoxOk(b) && b.queue != []
    ensures HeadDelivered(b).log + HeadDelivered(b).queue == b.log + b.queue
  {
  }

  lemma {:induction false} HeadLog(sents: seq<seq<Msg>>, b: Box)
    requires BoxInv(sents, b) && HeadReady(b)
    ensures LogOk(HeadDelivered(b).log) && HeadDelivered(b).delivered == Counts(HeadDelivered(b).log)
  {
    Gapless(sents, b);
    LogSnoc(b.log, b.queue[0]);
    CountsSnoc(b.log, b.queue[0]);
  }

  lemma {:induction false} HeadKeeps(sents: seq<seq<Msg>>, b: Box)
    requires BoxInv(sents, b) && HeadReady(b)
    ensures BoxInv(sents, HeadDelivered(b))
  {
    HeadMoves(b);
    HeadLog(sents, b);
  }

  lemma {:induction false} DrainKeeps(sents: seq<seq<Msg>>, b: Box)
    requires BoxInv(sents, b)
    ensures BoxInv(sents, Drained(b))
    ensures Drained(b).log + Drained(b).queue == b.log + b.queue
    ensures b.log <= Drained(b).log
    decreases |b.queue|
  {
    if HeadReady(b) {
      HeadKeeps(sents, b);
      HeadMoves(b);
      DrainKeeps(sents, HeadDelivered(b));
    }
  }

  // ----- Receiving keeps the invariant -----

  lemma {:induction false} Enqueued(sents: seq<seq<Msg>>, p: Client, m: Msg)
    requires BoxInv(sents, p.box) && NetOk(sents, p) && Known(sents, m) && m !in p.arrived && Plain(m)
    ensures BoxInv(sents, p.box.(queue := p.box.queue + [m]))
    ensures p.box.log + (p.box.queue + [m]) == (p.box.log + p.box.queue) + [m]
  {
    var all := p.box.log + p.box.queue;
    assert p.box.log + (p.box.queue + [m]) == all + [m];
    assert m !in all;
  }

  lemma {:induction false} QueueLost(sents: seq<seq<Msg>>, b: Box)
    requires BoxInv(sents, b)
    ensures BoxInv(sents, b.(queue := []))
    ensures forall m :: m in b.log + [] ==> m in b.log + b.queue
  {
    BoxParts(sents, b);
    var all := b.log + b.queue;
    assert b.log + [] == b.log == all[..|b.log|];
  }

  lemma {:induction false} ReceivedBox(sents: seq<seq<Msg>>, p: Client, m: Msg)
    requires BoxInv(sents, p.box) && NetOk(sents, p) && Known(sents, m) && m !in p.arrived
    requires Readable(m.content) && (Read(m.content).Some? ==> Read(m.content) == Some(m))
    ensures var b := Received(p.box, m.content);
            && BoxInv(sents, b) && p.box.log <= b.log
            && forall x :: x in b.log + b.queue ==> x in p.arrived + [m]
  {
    if Read(m.content).None? {
      QueueLost(sents, p.box);
    } else {
      Enqueued(sents, p, m);
      DrainKeeps(sents, p.box.(queue := p.box.queue + [m]));
    }
  }

  lemma {:induction false} SentStays(c: nat, p: Client, p': Client)
    requires SentOk(c, p) && p'.sendSeq == p.sendSeq && p'.sent == p.sent && p'.seen == p.seen
    requires p.box.log <= p'.box.log
    ensures SentOk(c, p')
  {
    forall k | 0 <= k < |p'.sent|
      ensures SentAt(c, p', k)
    {
      assert SentAt(c, p, k);
      assert p'.box.log[..p.seen[k]] == p.box.log[..p.seen[k]];
    }
  }

  lemma {:induction false} ReplayHanded(p: Client, m: Msg, r: Option<Msg>)
    requires BoxOk(p.box) && ReplayOk(p) && Fit(m) && (r.Some? ==> r == Some(m))
    ensures ReplayOk(p.(box := Handed(p.box, r), arrived := p.arrived + [m], read := p.read + [r]))
  {
    ReplaySnoc(p.read, r);
  }

  lemma {:induction false} ReplayStays(p: Client, m: Msg)
    requires BoxOk(p.box) && ReplayOk(p) && Fit(m) && Readable(m.content)
    requires Read(m.content).Some? ==> Read(m.content) == Some(m)
    ensures ReplayOk(Receives(p, m))
  {
    ReplayHanded(p, m, Read(m.content));
  }

  lemma {:induction false} ReceiverKeeps(sents: seq<seq<Msg>>, d: nat, p: Client, m: Msg)
    requires ClientInv(sents, d, p) && m in p.pending
    requires Readable(m.content) && (Read(m.content).Some? ==> Read(m.content) == Some(m))
    ensures ClientInv(sents, d, Receives(p, m))
  {
    ReceivedBox(sents, p, m);
    SentStays(d, p, Receives(p, m));
    ReplayStays(p, m);
  }

  lemma {:induction false} ReceiveKeeps(g: Group, d: nat, m: Msg)
    requires Inv(g) && CanStep(g, Receive(d, m))
    ensures Kept(g, Receive(d, m))
  {
    assert ClientOk(g, d);
    var s := m.sender;
    assert ClientOk(g, s) && SentAt(s, g[s], m.deps[s]);
    ReceiverKeeps(Sents(g), d, g[d], m);
    var g' := g[d := Receives(g[d], m)];
    assert Sents(g') == Sents(g);
    forall c | 0 <= c < |g'|
      ensures ClientOk(g', c)
    {
      assert ClientOk(g, c);
    }
  }

  // ----- Sending keeps the invariant -----

  /** A client stamps a line with its own ID, index and number, and for every other index with what it has
      delivered. */
  lemma {:induction false} ComposedExact(p: Client, c: nat, text: string, j: nat)
    requires BoxOk(p.box) && c < MAX_GROUP_SIZE && j < MAX_GROUP_SIZE
    ensures var m := Composed(p, c, text);
            && m.id == p.id && m.sender == c && |m.deps| == MAX_GROUP_SIZE
            && m.deps[j] == if j == c then p.sendSeq else p.box.delivered[j]
  {
  }

  /** The network is offered the message for every client, the sender included; a receiver gets it once. */
  lemma {:induction false} Offered(g: Group, c: nat, text: string, d: nat)
    requires CanStep(g, Send(c, text)) && Safe(g, Send(c, text)) && d < |g|
    ensures var m, p := Composed(g[c], c, text), After(g, Send(c, text))[d];
            && p.pending == g[d].pending + {m} && p.box == g[d].box && p.arrived == g[d].arrived
            && p.sendSeq == g[d].sendSeq + (if d == c then 1 else 0)
            && p.sent == g[d].sent + (if d == c then [m] else [])
  {
  }

  /** Every line makes a message that receivers either read back whole or, if blank, cannot read. */
  lemma {:induction false} ComposedReadable(p: Client, c: nat, text: string)
    requires BoxOk(p.box) && c < MAX_GROUP_SIZE
    ensures var m := Composed(p, c, text);
            && Fit(m) && Readable(m.content)
            && Read(m.content) == if Blank(text) then None else Some(m)
  {
    var deps := p.box.delivered[c := p.sendSeq];
    FrameRoundTrip(0, p.id, c, deps, text);
    DepsRoundTrip(deps);
  }

  /** What a receiver cuts out of the datagram is that message, whatever the padding, and also where
      the line was too long for fgets to take its newline along. */
  lemma {:induction false} DatagramCarries(p: Client, c: nat, text: string, padding: string)
    requires BoxOk(p.box) && c < MAX_GROUP_SIZE && '\n' !in text
    ensures var deps, clean := p.box.delivered[c := p.sendSeq], Composed(p, c, text).content;
            && Clear(Frame(0, p.id, c, deps, text + "\n", padding)) == Some(clean)
            && Clear(Frame(0, p.id, c, deps, text, padding)) == Some(clean)
  {
    FrameCut(0, p.id, c, p.box.delivered[c := p.sendSeq], text, padding);
  }

  lemma {:induction false} KnownGrows(sents: seq<seq<Msg>>, c: nat, m: Msg, x: Msg)
    requires c < |sents| && Known(sents, x)
    ensures Known(sents[c := sents[c] + [m]], x)
  {
  }

  lemma {:induction false} AllKnownGrows(sents: seq<seq<Msg>>, c: nat, m: Msg, xs: seq<Msg>)
    requires c < |sents| && AllKnown(sents, xs)
    ensures AllKnown(sents[c := sents[c] + [m]], xs)
  {
    forall i | 0 <= i < |xs|
      ensures Known(sents[c := sents[c] + [m]], xs[i])
    {
      KnownGrows(sents, c, m, xs[i]);
    }
  }

  /** A client that is offered a new message. */
  lemma {:induction false} OfferKeeps(sents: seq<seq<Msg>>, c: nat, m: Msg, p: Client)
    requires BoxInv(sents, p.box) && NetOk(sents, p) && c < |sents|
    requires Fit(m) && m.sender == c && m.deps[c] == |sents[c]|
    ensures var sents' := sents[c := sents[c] + [m]];
            BoxInv(sents', p.box) && NetOk(sents', p.(pending := p.pending + {m}))
  {
    var sents' := sents[c := sents[c] + [m]];
    AllKnownGrows(sents, c, m, p.box.log + p.box.queue);
    AllKnownGrows(sents, c, m, p.arrived);
    forall x | x in p.pending
      ensures Known(sents', x)
    {
      KnownGrows(sents, c, m, x);
    }
    assert Known(sents', m);
    assert m !in p.arrived by {
      forall i | 0 <= i < |p.arrived|
        ensures p.arrived[i] != m
      {
        assert Known(sents, p.arrived[i]);
      }
    }
  }

  lemma {:induction false} NewestSent(c: nat, p: Client, text: string)
    requires SentOk(c, p) && BoxOk(p.box) && c < MAX_GROUP_SIZE && p.box.delivered == Counts(p.box.log)
    requires Count(p.box.log, c) <= |p.sent|
    ensures SentAt(c, Sends(p, Composed(p, c, text)), |p.sent|)
  {
    ComposedReadable(p, c, text);
    assert p.box.log[..|p.box.log|] == p.box.log;
  }

  lemma {:induction false} OlderSent(c: nat, p: Client, p': Client, k: nat)
    requires k < |p.sent| == |p.seen| && SentAt(c, p, k)
    requires p'.box == p.box && |p'.sent| == |p'.seen| > k && p'.sent[k] == p.sent[k] && p'.seen[k] == p.seen[k]
    ensures SentAt(c, p', k)
  {
  }

  lemma {:induction false} SenderSent(c: nat, p: Client, text: string)
    requires SentOk(c, p) && BoxOk(p.box) && c < MAX_GROUP_SIZE && p.box.delivered == Counts(p.box.log)
    requires Count(p.box.log, c) <= |p.sent|
    ensures SentOk(c, Sends(p, Composed(p, c, text)))
  {
    var p' := Sends(p, Composed(p, c, text));
    NewestSent(c, p, text);
    forall k | 0 <= k < |p.sent|
      ensures SentAt(c, p', k) && p.seen[k] <= |p.box.log|
    {
      assert SentAt(c, p, k);
      OlderSent(c, p, p', k);
    }
  }

  lemma {:induction false} SendKeepsEach(g: Group, c: nat, text: string, i: nat)
    requires Inv(g) && CanStep(g, Send(c, text)) && Safe(g, Send(c, text)) && i < |g|
    requires Count(g[c].box.log, c) <= |g[c].sent|
    requires var m := Composed(g[c], c, text); Fit(m) && m.sender == c && m.deps[c] == |Sents(g)[c]|
    ensures var m := Composed(g[c], c, text);
            ClientInv(Sents(g)[c := Sents(g)[c] + [m]], i, After(g, Send(c, text))[i])
  {
    var g' := After(g, Send(c, text));
    assert ClientOk(g, i) && ClientOk(g, c);
    OfferKeeps(Sents(g), c, Composed(g[c], c, text), g[i]);
    if i == c {
      SenderSent(c, g[c], text);
    } else {
      SentStays(i, g[i], g'[i]);
    }
  }

  lemma {:induction false} SendKeeps(g: Group, c: nat, text: string)
    requires Inv(g) && CanStep(g, Send(c, text))
    ensures Kept(g, Send(c, text))
  {
    assert ClientOk(g, c);
    var m, sents, g' := Composed(g[c], c, text), Sents(g), After(g, Send(c, text));
    BoxParts(sents, g[c].box);
    CountBelowSent(sents, g[c].box.log, c);
    assert Sents(g') == sents[c := sents[c] + [m]];
    forall i | 0 <= i < |g'|
      ensures ClientOk(g', i)
    {
      SendKeepsEach(g, c, text, i);
    }
  }

  lemma {:induction false} StepKeeps(g: Group, e: Event)
    requires Inv(g) && CanStep(g, e)
    ensures Kept(g, e)
  {
    match e
    case Send(c, text) => SendKeeps(g, c, text);
    case Receive(d, m) => ReceiveKeeps(g, d, m);
  }
}
