/** Causal delivery, the meaning of the vectors, FIFO, conservation and exact completeness, for every run
    of module CausalSystem. */
module CausalDelivery {
  import opened Wrappers
  import opened Text
  import opened GroupFrame
  import opened HoldBack
  import opened CausalSystem

  // ----- Runs -----

  lemma {:induction false} RunInv(gs: seq<Group>, es: seq<Event>, k: nat)
    requires Run(gs, es) && k <= |es|
    ensures Inv(gs[k])
  {
    if k == 0 {
      InitialInv(gs[0]);
    } else {
      RunInv(gs, es, k - 1);
      StepKeeps(gs[k - 1], es[k - 1]);
      assert Kept(gs[k - 1], es[k - 1]);
    }
  }

  lemma {:induction false} InitialInv(g: Group)
    requires Initial(g)
    ensures Inv(g)
  {
    forall c | 0 <= c < |g|
      ensures ClientOk(g, c)
    {
      assert EMPTY.delivered == Counts([]);
      assert g[c].arrived == [] && Replay([]) == EMPTY;
    }
  }

  /** No handler indexes DELIVERED or a dependency array outside its bounds. The arrays a message's text is
      copied to are another matter: module GroupFrame. */
  lemma {:induction false} NeverOverruns(gs: seq<Group>, es: seq<Event>, k: nat)
    requires Run(gs, es) && k < |es|
    ensures CanStep(gs[k], es[k]) && Safe(gs[k], es[k]) && gs[k + 1] == After(gs[k], es[k])
  {
    RunInv(gs, es, k);
    StepKeeps(gs[k], es[k]);
    assert Kept(gs[k], es[k]);
  }

  // ----- Happens-before -----

  /** m2's sender had sent m1, or had printed m1, when it sent m2. */
  ghost predicate Direct(g: Group, m1: Msg, m2: Msg) {
    exists c: nat, k: nat :: DirectAt(g, m1, m2, c, k)
  }

  ghost predicate DirectAt(g: Group, m1: Msg, m2: Msg, c: nat, k: nat) {
    && c < |g| && k < |g[c].sent| == |g[c].seen| && g[c].seen[k] <= |g[c].box.log|
    && g[c].sent[k] == m2
    && (m1 in g[c].sent[..k] || m1 in g[c].box.log[..g[c].seen[k]])
  }

  ghost predicate Chain(g: Group, ms: seq<Msg>) {
    forall i, j :: 0 <= i && j == i + 1 && j < |ms| ==> Direct(g, ms[i], ms[j])
  }

  /** The transitive closure. */
  ghost predicate HappensBefore(g: Group, m1: Msg, m2: Msg) {
    exists ms :: |ms| > 1 && Chain(g, ms) && ms[0] == m1 && ms[|ms| - 1] == m2
  }

  ghost predicate WasSent(g: Group, m: Msg) {
    exists c: nat, k: nat :: c < |g| && k < |g[c].sent| && g[c].sent[k] == m
  }

  /** m2's vector covers m1's, and counts m1 itself. */
  ghost predicate Covers(m1: Msg, m2: Msg) {
    && Fit(m1) && Fit(m2)
    && (forall j :: 0 <= j < MAX_GROUP_SIZE ==> m1.deps[j] <= m2.deps[j])
    && m1.deps[m1.sender] < m2.deps[m1.sender]
  }

  lemma {:induction false} SentIsKnown(g: Group, m: Msg)
    requires Inv(g) && WasSent(g, m)
    ensures Known(Sents(g), m)
  {
    var c: nat, k: nat :| c < |g| && k < |g[c].sent| && g[c].sent[k] == m;
    assert ClientOk(g, c) && SentAt(c, g[c], k);
  }

  lemma {:induction false} LogKnown(g: Group, d: nat)
    requires Inv(g) && d < |g|
    ensures LogOk(g[d].box.log) && AllKnown(Sents(g), g[d].box.log)
  {
    assert ClientOk(g, d);
    BoxParts(Sents(g), g[d].box);
  }

  lemma {:induction false} DirectCovers(g: Group, m1: Msg, m2: Msg)
    requires Inv(g) && Direct(g, m1, m2)
    ensures Covers(m1, m2) && WasSent(g, m1) && WasSent(g, m2)
  {
    var c: nat, k: nat :| DirectAt(g, m1, m2, c, k);
    var p := g[c];
    assert ClientOk(g, c) && SentAt(c, p, k);
    if m1 in p.sent[..k] {
      var i :| 0 <= i < k && p.sent[i] == m1;
      EarlierSend(g, c, i, k);
    } else {
      var q :| 0 <= q < p.seen[k] && p.box.log[q] == m1;
      PrintedThenSent(g, c, q, k);
    }
  }

  lemma {:induction false} EarlierSend(g: Group, c: nat, i: nat, k: nat)
    requires Inv(g) && c < |g| && i < k < |g[c].sent|
    ensures Covers(g[c].sent[i], g[c].sent[k])
  {
    var p := g[c];
    assert ClientOk(g, c) && SentAt(c, p, i) && SentAt(c, p, k);
    forall j: nat | j < MAX_GROUP_SIZE
      ensures p.sent[i].deps[j] <= p.sent[k].deps[j]
    {
      CountGrows(p.box.log, p.seen[i], p.seen[k], j);
    }
  }

  lemma {:induction false} PrintedThenSent(g: Group, c: nat, q: nat, k: nat)
    requires Inv(g) && c < |g| && k < |g[c].sent| == |g[c].seen| && q < g[c].seen[k] <= |g[c].box.log|
    ensures Covers(g[c].box.log[q], g[c].sent[k]) && WasSent(g, g[c].box.log[q])
  {
    var p := g[c];
    var log, seen := p.box.log, p.seen[k];
    var m1, m2 := log[q], p.sent[k];
    assert ClientOk(g, c) && SentAt(c, p, k);
    LogKnown(g, c);
    assert Known(Sents(g), m1);
    assert m1 == g[m1.sender].sent[m1.deps[m1.sender]];
    forall j: nat | j < MAX_GROUP_SIZE
      ensures m1.deps[j] <= Count(log[..seen], j) <= m2.deps[j]
      ensures j == m1.sender ==> m1.deps[j] < Count(log[..seen], j)
    {
      PrintedCounts(log, q, seen, j);
    }
  }

  /** What was printed at position q counts for everything from then on. */
  lemma {:induction false} PrintedCounts(log: seq<Msg>, q: nat, seen: nat, j: nat)
    requires LogOk(log) && q < seen <= |log| && j < MAX_GROUP_SIZE
    ensures log[q].deps[j] <= Count(log[..seen], j)
    ensures j == log[q].sender ==> log[q].deps[j] < Count(log[..seen], j)
  {
    assert OnTime(log, q);
    CountGrows(log, q + 1, seen, j);
    assert log[..q + 1] == log[..q] + [log[q]];
    CountSnoc(log[..q], log[q], j);
  }

  lemma {:induction false} ChainCovers(g: Group, ms: seq<Msg>)
    requires Inv(g) && |ms| > 1 && Chain(g, ms)
    ensures Covers(ms[0], ms[|ms| - 1]) && WasSent(g, ms[0]) && WasSent(g, ms[|ms| - 1])
  {
    var n := |ms| - 1;
    DirectCovers(g, ms[n - 1], ms[n]);
    if n > 1 {
      var less := ms[..n];
      ChainCovers(g, less);
    }
  }

  // ----- The theorems -----

  lemma {:induction false} BeforeCovers(g: Group, m1: Msg, m2: Msg)
    requires Inv(g) && HappensBefore(g, m1, m2)
    ensures Covers(m1, m2) && WasSent(g, m1) && WasSent(g, m2)
  {
    var ms :| |ms| > 1 && Chain(g, ms) && ms[0] == m1 && ms[|ms| - 1] == m2;
    ChainCovers(g, ms);
  }

  lemma {:induction false} CountedIsDirect(g: Group, m1: Msg, m2: Msg)
    requires Inv(g) && WasSent(g, m1) && WasSent(g, m2)
    requires Fit(m1) && Fit(m2) && m2.deps[m1.sender] > m1.deps[m1.sender]
    ensures Direct(g, m1, m2)
  {
    SentIsKnown(g, m1);
    SentIsKnown(g, m2);
    var c, k := m2.sender, m2.deps[m2.sender];
    var p := g[c];
    assert ClientOk(g, c) && SentAt(c, p, k);
    if m1.sender == c {
      assert p.sent[..k][m1.deps[c]] == m1;
    } else {
      LogKnown(g, c);
      var log := p.box.log[..p.seen[k]];
      LogPrefix(p.box.log, p.seen[k]);
      assert AllKnown(Sents(g), log) by {
        forall i | 0 <= i < |log| ensures Known(Sents(g), log[i]) {
          assert log[i] == p.box.log[i];
        }
      }
      Printed(Sents(g), log, m1);
    }
    assert DirectAt(g, m1, m2, c, k);
  }

  /** The vectors characterise causality: of any two sent messages, one happens before the other exactly
      when the other's vector has counted it. */
  lemma {:induction false} VectorsExact(gs: seq<Group>, es: seq<Event>, k: nat, m1: Msg, m2: Msg)
    requires Run(gs, es) && k <= |es| && WasSent(gs[k], m1) && WasSent(gs[k], m2)
    ensures Fit(m1) && Fit(m2)
    ensures HappensBefore(gs[k], m1, m2) <==> m2.deps[m1.sender] > m1.deps[m1.sender]
    ensures HappensBefore(gs[k], m1, m2) ==> forall j :: 0 <= j < MAX_GROUP_SIZE ==> m1.deps[j] <= m2.deps[j]
    ensures !HappensBefore(gs[k], m1, m1)
  {
    var g := gs[k];
    RunInv(gs, es, k);
    SentIsKnown(g, m1);
    SentIsKnown(g, m2);
    if HappensBefore(g, m1, m2) {
      BeforeCovers(g, m1, m2);
    }
    if HappensBefore(g, m1, m1) {
      BeforeCovers(g, m1, m1);
    }
    if m2.deps[m1.sender] > m1.deps[m1.sender] {
      CountedIsDirect(g, m1, m2);
      assert Chain(g, [m1, m2]);
    }
  }

  /** Causal delivery: whatever a client prints, it has printed everything that happened before it,
      for any number of clients and sends and whatever the network does. */
  lemma {:induction false} CausalOrder(gs: seq<Group>, es: seq<Event>, k: nat, g: Group, d: nat, m: Msg, q: nat)
    requires Run(gs, es) && k <= |es| && g == gs[k] && d < |g| && q < |g[d].box.log|
    ensures HappensBefore(g, m, g[d].box.log[q]) ==> m in g[d].box.log[..q]
  {
    RunInv(gs, es, k);
    if HappensBefore(g, m, g[d].box.log[q]) {
      CausalAt(g, m, d, q);
    }
  }

  lemma {:induction false} CausalAt(g: Group, m1: Msg, d: nat, q: nat)
    requires Inv(g) && d < |g| && q < |g[d].box.log| && HappensBefore(g, m1, g[d].box.log[q])
    ensures m1 in g[d].box.log[..q]
  {
    var log := g[d].box.log;
    BeforeCovers(g, m1, log[q]);
    SentIsKnown(g, m1);
    LogKnown(g, d);
    LogPrefix(log, q);
    assert OnTime(log, q);
    assert AllKnown(Sents(g), log[..q]) by {
      forall i | 0 <= i < q ensures Known(Sents(g), log[..q][i]) {
        assert log[..q][i] == log[i];
      }
    }
    Printed(Sents(g), log[..q], m1);
  }

  /** FIFO without gaps: the q-th message a client prints carries, of its sender, exactly the number of
      that sender's messages printed before; DELIVERED counts what was printed, and never runs ahead of
      what its sender has sent. */
  lemma {:induction false} FifoWithoutGaps(gs: seq<Group>, es: seq<Event>, k: nat, d: nat)
    requires Run(gs, es) && k <= |es| && d < |gs[k]|
    ensures |gs[k]| <= MAX_GROUP_SIZE && BoxOk(gs[k][d].box) && AllFit(gs[k][d].box.log)
    ensures forall q :: 0 <= q < |gs[k][d].box.log| ==>
              var m := gs[k][d].box.log[q]; m.deps[m.sender] == Count(gs[k][d].box.log[..q], m.sender)
    ensures gs[k][d].box.delivered == Counts(gs[k][d].box.log)
    ensures forall j :: 0 <= j < |gs[k]| ==> gs[k][d].box.delivered[j] <= gs[k][j].sendSeq
  {
    var g := gs[k];
    RunInv(gs, es, k);
    assert ClientOk(g, d);
    LogKnown(g, d);
    forall j: nat | j < |g|
      ensures g[d].box.delivered[j] <= g[j].sendSeq
    {
      assert ClientOk(g, j);
      CountBelowSent(Sents(g), g[d].box.log, j);
    }
  }

  /** Conservation: what was printed and what is held back is everything that arrived, in order of
      arrival, exactly if all of it could be read. */
  lemma {:induction false} Conservation(gs: seq<Group>, es: seq<Event>, k: nat, d: nat)
    requires Run(gs, es) && k <= |es| && d < |gs[k]|
    ensures var p := gs[k][d]; p.box.log + p.box.queue == p.arrived <==> AllRead(p.read)
  {
    RunInv(gs, es, k);
    var p := gs[k][d];
    assert ClientOk(gs[k], d);
    NothingLost(p.read);
    if AllRead(p.read) {
      assert Values(p.read) == p.arrived;
    }
  }

  /** What a client cannot read is what was sent as a blank line. */
  lemma {:induction false} UnreadIsBlank(p: Client, c: nat, text: string, d: Client)
    requires BoxOk(p.box) && c < MAX_GROUP_SIZE && BoxOk(d.box)
    ensures var m := Composed(p, c, text);
            Readable(m.content) && Receives(d, m).read == d.read + [if Blank(text) then None else Some(m)]
  {
    ComposedReadable(p, c, text);
  }

  /** What has been printed or arrived since the client last lost its queue, in terms of messages. */
  lemma {:induction false} RetainedArrivals(p: Client)
    requires ReplayOk(p)
    ensures Retained(p.read) == PrintedByCut(p.read) + p.arrived[LastCut(p.read)..]
  {
    assert Values(p.read[LastCut(p.read)..]) == p.arrived[LastCut(p.read)..];
  }

  /** Exact completeness: a client has printed all it has ever got hold of, unless a blank line cost it its
      queue, if and only if it was handed each message after everything that happened before it. After a
      loss the same holds of what it had printed by then and what has arrived since. */
  lemma {:induction false} CompleteIffCausalArrival(gs: seq<Group>, es: seq<Event>, k: nat, d: nat)
    requires Run(gs, es) && k <= |es| && d < |gs[k]|
    ensures var p := gs[k][d]; |p.read| == |p.arrived| && ReadFit(p.read)
    ensures var p := gs[k][d];
            var c := LastCut(p.read);
            p.box.queue == [] <==>
            forall i, m :: c <= i < |p.arrived| && HappensBefore(gs[k], m, p.arrived[i]) ==>
              m in PrintedByCut(p.read) + p.arrived[c..i]
  {
    var g := gs[k];
    RunInv(gs, es, k);
    assert ClientOk(g, d);
    DrainExact(g[d].read);
    if g[d].box.queue == [] {
      CompleteIsCausal(g, d);
    } else {
      StuckIsLate(g, d);
    }
  }

  ghost predicate InTime(g: Group, d: nat, i: nat, m: Msg)
    requires d < |g| && ReplayOk(g[d]) && LastCut(g[d].read) <= i < |g[d].arrived|
  {
    m in PrintedByCut(g[d].read) + g[d].arrived[LastCut(g[d].read)..i]
  }

  lemma {:induction false} RetainedPrefix(before: seq<Msg>, arrived: seq<Msg>, c: nat, i: nat)
    requires c <= i < |arrived|
    ensures var all, q := before + arrived[c..], |before| + i - c;
            q < |all| && all[q] == arrived[i] && all[..q] == before + arrived[c..i]
  {
  }

  lemma {:induction false} CompleteIsCausal(g: Group, d: nat)
    requires Inv(g) && d < |g| && ReplayOk(g[d]) && Exact(g[d].read) && g[d].box.queue == []
    ensures forall i, m :: LastCut(g[d].read) <= i < |g[d].arrived| && HappensBefore(g, m, g[d].arrived[i]) ==>
              InTime(g, d, i, m)
  {
    var p := g[d];
    var c, before := LastCut(p.read), PrintedByCut(p.read);
    RetainedArrivals(p);
    var all := Retained(p.read);
    assert p.box.log == all by {
      assert all[..|all|] == all;
    }
    forall i, m | c <= i < |p.arrived| && HappensBefore(g, m, p.arrived[i])
      ensures InTime(g, d, i, m)
    {
      var q := |before| + i - c;
      RetainedPrefix(before, p.arrived, c, i);
      CausalAt(g, m, d, q);
    }
  }

  lemma {:induction false} StuckIsLate(g: Group, d: nat)
    requires Inv(g) && d < |g| && ReplayOk(g[d]) && Exact(g[d].read) && g[d].box.queue != []
    ensures exists i, m :: LastCut(g[d].read) <= i < |g[d].arrived| && HappensBefore(g, m, g[d].arrived[i]) &&
              !InTime(g, d, i, m)
  {
    var p := g[d];
    var c, before := LastCut(p.read), PrintedByCut(p.read);
    RetainedArrivals(p);
    var all := Retained(p.read);
    var v := FirstLate(all, |before|);
    var i := c + v - |before|;
    RetainedPrefix(before, p.arrived, c, i);
    assert ClientOk(g, d) && Known(Sents(g), p.arrived[i]);
    var m := LateHasMissing(g, d, p.arrived[i]);
    assert !InTime(g, d, i, m);
  }

  /** A message that is not ready lacks some message that happened before it and was not printed. */
  lemma {:induction false} LateHasMissing(g: Group, d: nat, late: Msg) returns (m: Msg)
    requires Inv(g) && d < |g| && Known(Sents(g), late) && !Ready(late.deps, Counts(g[d].box.log))
    ensures HappensBefore(g, m, late) && m !in g[d].box.log
  {
    var log := g[d].box.log;
    LogKnown(g, d);
    var j: nat :| j < MAX_GROUP_SIZE && late.deps[j] > Count(log, j);
    m := FirstMissing(g, log, late, j);
    CountedIsDirect(g, m, late);
    assert Chain(g, [m, late]);
    NotPrintedYet(log, m);
  }

  lemma {:induction false} FirstMissing(g: Group, log: seq<Msg>, late: Msg, j: nat) returns (m: Msg)
    requires Inv(g) && Known(Sents(g), late) && j < MAX_GROUP_SIZE && late.deps[j] > Count(log, j)
    ensures WasSent(g, m) && WasSent(g, late) && Fit(m)
    ensures m.sender == j && m.deps[j] == Count(log, j)
  {
    var c, k := late.sender, late.deps[late.sender];
    assert g[c].sent[k] == late;
    LateBelowSent(g, c, k, j);
    m := g[j].sent[Count(log, j)];
    assert ClientOk(g, j) && SentAt(j, g[j], Count(log, j));
  }

  lemma {:induction false} NotPrintedYet(log: seq<Msg>, m: Msg)
    requires LogOk(log) && Fit(m) && m.deps[m.sender] == Count(log, m.sender)
    ensures m !in log
  {
    forall q | 0 <= q < |log|
      ensures log[q] != m
    {
      PrintedCounts(log, q, |log|, log[q].sender);
      assert log[..|log|] == log;
    }
  }

  lemma {:induction false} LateBelowSent(g: Group, c: nat, k: nat, j: nat)
    requires Inv(g) && c < |g| && k < |g[c].sent| && j < MAX_GROUP_SIZE
    requires Fit(g[c].sent[k]) && g[c].sent[k].deps[j] > 0
    ensures j < |g| && g[c].sent[k].deps[j] <= |g[j].sent|
  {
    var p := g[c];
    assert ClientOk(g, c) && SentAt(c, p, k);
    if j != c {
      LogKnown(g, c);
      var log := p.box.log[..p.seen[k]];
      LogPrefix(p.box.log, p.seen[k]);
      assert AllKnown(Sents(g), log) by {
        forall i | 0 <= i < |log| ensures Known(Sents(g), log[i]) {
          assert log[i] == p.box.log[i];
        }
      }
      CountBelowSent(Sents(g), log, j);
    }
  }

  lemma {:induction false} ArrivedGrows(gs: seq<Group>, es: seq<Event>, k: nat, l: nat, d: nat)
    requires Run(gs, es) && k <= l <= |es| && d < |gs[k]|
    ensures |gs[l]| == |gs[k]| && gs[k][d].arrived <= gs[l][d].arrived && gs[k][d].read <= gs[l][d].read
  {
    if k < l {
      ArrivedGrows(gs, es, k, l - 1, d);
      NextArrives(gs, es, l - 1, d);
    }
  }

  lemma {:induction false} NextArrives(gs: seq<Group>, es: seq<Event>, k: nat, d: nat)
    requires Run(gs, es) && k < |es| && d < |gs[k]|
    ensures |gs[k + 1]| == |gs[k]| && gs[k][d].arrived <= gs[k + 1][d].arrived && gs[k][d].read <= gs[k + 1][d].read
  {
    NeverOverruns(gs, es, k);
    StepArrives(gs[k], es[k], d);
  }

  lemma {:induction false} StepArrives(g: Group, e: Event, d: nat)
    requires CanStep(g, e) && Safe(g, e) && d < |g|
    ensures |After(g, e)| == |g| && g[d].arrived <= After(g, e)[d].arrived && g[d].read <= After(g, e)[d].read
  {
  }

  /** A client that holds something back stays as it is while whatever arrives can be read: it prints
      nothing, DELIVERED does not change, and what arrives is added to the queue. */
  lemma {:induction false} StalledRun(gs: seq<Group>, es: seq<Event>, k: nat, l: nat, d: nat)
    requires Run(gs, es) && k <= l <= |es| && d < |gs[k]| && gs[k][d].box.queue != []
    requires |gs[l]| == |gs[k]| && forall i :: |gs[k][d].read| <= i < |gs[l][d].read| ==> gs[l][d].read[i].Some?
    ensures gs[k][d].arrived <= gs[l][d].arrived
    ensures var b, more := gs[k][d].box, gs[l][d].arrived[|gs[k][d].arrived|..];
            gs[l][d].box == b.(queue := b.queue + more)
  {
    ArrivedGrows(gs, es, k, l, d);
    RunInv(gs, es, k);
    RunInv(gs, es, l);
    assert ClientOk(gs[k], d) && ClientOk(gs[l], d);
    StalledBetween(gs[k][d], gs[l][d]);
  }

  lemma {:induction false} StalledBetween(p: Client, p': Client)
    requires ReplayOk(p) && ReplayOk(p') && p.arrived <= p'.arrived && p.read <= p'.read && p.box.queue != []
    requires forall i :: |p.read| <= i < |p'.read| ==> p'.read[i].Some?
    ensures p'.box == p.box.(queue := p.box.queue + p'.arrived[|p.arrived|..])
  {
    var more := p'.read[|p.read|..];
    assert p.read + more == p'.read;
    StalledForever(p.read, more);
    assert Values(more) == p'.arrived[|p.arrived|..];
  }
}
