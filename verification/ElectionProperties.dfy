/** What every run of the ring election guarantees: safety, progress, message bounds, termination. */
module ElectionProperties {
  import opened ServerStruct
  import opened Election
  import opened ElectionRing

  // ----- Runs -----

  lemma {:induction false} MaxExists(ids: seq<int>) returns (mx: nat)
    requires |ids| > 0
    ensures IsMax(ids, mx)
  {
    mx := 0;
    for k := 1 to |ids|
      invariant mx < k && forall q :: 0 <= q < k ==> ids[q] <= ids[mx]
    {
      if ids[k] > ids[mx] {
        mx := k;
      }
    }
  }

  lemma {:induction false} InitialInv(ids: seq<int>, mx: nat, s: Ring)
    requires Ids(ids) && IsMax(ids, mx) && Initial(ids, s)
    ensures Inv(ids, mx, s) && FlagsDown(ids, mx, s)
  {
  }

  lemma {:induction false} RunInv(ids: seq<int>, mx: nat, ss: seq<Ring>, es: seq<Event>, k: nat)
    requires Ids(ids) && IsMax(ids, mx) && Run(ids, ss, es) && k <= |es|
    ensures Inv(ids, mx, ss[k]) && FlagsDown(ids, mx, ss[k])
  {
    if k == 0 {
      InitialInv(ids, mx, ss[0]);
    } else {
      RunInv(ids, mx, ss, es, k - 1);
      StepKeeps(ids, mx, ss[k - 1], es[k - 1]);
      assert Kept(ids, mx, ss[k - 1], es[k - 1]);
      FlagsStayDown(ids, mx, ss[k - 1], es[k - 1]);
    }
  }

  /** No handler follows a null pointer or misreads a return code, whatever the schedule. */
  lemma {:induction false} NeverTrips(ids: seq<int>, ss: seq<Ring>, es: seq<Event>, k: nat)
    requires Ids(ids) && Run(ids, ss, es) && k < |es|
    ensures CanStep(|ids|, ss[k], es[k]) && Safe(|ids|, ss[k], es[k])
    ensures ss[k + 1] == After(|ids|, ss[k], es[k])
  {
    var mx := MaxExists(ids);
    RunInv(ids, mx, ss, es, k);
    StepKeeps(ids, mx, ss[k], es[k]);
    assert Kept(ids, mx, ss[k], es[k]);
  }

  // ----- Safety -----

  /** Every process from p's successor up to i's end of link i has a smaller ID than p. */
  ghost predicate Beaten(ids: seq<int>, p: nat, i: nat)
    requires p < |ids| && i < |ids|
  {
    forall q :: 0 <= q < |ids| && q != p && Dist(|ids|, p, q) <= Dist(|ids|, p, i) ==> ids[q] < ids[p]
  }

  /** At most one process leads, and it has the largest ID; so does every LEADER in flight; and a VOTE
      in flight belongs to a process whose ID beats all those the VOTE has passed. */
  lemma {:induction false} ElectionSafety(ids: seq<int>, ss: seq<Ring>, es: seq<Event>, k: nat)
    requires Ids(ids) && Run(ids, ss, es) && k <= |es|
    ensures Sized(|ids|, ss[k])
    ensures forall q :: 0 <= q < |ids| ==> |ss[k].nodes[q].list| > 0
    ensures forall q :: 0 <= q < |ids| && ss[k].nodes[q].list[0].leader ==> IsMax(ids, q)
    ensures forall q, r | 0 <= q < |ids| && 0 <= r < |ids| ::
              ss[k].nodes[q].list[0].leader && ss[k].nodes[r].list[0].leader ==> q == r
    ensures forall i, m: Message :: 0 <= i < |ids| && m in ss[k].links[i] && m.Leader? ==>
              exists q :: 0 <= q < |ids| && IsMax(ids, q) && m.id == ids[q]
    ensures forall i, m: Message :: 0 <= i < |ids| && m in ss[k].links[i] && m.Vote? ==>
              exists p :: 0 <= p < |ids| && ids[p] == m.id && Beaten(ids, p, i)
  {
    var mx := MaxExists(ids);
    RunInv(ids, mx, ss, es, k);
    var s := ss[k];
    forall i, m: Message | 0 <= i < |ids| && m in s.links[i]
      ensures m.Leader? ==> IsMax(ids, mx) && m.id == ids[mx]
      ensures m.Vote? ==> exists p :: 0 <= p < |ids| && ids[p] == m.id && Beaten(ids, p, i)
    {
      if m.Leader? {
        LeaderCarriesMax(ids, mx, s, i, m);
      } else {
        assert VoteAt(ids, s.votes, i, m.id);
        var p :| 0 <= p < |ids| && ids[p] == m.id && Dist(|ids|, p, i) + 1 == Count(s.votes, m.id);
        assert Passed(ids, p, Count(s.votes, ids[p]));
        assert Beaten(ids, p, i);
      }
    }
  }

  lemma {:induction false} LeaderCarriesMax(ids: seq<int>, mx: nat, s: Ring, i: nat, m: Message)
    requires Core(ids, mx, s) && i < |ids| && m in s.links[i] && m.Leader?
    ensures m.id == ids[mx]
  {
    var link := s.links[i];
    assert LinkOk(link, Dist(|ids|, mx, i) + 1 - |s.leaders|, |s.leaders| == |ids|, ids[mx]);
    assert link == link[..|link| - 1] + [link[|link| - 1]];
  }

  // ----- Progress -----

  ghost predicate Quiet(s: Ring) {
    forall i :: 0 <= i < |s.links| ==> s.links[i] == []
  }

  /** Exactly one leader, with the largest ID; every process, the leader included, is alone in its
      list and no longer a participant; every other process has handled one LEADER, carrying that ID. */
  ghost predicate Elected(ids: seq<int>, mx: nat, s: Ring) {
    && IsMax(ids, mx) && Sized(|ids|, s)
    && forall q :: 0 <= q < |ids| ==>
        && |s.nodes[q].list| == 1
        && s.nodes[q].list[0].id == ids[q]
        && (s.nodes[q].list[0].leader <==> q == mx)
        && !s.nodes[q].participant
        && (q != mx ==> s.heard[q] == [ids[mx]])
  }

  /** Until somebody leads, the VOTE of the largest participating ID is in flight. */
  lemma {:induction false} LargestInFlight(ids: seq<int>, ss: seq<Ring>, es: seq<Event>, k: nat, w: nat)
    requires Ids(ids) && Run(ids, ss, es) && k <= |es| && Sized(|ids|, ss[k])
    requires forall q :: 0 <= q < |ids| ==> |ss[k].nodes[q].list| > 0 && !ss[k].nodes[q].list[0].leader
    requires w < |ids| && ss[k].nodes[w].participant
    requires forall q :: 0 <= q < |ids| && ss[k].nodes[q].participant ==> ids[q] <= ids[w]
    ensures InFlight(ss[k].links, ids[w])
  {
    var mx := MaxExists(ids);
    RunInv(ids, mx, ss, es, k);
    var s := ss[k];
    assert s.leaders == [] by {
      assert !s.nodes[mx].list[0].leader;
    }
    var v :| v >= ids[w] && InFlight(s.links, v);
    var i :| 0 <= i < |s.links| && Vote(v) in s.links[i];
    assert VoteAt(ids, s.votes, i, Vote(v).id);
    var p :| 0 <= p < |ids| && ids[p] == v && Dist(|ids|, p, i) + 1 == Count(s.votes, v);
    assert s.nodes[p].participant;
  }

  lemma {:induction false} Restless(ids: seq<int>, mx: nat, s: Ring)
    requires Inv(ids, mx, s) && s.leaders == [] && s.votes != []
    ensures !Quiet(s)
  {
    var v := s.votes[|s.votes| - 1];
    assert Count(s.votes, v) > 0 && v in ids;
    var q :| 0 <= q < |ids| && ids[q] == v;
    assert s.nodes[q].participant;
    var w :| w >= v && InFlight(s.links, w);
  }

  lemma {:induction false} QuietState(ids: seq<int>, mx: nat, s: Ring)
    requires Inv(ids, mx, s) && FlagsDown(ids, mx, s) && Quiet(s) && (s.votes != [] || s.leaders != [])
    ensures Elected(ids, mx, s)
  {
    if s.leaders == [] {
      Restless(ids, mx, s);
    } else {
      var t := At(|ids|, mx, |s.leaders| - 1);
      assert LinkOk(s.links[t], 0, |s.leaders| == |ids|, ids[mx]);
    }
  }

  /** The process d hops after i. */
  function At(n: nat, i: nat, d: nat): (j: nat)
    requires i < n && d < n
    ensures j < n && Dist(n, i, j) == d
  {
    if i + d < n then i + d else i + d - n
  }

  /** Once somebody has voted, the system can only come to rest with the election over. */
  lemma {:induction false} QuiescentElected(ids: seq<int>, ss: seq<Ring>, es: seq<Event>, k: nat)
    requires Ids(ids) && Run(ids, ss, es) && k <= |es|
    requires Quiet(ss[k]) && ss[k].votes != []
    ensures exists mx :: Elected(ids, mx, ss[k])
  {
    var mx := MaxExists(ids);
    RunInv(ids, mx, ss, es, k);
    QuietState(ids, mx, ss[k]);
  }

  // ----- How many messages -----

  function Smaller(xs: seq<int>, v: int): nat {
    if xs == [] then 0
    else Smaller(xs[..|xs| - 1], v) + if xs[|xs| - 1] < v then 1 else 0
  }

  /** The sum over ids[..k] of what `votes` counts for them. */
  function Total(ids: seq<int>, votes: seq<int>, k: nat): nat
    requires k <= |ids|
  {
    if k == 0 then 0 else Total(ids, votes, k - 1) + Count(votes, ids[k - 1])
  }

  lemma {:induction false} SmallerIsSize(ids: seq<int>, v: int, k: nat)
    requires k <= |ids|
    ensures Smaller(ids[..k], v) == |set q | 0 <= q < k && ids[q] < v|
  {
    if k > 0 {
      SmallerIsSize(ids, v, k - 1);
      var before, now := set q | 0 <= q < k - 1 && ids[q] < v, set q | 0 <= q < k && ids[q] < v;
      assert ids[..k][..k - 1] == ids[..k - 1];
      assert now == if ids[k - 1] < v then before + {k - 1} else before;
    }
  }

  lemma {:induction false} ReachSize(n: nat, p: nat, d: nat)
    requires p < n && 1 <= d <= n
    ensures |set q | 0 <= q < n && q != p && Dist(n, p, q) < d| == d - 1
  {
    var reach := set q | 0 <= q < n && q != p && Dist(n, p, q) < d;
    if d == 1 {
      assert reach == {};
    } else {
      ReachSize(n, p, d - 1);
      assert reach == (set q | 0 <= q < n && q != p && Dist(n, p, q) < d - 1) + {At(n, p, d - 1)};
    }
  }

  lemma {:induction false} SubsetSize<T>(a: set<T>, b: set<T>)
    requires a <= b
    ensures |a| <= |b|
  {
    assert b == a + (b - a);
  }

  /** A VOTE is sent by its owner and by processes with smaller IDs, once each. */
  lemma {:induction false} VoteRank(ids: seq<int>, p: nat, d: nat)
    requires p < |ids| && Passed(ids, p, d)
    ensures d <= 1 + Smaller(ids, ids[p])
  {
    if d > 0 {
      ReachSize(|ids|, p, d);
      SmallerIsSize(ids, ids[p], |ids|);
      assert ids[..|ids|] == ids;
      SubsetSize(set q | 0 <= q < |ids| && q != p && Dist(|ids|, p, q) < d,
                 set q | 0 <= q < |ids| && ids[q] < ids[p]);
    }
  }

  lemma {:induction false} CountDistinct(ids: seq<int>, v: int, k: nat)
    requires Ids(ids) && k <= |ids|
    ensures Count(ids[..k], v) == if v in ids[..k] then 1 else 0
  {
    if k > 0 {
      CountDistinct(ids, v, k - 1);
      assert ids[..k][..k - 1] == ids[..k - 1];
    }
  }

  lemma {:induction false} TotalSnoc(ids: seq<int>, votes: seq<int>, v: int, k: nat)
    requires k <= |ids|
    ensures Total(ids, votes + [v], k) == Total(ids, votes, k) + Count(ids[..k], v)
  {
    if k > 0 {
      TotalSnoc(ids, votes, v, k - 1);
      CountSnoc(votes, v);
      assert ids[..k][..k - 1] == ids[..k - 1];
    }
  }

  /** Every VOTE sent is accounted to exactly one process. */
  lemma {:induction false} TotalIsLength(ids: seq<int>, votes: seq<int>)
    requires Ids(ids) && forall j :: 0 <= j < |votes| ==> votes[j] in ids
    ensures Total(ids, votes, |ids|) == |votes|
  {
    if votes == [] {
      TotalOfNone(ids, |ids|);
    } else {
      var rest, v := votes[..|votes| - 1], votes[|votes| - 1];
      TotalIsLength(ids, rest);
      TotalSnoc(ids, rest, v, |ids|);
      CountDistinct(ids, v, |ids|);
      assert ids[..|ids|] == ids && rest + [v] == votes;
    }
  }

  lemma {:induction false} TotalOfNone(ids: seq<int>, k: nat)
    requires k <= |ids|
    ensures Total(ids, [], k) == 0
  {
    if k > 0 {
      TotalOfNone(ids, k - 1);
    }
  }

  /** The sum of the ranks of xs in itself. */
  function Ranks(ids: seq<int>, ref: seq<int>): nat {
    if ids == [] then 0
    else Ranks(ids[..|ids| - 1], ref) + 1 + Smaller(ref, ids[|ids| - 1])
  }

  lemma {:induction false} RanksSnoc(ids: seq<int>, ref: seq<int>, y: int)
    requires y !in ids
    ensures Ranks(ids, ref + [y]) + Smaller(ids, y) == Ranks(ids, ref) + |ids|
  {
    if ids != [] {
      RanksSnoc(ids[..|ids| - 1], ref, y);
      assert (ref + [y])[..|ref|] == ref;
    }
  }

  /** Taking one more ID in adds its rank and lifts by one the ranks of all greater ones. */
  lemma {:induction false} RanksStep(before: seq<int>, y: int)
    requires y !in before
    ensures Ranks(before + [y], before + [y]) == Ranks(before, before) + |before| + 1
  {
    var all := before + [y];
    assert all[..|before|] == before;
    RanksSnoc(before, before, y);
    assert Smaller(all, y) == Smaller(before, y);
  }

  lemma {:induction false} RanksSum(ids: seq<int>, k: nat)
    requires Ids(ids) && k <= |ids|
    ensures 2 * Ranks(ids[..k], ids[..k]) == k * (k + 1)
  {
    if k > 0 {
      RanksSum(ids, k - 1);
      RanksStep(ids[..k - 1], ids[k - 1]);
      assert ids[..k] == ids[..k - 1] + [ids[k - 1]];
    }
  }

  lemma {:induction false} TotalBelowRanks(ids: seq<int>, votes: seq<int>, k: nat)
    requires Ids(ids) && CountsOk(ids, votes) && k <= |ids|
    ensures Total(ids, votes, k) <= Ranks(ids[..k], ids)
  {
    if k > 0 {
      TotalBelowRanks(ids, votes, k - 1);
      assert ids[..k][..k - 1] == ids[..k - 1];
      VoteRank(ids, k - 1, Count(votes, ids[k - 1]));
    }
  }

  lemma {:induction false} VotesBelowTriangle(ids: seq<int>, votes: seq<int>)
    requires Ids(ids) && CountsOk(ids, votes)
    ensures 2 * |votes| <= |ids| * (|ids| + 1)
  {
    TotalIsLength(ids, votes);
    TotalBelowRanks(ids, votes, |ids|);
    RanksSum(ids, |ids|);
    assert ids[..|ids|] == ids;
  }

  ghost predicate Ascending(ids: seq<int>) {
    forall i, j :: 0 <= i < j < |ids| ==> ids[i] < ids[j]
  }

  /** On an ascending ring only the largest ID gets past its first hop. */
  lemma {:induction false} TotalAscending(ids: seq<int>, votes: seq<int>, k: nat)
    requires Ids(ids) && Ascending(ids) && CountsOk(ids, votes) && k < |ids|
    ensures Total(ids, votes, k) <= k
  {
    if k > 0 {
      TotalAscending(ids, votes, k - 1);
      var p := k - 1;
      assert Passed(ids, p, Count(votes, ids[p]));
      assert Dist(|ids|, p, p + 1) == 1;
      assert ids[p] < ids[p + 1];
    }
  }

  lemma {:induction false} VotesAscending(ids: seq<int>, votes: seq<int>)
    requires Ids(ids) && Ascending(ids) && CountsOk(ids, votes)
    ensures |votes| <= 2 * |ids| - 1
  {
    TotalIsLength(ids, votes);
    TotalAscending(ids, votes, |ids| - 1);
    assert Passed(ids, |ids| - 1, Count(votes, ids[|ids| - 1]));
  }

  /** The VOTE for an ID is sent at most as often as its rank, so at most n(n+1)/2 VOTEs in all, and
      at most 2n-1 on an ascending ring; at most n LEADERs. */
  lemma {:induction false} MessageBounds(ids: seq<int>, ss: seq<Ring>, es: seq<Event>, k: nat)
    requires Ids(ids) && Run(ids, ss, es) && k <= |es|
    ensures forall p :: 0 <= p < |ids| ==> Count(ss[k].votes, ids[p]) <= 1 + Smaller(ids, ids[p])
    ensures 2 * |ss[k].votes| <= |ids| * (|ids| + 1)
    ensures Ascending(ids) ==> |ss[k].votes| <= 2 * |ids| - 1
    ensures |ss[k].leaders| <= |ids|
  {
    var mx := MaxExists(ids);
    RunInv(ids, mx, ss, es, k);
    forall p | 0 <= p < |ids|
      ensures Count(ss[k].votes, ids[p]) <= 1 + Smaller(ids, ids[p])
    {
      VoteRank(ids, p, Count(ss[k].votes, ids[p]));
    }
    VotesBelowTriangle(ids, ss[k].votes);
    if Ascending(ids) {
      VotesAscending(ids, ss[k].votes);
    }
  }

  // ----- Termination -----

  /** Handling a message always counts; a timeout counts if the process sends its VOTE. */
  predicate Effective(n: nat, s: Ring, e: Event)
    requires CanStep(n, s, e)
  {
    match e
    case Tick(t) => |s.nodes[t].list| > 2 && !s.nodes[t].participant
    case Take(t) => true
  }

  function Flying(links: seq<seq<Message>>): nat {
    if links == [] then 0 else Flying(links[..|links| - 1]) + |links[|links| - 1]|
  }

  /** With at most half of `budget` VOTEs: two units for every message that may yet be sent,
      one for every message in flight. */
  function Potential(budget: nat, n: nat, s: Ring): int {
    budget + 2 * n - 2 * |s.votes| - 2 * |s.leaders| + Flying(s.links)
  }

  lemma {:induction false} FlyingUpdate(links: seq<seq<Message>>, i: nat, link: seq<Message>)
    requires i < |links|
    ensures Flying(links[i := link]) == Flying(links) - |links[i]| + |link|
  {
    var links', k := links[i := link], |links| - 1;
    if i == k {
      assert links'[..k] == links[..k];
    } else {
      FlyingUpdate(links[..k], i, link);
      assert links'[..k] == links[..k][i := link];
    }
  }

  lemma {:induction false} PotentialDrops(budget: nat, n: nat, s: Ring, e: Event)
    requires CanStep(n, s, e) && Safe(n, s, e)
    ensures Effective(n, s, e) ==> Potential(budget, n, After(n, s, e)) < Potential(budget, n, s)
    ensures !Effective(n, s, e) && |s.nodes[e.t].list| > 2 ==> After(n, s, e) == s
  {
    match e
    case Tick(t) =>
      if !s.nodes[t].participant && |s.nodes[t].list| > 2 {
        FlyingUpdate(s.links, t, s.links[t] + [Vote(s.nodes[t].list[0].id)]);
      } else if |s.nodes[t].list| > 2 {
        assert s.nodes[t := s.nodes[t]] == s.nodes;
      }
    case Take(t) =>
      var i := Prev(n, t);
      var sent := Handled(s.nodes[t], s.links[i][0]).1;
      FlyingUpdate(s.links, i, s.links[i][1..]);
      if sent != [] {
        var popped := s.links[i := s.links[i][1..]];
        FlyingUpdate(popped, t, popped[t] + [sent[0]]);
      }
  }

  /** How many of the first k events count. */
  ghost function Work(n: nat, ss: seq<Ring>, es: seq<Event>, k: nat): nat
    requires k <= |es| <= |ss| && forall j :: 0 <= j < k ==> CanStep(n, ss[j], es[j])
  {
    if k == 0 then 0
    else Work(n, ss, es, k - 1) + if Effective(n, ss[k - 1], es[k - 1]) then 1 else 0
  }

  lemma {:induction false} WorkPaid(budget: nat, ids: seq<int>, ss: seq<Ring>, es: seq<Event>, k: nat)
    requires Ids(ids) && Run(ids, ss, es) && k <= |es|
    ensures Work(|ids|, ss, es, k) + Potential(budget, |ids|, ss[k]) <= Potential(budget, |ids|, ss[0])
  {
    if k > 0 {
      WorkPaid(budget, ids, ss, es, k - 1);
      NeverTrips(ids, ss, es, k - 1);
      var s, e := ss[k - 1], es[k - 1];
      PotentialDrops(budget, |ids|, s, e);
      if !Effective(|ids|, s, e) {
        var mx := MaxExists(ids);
        RunInv(ids, mx, ss, es, k - 1);
        assert |s.nodes[e.t].list| != 2;
      }
    }
  }

  lemma {:induction false} NothingFlying(links: seq<seq<Message>>)
    requires forall i :: 0 <= i < |links| ==> links[i] == []
    ensures Flying(links) == 0
  {
    if links != [] {
      NothingFlying(links[..|links| - 1]);
    }
  }

  /** Every run is over after n(n+1) + 2n events that count; on an ascending ring after 6n - 2. */
  lemma {:induction false} ElectionTerminates(ids: seq<int>, ss: seq<Ring>, es: seq<Event>, k: nat)
    requires Ids(ids) && Run(ids, ss, es) && k <= |es|
    ensures Work(|ids|, ss, es, k) <= |ids| * (|ids| + 1) + 2 * |ids|
    ensures Ascending(ids) ==> Work(|ids|, ss, es, k) <= 6 * |ids| - 2
  {
    var n := |ids|;
    NothingFlying(ss[0].links);
    MessageBounds(ids, ss, es, k);
    WorkPaid(n * (n + 1), ids, ss, es, k);
    WorkPaid(2 * (2 * n - 1), ids, ss, es, k);
  }

  /** And when no event that counts is left, somebody has been elected. */
  lemma {:induction false} StuckMeansElected(ids: seq<int>, ss: seq<Ring>, es: seq<Event>, k: nat)
    requires Ids(ids) && Run(ids, ss, es) && k <= |es|
    requires forall e :: CanStep(|ids|, ss[k], e) ==> !Effective(|ids|, ss[k], e)
    ensures exists mx :: Elected(ids, mx, ss[k])
  {
    var mx := MaxExists(ids);
    RunInv(ids, mx, ss, es, k);
    var s, n := ss[k], |ids|;
    forall i | 0 <= i < n
      ensures s.links[i] == []
    {
      assert Prev(n, Next(n, i)) == i;
      assert !CanStep(n, s, Take(Next(n, i)));
    }
    assert CanStep(n, s, Tick(0)) ==> !Effective(n, s, Tick(0));
    if s.votes != [] || s.leaders != [] {
      QuietState(ids, mx, s);
    }
  }
}
