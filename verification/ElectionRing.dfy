/** A whole election: n >= 2 processes in a ring with distinct positive IDs, one FIFO link from each
    to its successor, atomic handlers, one epoch. The node behaviour is that of module Election. */
module ElectionRing {
  import opened ServerStruct
  import opened Election

  // ----- Positions on a ring of n processes -----

  function Next(n: nat, i: nat): nat
    requires i < n
  {
    if i + 1 == n then 0 else i + 1
  }

  function Prev(n: nat, i: nat): nat
    requires i < n
  {
    if i == 0 then n - 1 else i - 1
  }

  /** Hops from i forward to j. */
  function Dist(n: nat, i: nat, j: nat): nat
    requires i < n && j < n
  {
    if j >= i then j - i else n - i + j
  }

  // ----- The system -----

  /** `links[i]` leads from process i to process Next(i). The last three fields are history: the IDs
      of all VOTEs sent, of all LEADERs sent, and of the LEADERs each process has handled. */
  datatype Ring = Ring(nodes: seq<Node>, links: seq<seq<Message>>,
                       votes: seq<int>, leaders: seq<int>, heard: seq<seq<int>>)

  /** Process t notices that its leader is silent, or handles the first message on its incoming link. */
  datatype Event = Tick(t: nat) | Take(t: nat)

  predicate Sized(n: nat, s: Ring) {
    |s.nodes| == |s.links| == |s.heard| == n
  }

  /** A process alone in its list has no leader to watch. */
  predicate CanStep(n: nat, s: Ring, e: Event) {
    && Sized(n, s)
    && e.t < n
    && match e
       case Tick(t) => |s.nodes[t].list| > 1
       case Take(t) => s.links[Prev(n, t)] != []
  }

  /** The handler does not follow a null pointer. */
  predicate Safe(n: nat, s: Ring, e: Event)
    requires CanStep(n, s, e)
  {
    e.Take? ==> Manageable(s.nodes[e.t], s.links[Prev(n, e.t)][0])
  }

  function Emit(s: Ring, t: nat, sent: seq<Message>): Ring
    requires t < |s.links|
  {
    if sent == [] then s
    else
      var s' := s.(links := s.links[t := s.links[t] + [sent[0]]]);
      match sent[0]
      case Vote(v) => s'.(votes := s.votes + [v])
      case Leader(v) => s'.(leaders := s.leaders + [v])
  }

  function After(n: nat, s: Ring, e: Event): Ring
    requires CanStep(n, s, e) && Safe(n, s, e)
  {
    match e
    case Tick(t) =>
      var (node, sent) := TimedOut(s.nodes[t]);
      Emit(s.(nodes := s.nodes[t := node]), t, sent)
    case Take(t) =>
      var link := s.links[Prev(n, t)];
      var (node, sent) := Handled(s.nodes[t], link[0]);
      Emit(s.(nodes := s.nodes[t := node],
              links := s.links[Prev(n, t) := link[1..]],
              heard := if link[0].Leader? then s.heard[t := s.heard[t] + [link[0].id]] else s.heard),
           t, sent)
  }

  ghost predicate Ids(ids: seq<int>) {
    && |ids| > 1
    && (forall i :: 0 <= i < |ids| ==> ids[i] > 0)
    && (forall i, j :: 0 <= i < j < |ids| ==> ids[i] != ids[j])
  }

  ghost predicate Initial(ids: seq<int>, s: Ring) {
    && Sized(|ids|, s)
    && (forall q {:trigger s.nodes[q]} :: 0 <= q < |ids| ==>
          Intact(s.nodes[q], ids[q], ids[Next(|ids|, q)]) && !s.nodes[q].participant)
    && (forall q :: 0 <= q < |ids| ==> s.links[q] == [] && s.heard[q] == [])
    && s.votes == [] && s.leaders == []
  }

  /** The events lead from state to state; should a handler ever trip, anything may follow. */
  ghost predicate Steps(n: nat, ss: seq<Ring>, es: seq<Event>) {
    && |ss| == |es| + 1
    && forall k :: 0 <= k < |es| ==>
        CanStep(n, ss[k], es[k]) && (Safe(n, ss[k], es[k]) ==> ss[k + 1] == After(n, ss[k], es[k]))
  }

  ghost predicate Run(ids: seq<int>, ss: seq<Ring>, es: seq<Event>) {
    Steps(|ids|, ss, es) && Initial(ids, ss[0])
  }

  // ----- The invariant -----

  function Count(xs: seq<int>, x: int): nat {
    if xs == [] then 0
    else Count(xs[..|xs| - 1], x) + if xs[|xs| - 1] == x then 1 else 0
  }

  ghost predicate IsMax(ids: seq<int>, mx: nat) {
    mx < |ids| && forall q :: 0 <= q < |ids| ==> ids[q] <= ids[mx]
  }

  /** The LEADER lap tears the processes down one after the other, starting with the winner. */
  ghost predicate NodesOk(ids: seq<int>, mx: nat, nodes: seq<Node>, laps: nat) {
    && mx < |ids| == |nodes|
    && forall q {:trigger nodes[q]} :: 0 <= q < |ids| ==>
        if Dist(|ids|, mx, q) < laps then TornDown(nodes[q], ids[q], q == mx)
        else Intact(nodes[q], ids[q], ids[Next(|ids|, q)])
  }

  ghost predicate OnlyVotes(link: seq<Message>) {
    forall a :: 0 <= a < |link| ==> link[a].Vote?
  }

  /** A link behind the LEADER is empty, the link it is on ends with it, the others carry votes. */
  ghost predicate LinkOk(link: seq<Message>, gap: int, over: bool, top: int) {
    if gap < 0 then link == []
    else if gap == 0 then
      if link == [] then over else link[|link| - 1] == Leader(top) && OnlyVotes(link[..|link| - 1])
    else OnlyVotes(link)
  }

  /** The links while LEADER is on none of them, after so many hops. */
  ghost predicate LapLinks(ids: seq<int>, mx: nat, links: seq<seq<Message>>, laps: nat) {
    && mx < |ids| == |links|
    && forall i :: 0 <= i < |ids| ==>
        if Dist(|ids|, mx, i) < laps then links[i] == [] else OnlyVotes(links[i])
  }

  ghost predicate LapOk(ids: seq<int>, mx: nat, links: seq<seq<Message>>, leaders: seq<int>) {
    && mx < |ids| == |links|
    && |leaders| <= |ids|
    && (forall k :: 0 <= k < |leaders| ==> leaders[k] == ids[mx])
    && (forall i :: 0 <= i < |ids| ==>
          LinkOk(links[i], Dist(|ids|, mx, i) + 1 - |leaders|, |leaders| == |ids|, ids[mx]))
  }

  /** The VOTE for p's ID has been sent by `d` processes, p first. */
  ghost predicate Passed(ids: seq<int>, p: nat, d: nat)
    requires p < |ids|
  {
    d <= |ids| && forall q :: 0 <= q < |ids| && q != p && Dist(|ids|, p, q) < d ==> ids[q] < ids[p]
  }

  ghost predicate CountsOk(ids: seq<int>, votes: seq<int>) {
    && (forall k :: 0 <= k < |votes| ==> votes[k] in ids)
    && (forall p :: 0 <= p < |ids| ==> Passed(ids, p, Count(votes, ids[p])))
  }

  /** A VOTE on link i is as far from its origin as it has been sent times. */
  ghost predicate VoteAt(ids: seq<int>, votes: seq<int>, i: nat, v: int)
    requires i < |ids|
  {
    exists p :: 0 <= p < |ids| && ids[p] == v && Dist(|ids|, p, i) + 1 == Count(votes, v)
  }

  ghost predicate NoRepeat(link: seq<Message>) {
    forall a, b :: 0 <= a < b < |link| ==> link[a] != link[b]
  }

  ghost predicate VotesOk(ids: seq<int>, links: seq<seq<Message>>, votes: seq<int>) {
    && |links| == |ids|
    && (forall i :: 0 <= i < |ids| ==> NoRepeat(links[i]))
    && (forall i, m: Message :: 0 <= i < |ids| && m in links[i] && m.Vote? ==> VoteAt(ids, votes, i, m.id))
  }

  /** A process that can still take part is marked as participant iff its own VOTE has been sent. */
  ghost predicate MarksOk(ids: seq<int>, mx: nat, nodes: seq<Node>, votes: seq<int>, laps: nat) {
    && mx < |ids| == |nodes|
    && forall q :: 0 <= q < |ids| && Dist(|ids|, mx, q) >= laps ==>
        (nodes[q].participant <==> Count(votes, ids[q]) > 0)
  }

  ghost predicate InFlight(links: seq<seq<Message>>, v: int) {
    exists i :: 0 <= i < |links| && Vote(v) in links[i]
  }

  ghost predicate Topped(links: seq<seq<Message>>, v: int) {
    exists w :: w >= v && InFlight(links, w)
  }

  /** Until somebody has won, every participant is topped by a VOTE in flight. */
  ghost predicate ProgressOk(ids: seq<int>, nodes: seq<Node>, links: seq<seq<Message>>) {
    && |ids| == |nodes|
    && forall q :: 0 <= q < |ids| && nodes[q].participant ==> Topped(links, ids[q])
  }

  ghost predicate HeardOk(ids: seq<int>, mx: nat, heard: seq<seq<int>>, laps: nat) {
    && mx < |ids| == |heard|
    && forall q :: 0 <= q < |ids| && q != mx ==>
        heard[q] == if Dist(|ids|, mx, q) < laps then [ids[mx]] else []
  }

  ghost predicate Core(ids: seq<int>, mx: nat, s: Ring) {
    && Ids(ids) && IsMax(ids, mx)
    && NodesOk(ids, mx, s.nodes, |s.leaders|)
    && LapOk(ids, mx, s.links, s.leaders)
    && CountsOk(ids, s.votes)
    && VotesOk(ids, s.links, s.votes)
    && MarksOk(ids, mx, s.nodes, s.votes, |s.leaders|)
    && HeardOk(ids, mx, s.heard, |s.leaders|)
  }

  ghost predicate Inv(ids: seq<int>, mx: nat, s: Ring) {
    Core(ids, mx, s) && (s.leaders == [] ==> ProgressOk(ids, s.nodes, s.links))
  }

  /** Whoever has been torn down has lowered its flag: a follower at once, the winner when its LEADER is
      back. A flag left up would silence `send_ele_msg` in the next election. */
  ghost predicate FlagsDown(ids: seq<int>, mx: nat, s: Ring) {
    && mx < |ids| && Sized(|ids|, s)
    && (forall q :: 0 <= q < |ids| && q != mx && Dist(|ids|, mx, q) < |s.leaders| ==> !s.nodes[q].participant)
    && (|s.leaders| == |ids| && s.links[Prev(|ids|, mx)] == [] ==> !s.nodes[mx].participant)
  }

  /** The event is handled without tripping and leads to a state of the invariant. */
  ghost predicate Kept(ids: seq<int>, mx: nat, s: Ring, e: Event) {
    CanStep(|ids|, s, e) && Safe(|ids|, s, e) && Inv(ids, mx, After(|ids|, s, e))
  }

  // ----- Counting -----

  lemma {:induction false} CountSnoc(xs: seq<int>, x: int)
    ensures forall v :: Count(xs + [x], v) == Count(xs, v) + if v == x then 1 else 0
  {
    assert (xs + [x])[..|xs|] == xs;
  }

  // ----- One message leaves a link, one message enters a link -----

  lemma {:induction false} PopVotes(ids: seq<int>, links: seq<seq<Message>>, votes: seq<int>, i: nat)
    requires Ids(ids) && VotesOk(ids, links, votes) && i < |ids| && links[i] != []
    ensures VotesOk(ids, links[i := links[i][1..]], votes)
    ensures links[i][0].Vote? ==> VoteAt(ids, votes, i, links[i][0].id)
    ensures links[i][0].Vote? ==> !InFlight(links[i := links[i][1..]], links[i][0].id)
  {
    var m, rest := links[i][0], links[i][1..];
    assert NoRepeat(links[i]);
    assert m !in rest;
    assert NoRepeat(rest);
    assert m in links[i];
  }

  lemma {:induction false} PushVote(ids: seq<int>, links: seq<seq<Message>>, votes: seq<int>, p: nat, t: nat)
    requires Ids(ids) && VotesOk(ids, links, votes) && CountsOk(ids, votes)
    requires p < |ids| && t < |ids| && !InFlight(links, ids[p])
    requires Count(votes, ids[p]) == Dist(|ids|, p, t)
    requires t != p ==> ids[t] < ids[p]
    ensures VotesOk(ids, links[t := links[t] + [Vote(ids[p])]], votes + [ids[p]])
    ensures CountsOk(ids, votes + [ids[p]])
  {
    var v := ids[p];
    var links', votes' := links[t := links[t] + [Vote(v)]], votes + [v];
    CountSnoc(votes, v);
    assert VoteAt(ids, votes', t, v);
    forall i, m: Message | 0 <= i < |ids| && m in links'[i] && m.Vote?
      ensures VoteAt(ids, votes', i, m.id)
    {
      if m.id != v {
        assert m in links[i];
        var q :| 0 <= q < |ids| && ids[q] == m.id && Dist(|ids|, q, i) + 1 == Count(votes, m.id);
        assert Count(votes', m.id) == Count(votes, m.id);
      } else {
        assert i == t;
      }
    }
    forall i | 0 <= i < |ids|
      ensures NoRepeat(links'[i])
    {
      assert NoRepeat(links[i]) && Vote(v) !in links[i];
    }
    forall q | 0 <= q < |ids|
      ensures Passed(ids, q, Count(votes', ids[q]))
    {
      assert Passed(ids, q, Count(votes, ids[q]));
    }
  }

  lemma {:induction false} PopLap(ids: seq<int>, mx: nat, links: seq<seq<Message>>, leaders: seq<int>, i: nat)
    requires LapOk(ids, mx, links, leaders) && i < |ids|
    requires links[i] != [] && links[i][0].Vote?
    ensures LapOk(ids, mx, links[i := links[i][1..]], leaders)
  {
    var link := links[i];
    assert LinkOk(link, Dist(|ids|, mx, i) + 1 - |leaders|, |leaders| == |ids|, ids[mx]);
    if |link| > 1 {
      assert link[1..][..|link| - 2] == link[..|link| - 1][1..];
    }
  }

  lemma {:induction false} PushVoteLap(ids: seq<int>, mx: nat, links: seq<seq<Message>>, leaders: seq<int>, t: nat,
                                       v: int)
    requires LapOk(ids, mx, links, leaders) && t < |ids| && Dist(|ids|, mx, t) >= |leaders|
    ensures LapOk(ids, mx, links[t := links[t] + [Vote(v)]], leaders)
  {
    assert LinkOk(links[t], Dist(|ids|, mx, t) + 1 - |leaders|, |leaders| == |ids|, ids[mx]);
  }

  lemma {:induction false} ToppedStays(links: seq<seq<Message>>, links': seq<seq<Message>>, v: int)
    requires Topped(links, v)
    requires forall w :: InFlight(links, w) ==> InFlight(links', w)
    ensures Topped(links', v)
  {
    var w :| w >= v && InFlight(links, w);
    assert InFlight(links', w);
  }

  lemma {:induction false} PushKeepsFlying(links: seq<seq<Message>>, t: nat, m: Message)
    requires t < |links|
    ensures var links' := links[t := links[t] + [m]];
            && (forall w :: InFlight(links, w) ==> InFlight(links', w))
            && (m.Vote? ==> InFlight(links', m.id))
  {
    var links' := links[t := links[t] + [m]];
    forall w | InFlight(links, w)
      ensures InFlight(links', w)
    {
      var i :| 0 <= i < |links| && Vote(w) in links[i];
      assert Vote(w) in links'[i];
    }
    assert m in links'[t];
  }

  lemma {:induction false} PopKeepsFlying(links: seq<seq<Message>>, i: nat, w: int)
    requires i < |links| && links[i] != [] && links[i][0] != Vote(w) && InFlight(links, w)
    ensures InFlight(links[i := links[i][1..]], w)
  {
    var j :| 0 <= j < |links| && Vote(w) in links[j];
    assert links[i] == [links[i][0]] + links[i][1..];
    assert Vote(w) in links[i := links[i][1..]][j];
  }

  // ----- The invariant is kept, event by event -----

  lemma {:induction false} Fresh(ids: seq<int>, links: seq<seq<Message>>, votes: seq<int>, v: int)
    requires VotesOk(ids, links, votes) && Count(votes, v) == 0
    ensures !InFlight(links, v)
  {
    forall i | 0 <= i < |links|
      ensures Vote(v) in links[i] ==> VoteAt(ids, votes, i, v)
    {
    }
  }

  lemma {:induction false} OriginatesNodes(ids: seq<int>, mx: nat, nodes: seq<Node>, votes: seq<int>, laps: nat,
                                           t: nat, node: Node)
    requires Ids(ids) && NodesOk(ids, mx, nodes, laps) && MarksOk(ids, mx, nodes, votes, laps)
    requires t < |ids| && Dist(|ids|, mx, t) >= laps
    requires Intact(node, ids[t], ids[Next(|ids|, t)]) && node.participant
    ensures NodesOk(ids, mx, nodes[t := node], laps)
    ensures MarksOk(ids, mx, nodes[t := node], votes + [ids[t]], laps)
  {
    CountSnoc(votes, ids[t]);
  }

  lemma {:induction false} OriginatesLinks(ids: seq<int>, mx: nat, s: Ring, t: nat)
    requires Core(ids, mx, s) && t < |ids| && Dist(|ids|, mx, t) >= |s.leaders|
    requires !s.nodes[t].participant
    ensures var links := s.links[t := s.links[t] + [Vote(ids[t])]];
            && LapOk(ids, mx, links, s.leaders)
            && CountsOk(ids, s.votes + [ids[t]])
            && VotesOk(ids, links, s.votes + [ids[t]])
  {
    Fresh(ids, s.links, s.votes, ids[t]);
    PushVote(ids, s.links, s.votes, t, t);
    PushVoteLap(ids, mx, s.links, s.leaders, t, ids[t]);
  }

  /** An intact process that has not voted yet sends its own VOTE. */
  lemma {:induction false} Originates(ids: seq<int>, mx: nat, s: Ring, t: nat, node: Node)
    requires Core(ids, mx, s) && t < |ids| && Dist(|ids|, mx, t) >= |s.leaders|
    requires !s.nodes[t].participant
    requires Intact(node, ids[t], ids[Next(|ids|, t)]) && node.participant
    ensures Core(ids, mx, Emit(s.(nodes := s.nodes[t := node]), t, [Vote(ids[t])]))
  {
    OriginatesLinks(ids, mx, s, t);
    OriginatesNodes(ids, mx, s.nodes, s.votes, |s.leaders|, t, node);
  }

  lemma {:induction false} MarksForwarded(ids: seq<int>, mx: nat, nodes: seq<Node>, votes: seq<int>, laps: nat, v: int)
    requires MarksOk(ids, mx, nodes, votes, laps) && Count(votes, v) > 0
    ensures MarksOk(ids, mx, nodes, votes + [v], laps)
  {
    CountSnoc(votes, v);
  }

  lemma {:induction false} ForwardsLinks(ids: seq<int>, mx: nat, s: Ring, t: nat, i: nat, v: int)
    requires Core(ids, mx, s) && t < |ids| && Dist(|ids|, mx, t) >= |s.leaders|
    requires i == Prev(|ids|, t) && v > ids[t]
    requires VoteAt(ids, s.votes, i, v) && !InFlight(s.links, v)
    ensures var links := s.links[t := s.links[t] + [Vote(v)]];
            && LapOk(ids, mx, links, s.leaders)
            && CountsOk(ids, s.votes + [v])
            && VotesOk(ids, links, s.votes + [v])
    ensures Count(s.votes, v) > 0
  {
    var p :| 0 <= p < |ids| && ids[p] == v && Dist(|ids|, p, i) + 1 == Count(s.votes, v);
    PushVote(ids, s.links, s.votes, p, t);
    PushVoteLap(ids, mx, s.links, s.leaders, t, v);
  }

  /** An intact process hands on the VOTE it has just taken off link i. */
  lemma {:induction false} Forwards(ids: seq<int>, mx: nat, s: Ring, t: nat, i: nat, v: int)
    requires Core(ids, mx, s) && t < |ids| && Dist(|ids|, mx, t) >= |s.leaders|
    requires i == Prev(|ids|, t) && v > ids[t]
    requires VoteAt(ids, s.votes, i, v) && !InFlight(s.links, v)
    ensures Core(ids, mx, Emit(s, t, [Vote(v)]))
  {
    ForwardsLinks(ids, mx, s, t, i, v);
    MarksForwarded(ids, mx, s.nodes, s.votes, |s.leaders|, v);
  }

  lemma {:induction false} PopCore(ids: seq<int>, mx: nat, s: Ring, i: nat)
    requires Core(ids, mx, s) && i < |ids| && s.links[i] != [] && s.links[i][0].Vote?
    ensures Core(ids, mx, s.(links := s.links[i := s.links[i][1..]]))
  {
    PopVotes(ids, s.links, s.votes, i);
    PopLap(ids, mx, s.links, s.leaders, i);
  }

  lemma {:induction false} TickKeeps(ids: seq<int>, mx: nat, s: Ring, t: nat)
    requires Inv(ids, mx, s) && CanStep(|ids|, s, Tick(t))
    ensures Kept(ids, mx, s, Tick(t))
  {
    var s' := After(|ids|, s, Tick(t));
    if s.nodes[t].participant {
      assert s'.nodes == s.nodes;
    } else {
      var node := s.nodes[t].(participant := true);
      Originates(ids, mx, s, t, node);
      PushKeepsFlying(s.links, t, Vote(ids[t]));
      forall q | s.leaders == [] && 0 <= q < |ids| && s'.nodes[q].participant
        ensures Topped(s'.links, ids[q])
      {
        if q != t {
          ToppedStays(s.links, s'.links, ids[q]);
        }
      }
    }
  }

  ghost function Popped(s: Ring, i: nat): Ring
    requires i < |s.links| && s.links[i] != []
  {
    s.(links := s.links[i := s.links[i][1..]])
  }

  /** What taking a VOTE amounts to on an intact process. */
  lemma {:induction false} TakeVote(ids: seq<int>, s: Ring, t: nat, v: int)
    requires Ids(ids) && CanStep(|ids|, s, Take(t)) && s.links[Prev(|ids|, t)][0] == Vote(v)
    requires Intact(s.nodes[t], ids[t], ids[Next(|ids|, t)]) && v != ids[t]
    ensures Safe(|ids|, s, Take(t))
    ensures var s1 := Popped(s, Prev(|ids|, t));
            var node := s.nodes[t].(participant := true);
            After(|ids|, s, Take(t)) ==
              if v > ids[t] then Emit(s1, t, [Vote(v)])
              else if s.nodes[t].participant then s1
              else Emit(s1.(nodes := s1.nodes[t := node]), t, [Vote(ids[t])])
  {
    IntactHandles(s.nodes[t], ids[t], ids[Next(|ids|, t)], Vote(v));
    if v > ids[t] || s.nodes[t].participant {
      assert s.nodes[t := s.nodes[t]] == s.nodes;
    }
  }

  lemma {:induction false} TakeVoteKeeps(ids: seq<int>, mx: nat, s: Ring, t: nat, v: int)
    requires Inv(ids, mx, s) && CanStep(|ids|, s, Take(t)) && s.links[Prev(|ids|, t)][0] == Vote(v)
    requires Dist(|ids|, mx, t) >= |s.leaders| && v != ids[t]
    ensures Kept(ids, mx, s, Take(t))
  {
    var n, i := |ids|, Prev(|ids|, t);
    var s1 := Popped(s, i);
    TakeVote(ids, s, t, v);
    PopCore(ids, mx, s, i);
    if v > ids[t] {
      PopVotes(ids, s.links, s.votes, i);
      Forwards(ids, mx, s1, t, i, v);
    } else if !s.nodes[t].participant {
      Originates(ids, mx, s1, t, s.nodes[t].(participant := true));
    }
    if s.leaders == [] {
      VoteProgress(ids, mx, s, t, v);
    }
  }

  /** A VOTE taken off its link leaves everything topped, if it is topped itself by what follows. */
  lemma {:induction false} Retopped(links: seq<seq<Message>>, links': seq<seq<Message>>, i: nat, v: int, x: int)
    requires i < |links| && links[i] != [] && links[i][0] == Vote(v)
    requires Topped(links, x)
    requires x <= v ==> Topped(links', v)
    requires forall w :: InFlight(links[i := links[i][1..]], w) ==> InFlight(links', w)
    ensures Topped(links', x)
  {
    var w :| w >= x && InFlight(links, w);
    if w == v {
      var u :| u >= v && InFlight(links', u);
    } else {
      PopKeepsFlying(links, i, w);
      assert InFlight(links', w);
    }
  }

  lemma {:induction false} VoteProgress(ids: seq<int>, mx: nat, s: Ring, t: nat, v: int)
    requires Inv(ids, mx, s) && CanStep(|ids|, s, Take(t)) && s.leaders == []
    requires s.links[Prev(|ids|, t)][0] == Vote(v) && v != ids[t]
    ensures Safe(|ids|, s, Take(t))
    ensures var s' := After(|ids|, s, Take(t)); ProgressOk(ids, s'.nodes, s'.links)
  {
    var n, i := |ids|, Prev(|ids|, t);
    TakeVote(ids, s, t, v);
    var s1, s' := Popped(s, i), After(n, s, Take(t));
    if v > ids[t] || !s.nodes[t].participant {
      var m := Vote(if v > ids[t] then v else ids[t]);
      PushKeepsFlying(s1.links, t, m);
      assert InFlight(s'.links, m.id);
    } else {
      Retopped(s.links, s'.links, i, v, ids[t]);
    }
    assert Topped(s'.links, v);
    forall q | 0 <= q < n && s'.nodes[q].participant
      ensures Topped(s'.links, ids[q])
    {
      if s.nodes[q].participant {
        Retopped(s.links, s'.links, i, v, ids[q]);
      }
    }
  }

  /** A VOTE that comes home has been all the way round: its ID is the largest. */
  lemma {:induction false} HomeIsMax(ids: seq<int>, mx: nat, s: Ring, t: nat)
    requires Core(ids, mx, s) && CanStep(|ids|, s, Take(t))
    requires s.links[Prev(|ids|, t)][0] == Vote(ids[t])
    ensures t == mx
  {
    var i := Prev(|ids|, t);
    PopVotes(ids, s.links, s.votes, i);
    assert Passed(ids, t, Count(s.votes, ids[t]));
    assert Dist(|ids|, t, mx) < |ids|;
  }

  /** The LEADER moves on to link t, behind whatever VOTEs are still there. */
  lemma {:induction false} LapAdvances(ids: seq<int>, mx: nat, links: seq<seq<Message>>, leaders: seq<int>, t: nat)
    requires mx < |ids| == |links| && t < |ids| && Dist(|ids|, mx, t) == |leaders|
    requires forall k :: 0 <= k < |leaders| ==> leaders[k] == ids[mx]
    requires LapLinks(ids, mx, links, |leaders|)
    ensures LapOk(ids, mx, links[t := links[t] + [Leader(ids[mx])]], leaders + [ids[mx]])
  {
    var link := links[t] + [Leader(ids[mx])];
    assert link[..|link| - 1] == links[t];
    forall i | 0 <= i < |ids|
      ensures i == t <==> Dist(|ids|, mx, i) == |leaders|
    {
    }
  }

  lemma {:induction false} PushLeaderVotes(ids: seq<int>, links: seq<seq<Message>>, votes: seq<int>, t: nat, v: int)
    requires VotesOk(ids, links, votes) && t < |ids| && OnlyVotes(links[t])
    ensures VotesOk(ids, links[t := links[t] + [Leader(v)]], votes)
  {
    assert NoRepeat(links[t]);
    var links' := links[t := links[t] + [Leader(v)]];
    forall i, m: Message | 0 <= i < |ids| && m in links'[i] && m.Vote?
      ensures VoteAt(ids, votes, i, m.id)
    {
      assert m in links[i];
    }
  }

  /** The state in which t has sent LEADER and left the election. */
  function Left(s: Ring, t: nat, node: Node, heard: seq<seq<int>>, top: int): Ring
    requires t < |s.nodes| && t < |s.links|
  {
    Ring(s.nodes[t := node], s.links[t := s.links[t] + [Leader(top)]], s.votes, s.leaders + [top], heard)
  }

  /** The processes and links between two hops of LEADER. */
  ghost predicate BetweenHops(ids: seq<int>, mx: nat, s: Ring) {
    && Ids(ids) && IsMax(ids, mx) && Sized(|ids|, s)
    && NodesOk(ids, mx, s.nodes, |s.leaders|)
    && LapLinks(ids, mx, s.links, |s.leaders|)
    && (forall k :: 0 <= k < |s.leaders| ==> s.leaders[k] == ids[mx])
    && CountsOk(ids, s.votes)
    && VotesOk(ids, s.links, s.votes)
    && MarksOk(ids, mx, s.nodes, s.votes, |s.leaders|)
    && HeardOk(ids, mx, s.heard, |s.leaders|)
  }

  lemma {:induction false} LeftIsCore(ids: seq<int>, mx: nat, s: Ring, t: nat, node: Node, heard: seq<seq<int>>)
    requires BetweenHops(ids, mx, s) && t < |ids| && Dist(|ids|, mx, t) == |s.leaders|
    requires TornDown(node, ids[t], t == mx)
    requires heard == if t == mx then s.heard else s.heard[t := s.heard[t] + [ids[mx]]]
    ensures Core(ids, mx, Left(s, t, node, heard, ids[mx]))
  {
    LeadersLinks(ids, mx, s.links, s.votes, s.leaders, t);
    NodeLeaves(ids, mx, s.nodes, s.votes, s.heard, |s.leaders|, t, node);
  }

  /** t sends LEADER and leaves the election. */
  lemma {:induction false} LeadersStep(ids: seq<int>, mx: nat, s: Ring, t: nat, node: Node, heard: seq<seq<int>>)
    requires BetweenHops(ids, mx, s) && t < |ids| && Dist(|ids|, mx, t) == |s.leaders|
    requires TornDown(node, ids[t], t == mx)
    requires heard == if t == mx then s.heard else s.heard[t := s.heard[t] + [ids[mx]]]
    ensures Core(ids, mx, Emit(s.(nodes := s.nodes[t := node], heard := heard), t, [Leader(ids[mx])]))
  {
    LeftIsCore(ids, mx, s, t, node, heard);
    assert Left(s, t, node, heard, ids[mx]) ==
           Emit(s.(nodes := s.nodes[t := node], heard := heard), t, [Leader(ids[mx])]);
  }

  lemma {:induction false} LeadersLinks(ids: seq<int>, mx: nat, links: seq<seq<Message>>, votes: seq<int>,
                                        leaders: seq<int>, t: nat)
    requires mx < |ids| && t < |ids| && Dist(|ids|, mx, t) == |leaders| && VotesOk(ids, links, votes)
    requires forall k :: 0 <= k < |leaders| ==> leaders[k] == ids[mx]
    requires LapLinks(ids, mx, links, |leaders|)
    ensures LapOk(ids, mx, links[t := links[t] + [Leader(ids[mx])]], leaders + [ids[mx]])
    ensures VotesOk(ids, links[t := links[t] + [Leader(ids[mx])]], votes)
  {
    LapAdvances(ids, mx, links, leaders, t);
    PushLeaderVotes(ids, links, votes, t, ids[mx]);
  }

  lemma {:induction false} NodeLeaves(ids: seq<int>, mx: nat, nodes: seq<Node>, votes: seq<int>, heard: seq<seq<int>>,
                                      laps: nat,
                   t: nat, node: Node)
    requires mx < |ids| && t < |ids| && Dist(|ids|, mx, t) == laps
    requires NodesOk(ids, mx, nodes, laps) && MarksOk(ids, mx, nodes, votes, laps) && HeardOk(ids, mx, heard, laps)
    requires TornDown(node, ids[t], t == mx)
    ensures NodesOk(ids, mx, nodes[t := node], laps + 1)
    ensures MarksOk(ids, mx, nodes[t := node], votes, laps + 1)
    ensures HeardOk(ids, mx, if t == mx then heard else heard[t := heard[t] + [ids[mx]]], laps + 1)
  {
    forall q | 0 <= q < |ids|
      ensures q == t <==> Dist(|ids|, mx, q) == laps
    {
    }
  }

  /** What taking one's own VOTE, or another's LEADER, amounts to on an intact process: it is torn
      down and LEADER goes out. */
  lemma {:induction false} TakeLast(ids: seq<int>, s: Ring, t: nat, m: Message) returns (node: Node)
    requires Ids(ids) && CanStep(|ids|, s, Take(t)) && s.links[Prev(|ids|, t)][0] == m
    requires Intact(s.nodes[t], ids[t], ids[Next(|ids|, t)])
    requires if m.Vote? then m.id == ids[t] > 1 else m.id != ids[t]
    ensures Safe(|ids|, s, Take(t)) && TornDown(node, ids[t], m.Vote?) && (m.Leader? ==> !node.participant)
    ensures var s1 := Popped(s, Prev(|ids|, t));
            var heard := if m.Vote? then s.heard else s.heard[t := s.heard[t] + [m.id]];
            After(|ids|, s, Take(t)) ==
              Emit(s1.(nodes := s1.nodes[t := node], heard := heard), t, [Leader(m.id)])
  {
    IntactHandles(s.nodes[t], ids[t], ids[Next(|ids|, t)], m);
    node := Handled(s.nodes[t], m).0;
  }

  lemma {:induction false} WinKeeps(ids: seq<int>, mx: nat, s: Ring, t: nat)
    requires Core(ids, mx, s) && CanStep(|ids|, s, Take(t))
    requires s.links[Prev(|ids|, t)][0] == Vote(ids[t])
    requires Dist(|ids|, mx, t) >= |s.leaders|
    ensures Kept(ids, mx, s, Take(t))
  {
    HomeIsMax(ids, mx, s, t);
    AboveOne(ids, mx);
    var node := TakeLast(ids, s, t, Vote(ids[t]));
    PopCore(ids, mx, s, Prev(|ids|, t));
    LeadersStep(ids, mx, Popped(s, Prev(|ids|, t)), t, node, s.heard);
  }

  /** Among at least two distinct positive IDs the largest is above 1. */
  lemma {:induction false} AboveOne(ids: seq<int>, mx: nat)
    requires Ids(ids) && IsMax(ids, mx)
    ensures ids[mx] >= 2
  {
    assert ids[0] != ids[1];
  }

  /** The link that LEADER is on, alone; the links behind it are empty, those ahead carry VOTEs only. */
  lemma {:induction false} LeaderLink(ids: seq<int>, mx: nat, links: seq<seq<Message>>, leaders: seq<int>, i: nat)
    requires LapOk(ids, mx, links, leaders) && i < |ids| && links[i] != [] && links[i][0].Leader?
    ensures links[i] == [Leader(ids[mx])] && Dist(|ids|, mx, i) + 1 == |leaders|
  {
    assert LinkOk(links[i], Dist(|ids|, mx, i) + 1 - |leaders|, |leaders| == |ids|, ids[mx]);
  }

  lemma {:induction false} OtherLinks(ids: seq<int>, mx: nat, links: seq<seq<Message>>, leaders: seq<int>, i: nat,
                                      j: nat)
    requires LapOk(ids, mx, links, leaders) && i < |ids| && j < |ids| && j != i
    requires Dist(|ids|, mx, i) + 1 == |leaders|
    ensures if Dist(|ids|, mx, j) < |leaders| then links[j] == [] else OnlyVotes(links[j])
  {
    assert LinkOk(links[j], Dist(|ids|, mx, j) + 1 - |leaders|, |leaders| == |ids|, ids[mx]);
  }

  lemma {:induction false} PopLeader(ids: seq<int>, mx: nat, s: Ring, i: nat)
    requires Core(ids, mx, s) && i < |ids| && s.links[i] != [] && s.links[i][0].Leader?
    ensures s.links[i] == [Leader(ids[mx])] && Dist(|ids|, mx, i) + 1 == |s.leaders|
    ensures VotesOk(ids, Popped(s, i).links, s.votes)
    ensures LapLinks(ids, mx, Popped(s, i).links, |s.leaders|)
  {
    PopVotes(ids, s.links, s.votes, i);
    LeaderLink(ids, mx, s.links, s.leaders, i);
    forall j | 0 <= j < |ids| && j != i
      ensures if Dist(|ids|, mx, j) < |s.leaders| then s.links[j] == [] else OnlyVotes(s.links[j])
    {
      OtherLinks(ids, mx, s.links, s.leaders, i, j);
    }
  }

  lemma {:induction false} TakeLeaderKeeps(ids: seq<int>, mx: nat, s: Ring, t: nat)
    requires Core(ids, mx, s) && CanStep(|ids|, s, Take(t))
    requires s.links[Prev(|ids|, t)][0].Leader?
    ensures Kept(ids, mx, s, Take(t))
  {
    var n, i, m := |ids|, Prev(|ids|, t), Leader(ids[mx]);
    PopLeader(ids, mx, s, i);
    if |s.leaders| < n {
      assert Dist(n, mx, t) == |s.leaders| && t != mx;
      var node := TakeLast(ids, s, t, m);
      LeadersStep(ids, mx, Popped(s, i), t, node, s.heard[t := s.heard[t] + [ids[mx]]]);
    } else {
      LapEnds(ids, mx, s, t);
    }
  }

  /** The winner takes its own LEADER: nothing is left in flight. */
  lemma {:induction false} LapEnds(ids: seq<int>, mx: nat, s: Ring, t: nat)
    requires Core(ids, mx, s) && CanStep(|ids|, s, Take(t)) && |s.leaders| == |ids|
    requires s.links[Prev(|ids|, t)][0] == Leader(ids[mx])
    ensures Kept(ids, mx, s, Take(t))
  {
    PopLeader(ids, mx, s, Prev(|ids|, t));
    assert t == mx;
    TornDownHandles(s.nodes[t], ids[t], t == mx, Leader(ids[mx]));
  }

  /** What taking a VOTE amounts to on a torn-down process: it is gone. */
  lemma {:induction false} TornDownDrops(ids: seq<int>, mx: nat, s: Ring, t: nat)
    requires Core(ids, mx, s) && CanStep(|ids|, s, Take(t))
    requires s.links[Prev(|ids|, t)][0].Vote? && Dist(|ids|, mx, t) < |s.leaders|
    ensures Safe(|ids|, s, Take(t)) && After(|ids|, s, Take(t)) == Popped(s, Prev(|ids|, t))
  {
    var m := s.links[Prev(|ids|, t)][0];
    if m.id == ids[t] {
      HomeIsMax(ids, mx, s, t);
    }
    TornDownHandles(s.nodes[t], ids[t], t == mx, m);
    assert s.nodes[t := s.nodes[t]] == s.nodes;
  }

  lemma {:induction false} TornDownTakes(ids: seq<int>, mx: nat, s: Ring, t: nat)
    requires Core(ids, mx, s) && CanStep(|ids|, s, Take(t))
    requires s.links[Prev(|ids|, t)][0].Vote? && Dist(|ids|, mx, t) < |s.leaders|
    ensures Kept(ids, mx, s, Take(t))
  {
    TornDownDrops(ids, mx, s, t);
    PopCore(ids, mx, s, Prev(|ids|, t));
  }

  /** Every enabled event is handled without tripping and keeps the invariant. */
  lemma {:induction false} StepKeeps(ids: seq<int>, mx: nat, s: Ring, e: Event)
    requires Inv(ids, mx, s) && CanStep(|ids|, s, e)
    ensures Kept(ids, mx, s, e)
  {
    match e
    case Tick(t) => TickKeeps(ids, mx, s, t);
    case Take(t) =>
      var m := s.links[Prev(|ids|, t)][0];
      if m.Leader? {
        TakeLeaderKeeps(ids, mx, s, t);
      } else if Dist(|ids|, mx, t) < |s.leaders| {
        TornDownTakes(ids, mx, s, t);
      } else if m.id == ids[t] {
        WinKeeps(ids, mx, s, t);
      } else {
        TakeVoteKeeps(ids, mx, s, t, m.id);
      }
  }

  // ----- The flags -----

  lemma {:induction false} TornDownFlags(ids: seq<int>, mx: nat, s: Ring, t: nat)
    requires Core(ids, mx, s) && FlagsDown(ids, mx, s) && CanStep(|ids|, s, Take(t)) && Safe(|ids|, s, Take(t))
    requires s.links[Prev(|ids|, t)][0].Vote? && Dist(|ids|, mx, t) < |s.leaders|
    ensures FlagsDown(ids, mx, After(|ids|, s, Take(t)))
  {
    var i := Prev(|ids|, t);
    TornDownDrops(ids, mx, s, t);
    assert LinkOk(s.links[i], Dist(|ids|, mx, i) + 1 - |s.leaders|, |s.leaders| == |ids|, ids[mx]);
  }

  lemma {:induction false} VoteFlags(ids: seq<int>, mx: nat, s: Ring, t: nat)
    requires Core(ids, mx, s) && FlagsDown(ids, mx, s) && CanStep(|ids|, s, Take(t)) && Safe(|ids|, s, Take(t))
    requires s.links[Prev(|ids|, t)][0].Vote? && s.links[Prev(|ids|, t)][0].id != ids[t]
    requires Dist(|ids|, mx, t) >= |s.leaders|
    ensures FlagsDown(ids, mx, After(|ids|, s, Take(t)))
  {
    TakeVote(ids, s, t, s.links[Prev(|ids|, t)][0].id);
  }

  lemma {:induction false} WinnerFlags(ids: seq<int>, mx: nat, s: Ring, t: nat)
    requires Core(ids, mx, s) && FlagsDown(ids, mx, s) && CanStep(|ids|, s, Take(t)) && Safe(|ids|, s, Take(t))
    requires s.links[Prev(|ids|, t)][0] == Vote(ids[t])
    requires Dist(|ids|, mx, t) >= |s.leaders|
    ensures FlagsDown(ids, mx, After(|ids|, s, Take(t)))
  {
    HomeIsMax(ids, mx, s, t);
    AboveOne(ids, mx);
    var node := TakeLast(ids, s, t, Vote(ids[t]));
  }

  lemma {:induction false} LeavesFlags(ids: seq<int>, mx: nat, s: Ring, t: nat, node: Node, heard: seq<seq<int>>)
    requires FlagsDown(ids, mx, s) && t < |ids| && t != mx && Dist(|ids|, mx, t) == |s.leaders|
    requires !node.participant && |heard| == |ids|
    ensures FlagsDown(ids, mx, Emit(s.(nodes := s.nodes[t := node], heard := heard), t, [Leader(ids[mx])]))
  {
    forall q | 0 <= q < |ids|
      ensures q == t <==> Dist(|ids|, mx, q) == |s.leaders|
    {
    }
  }

  lemma {:induction false} FollowerFlags(ids: seq<int>, mx: nat, s: Ring, t: nat)
    requires Core(ids, mx, s) && FlagsDown(ids, mx, s) && CanStep(|ids|, s, Take(t)) && Safe(|ids|, s, Take(t))
    requires s.links[Prev(|ids|, t)] == [Leader(ids[mx])] && t != mx && Dist(|ids|, mx, t) == |s.leaders|
    ensures FlagsDown(ids, mx, After(|ids|, s, Take(t)))
  {
    var node := TakeLast(ids, s, t, Leader(ids[mx]));
    LeavesFlags(ids, mx, Popped(s, Prev(|ids|, t)), t, node, s.heard[t := s.heard[t] + [ids[mx]]]);
  }

  lemma {:induction false} LeaderFlags(ids: seq<int>, mx: nat, s: Ring, t: nat)
    requires Core(ids, mx, s) && FlagsDown(ids, mx, s) && CanStep(|ids|, s, Take(t)) && Safe(|ids|, s, Take(t))
    requires s.links[Prev(|ids|, t)][0].Leader?
    ensures FlagsDown(ids, mx, After(|ids|, s, Take(t)))
  {
    PopLeader(ids, mx, s, Prev(|ids|, t));
    if t == mx {
      TornDownHandles(s.nodes[t], ids[t], true, Leader(ids[mx]));
    } else {
      FollowerFlags(ids, mx, s, t);
    }
  }

  lemma {:induction false} FlagsStayDown(ids: seq<int>, mx: nat, s: Ring, e: Event)
    requires Inv(ids, mx, s) && FlagsDown(ids, mx, s) && CanStep(|ids|, s, e) && Safe(|ids|, s, e)
    ensures FlagsDown(ids, mx, After(|ids|, s, e))
  {
    match e
    case Tick(_) =>
    case Take(t) =>
      if s.links[Prev(|ids|, t)][0].Leader? {
        LeaderFlags(ids, mx, s, t);
      } else if Dist(|ids|, mx, t) < |s.leaders| {
        TornDownFlags(ids, mx, s, t);
      } else if s.links[Prev(|ids|, t)][0].id == ids[t] {
        WinnerFlags(ids, mx, s, t);
      } else {
        VoteFlags(ids, mx, s, t);
      }
  }
}
