/** One process in the ring election (chat-c/election_lcr.c and the ELECTION branch of
    chat-c/socket_changes.c). During an election a process's list is
    [itself, the lost leader, its ring successor]. */
module Election {
  import opened ServerStruct

  datatype Message = Vote(id: int) | Leader(id: int)

  /** The part of a process an election touches: the global `participant` and the server list. */
  datatype Node = Node(list: seq<Entry>, participant: bool)

  /** What one call of `lcr_election` leaves behind: the process, the messages sent to the
      successor `list[2]`, and the code returned to the caller. */
  datatype Outcome = Outcome(node: Node, sent: seq<Message>, code: int)

  /** `lcr_election` follows `next->next` without a null test wherever it sends. */
  predicate Answerable(node: Node, m: Message) {
    var list := node.list;
    && |list| > 0
    && match m
       case Vote(v) =>
         if v > list[0].id then |list| != 2
         else if v < list[0].id then node.participant || |list| != 2
         else list[0].leader || |list| > 2
       case Leader(v) => v == list[0].id || |list| != 2
  }

  function Lcr(node: Node, m: Message): Outcome
    requires Answerable(node, m)
  {
    var list := node.list;
    var self := list[0];
    match m
    case Vote(v) =>
      if v > self.id then
        if |list| == 1 then Outcome(node, [], 0)
        else Outcome(node, [Vote(v)], 0)
      else if v < self.id then
        if |list| == 1 || node.participant then Outcome(node, [], 0)
        else Outcome(node.(participant := true), [Vote(self.id)], 0)
      else if self.leader then Outcome(node, [], 0)
      else
        var crowned := list[0 := self.(leader := true)];
        Outcome(Node(Deleted(crowned, crowned[1].id), true), [Leader(self.id)], v)
    case Leader(v) =>
      if v == self.id then Outcome(node.(participant := false), [], 0)
      else if |list| == 1 then Outcome(node, [], 0)
      else Outcome(Node(list[1 := list[1].(id := v, leader := true)], false), [Leader(v)], 1)
  }

  /** What `handle_socket_change` may do with the return code without following a null pointer:
      code 1 makes it take two nodes out of the list. */
  predicate Disposable(node: Node, code: int) {
    |node.list| > 0 && (code == 1 ==> |node.list| != 2)
  }

  /** The teardown that the return code asks for. */
  function Disposed(node: Node, code: int): Node
    requires Disposable(node, code)
  {
    var list := node.list;
    if |list| == 1 then node
    else if code == 1 then
      var less := Deleted(list, list[1].id);
      node.(list := Deleted(less, less[1].id))
    else if code == list[0].id then node.(list := Deleted(list, list[1].id))
    else node
  }

  predicate Manageable(node: Node, m: Message) {
    Answerable(node, m) && Disposable(Lcr(node, m).node, Lcr(node, m).code)
  }

  /** `handle_socket_change` on an ELECTION message: `lcr_election`, then the teardown. */
  function Handled(node: Node, m: Message): (Node, seq<Message>)
    requires Manageable(node, m)
  {
    var o := Lcr(node, m);
    (Disposed(o.node, o.code), o.sent)
  }

  /** `send_ele_msg`: the leader's heartbeat has timed out. */
  function TimedOut(node: Node): (Node, seq<Message>)
    requires |node.list| > 1
  {
    var list := node.list;
    if |list| == 2 then
      var crowned := list[0 := list[0].(leader := true)];
      (node.(list := Deleted(crowned, crowned[1].id)), [])
    else if node.participant then (node, [])
    else (node.(participant := true), [Vote(list[0].id)])
  }

  // ----- What a handled message amounts to, when nothing has been torn down yet -----

  predicate Intact(node: Node, id: int, succ: int) {
    && |node.list| == 3
    && node.list[0].id == id
    && !node.list[0].leader
    && node.list[2].id == succ
  }

  predicate TornDown(node: Node, id: int, leader: bool) {
    && |node.list| == 1
    && node.list[0].id == id
    && node.list[0].leader == leader
  }

  /** The outcome by cases; the codes 0 and 1 stay apart from a winner's ID only when that is above 1. */
  lemma {:induction false} IntactHandles(node: Node, id: int, succ: int, m: Message)
    requires Intact(node, id, succ) && id > 0
    requires m == Vote(id) ==> id != 1
    ensures Manageable(node, m)
    ensures var (node', sent) := Handled(node, m);
            match m
            case Vote(v) =>
              if v > id then node' == node && sent == [Vote(v)]
              else if v < id && node.participant then node' == node && sent == []
              else if v < id then node' == node.(participant := true) && sent == [Vote(id)]
              else node' == Node([node.list[0].(leader := true)], true) && sent == [Leader(id)]
            case Leader(v) =>
              if v == id then node' == node.(participant := false) && sent == []
              else node' == Node([node.list[0]], false) && sent == [Leader(v)]
  {
    assert FindId(node.list, node.list[1].id, 1) == 1;
    if m.Vote? && m.id == id {
      var crowned := node.list[0 := node.list[0].(leader := true)];
      assert FindId(crowned, crowned[1].id, 1) == 1;
      var list := Lcr(node, m).node.list;
      assert list == [crowned[0], crowned[2]];
      assert FindId(list, list[1].id, 1) == 1;
    } else if m.Leader? && m.id != id {
      var list := Lcr(node, m).node.list;
      assert FindId(list, list[1].id, 1) == 1;
      var less := Deleted(list, list[1].id);
      assert less == [list[0], list[2]];
      assert FindId(less, less[1].id, 1) == 1;
    }
  }

  /** A torn-down process sends nothing and stays as it is, except that the winner's own LEADER
      message coming back clears its flag. */
  lemma {:induction false} TornDownHandles(node: Node, id: int, leader: bool, m: Message)
    requires TornDown(node, id, leader)
    requires m == Vote(id) ==> leader
    requires id > 0
    ensures Manageable(node, m)
    ensures Handled(node, m) == (if m == Leader(id) then node.(participant := false) else node, [])
  {
  }

  /** The return code 1 of `lcr_election` is the "follower" code; a winner returns its own ID.
      The caller tells the two apart on an intact process exactly when that ID is not 1: with ID 1
      the caller would take a second node out of a list that has none left. */
  lemma {:induction false} CodeOneAmbiguous(node: Node, id: int, succ: int)
    requires Intact(node, id, succ)
    ensures Manageable(node, Vote(id)) <==> id != 1
  {
    var crowned := node.list[0 := node.list[0].(leader := true)];
    assert FindId(crowned, crowned[1].id, 1) == 1;
  }

  /** The last survivor has no successor to ask: it leads, alone in its list, without a message. */
  lemma {:induction false} LastOneLeads(node: Node)
    requires |node.list| == 2
    ensures TimedOut(node) == (Node([node.list[0].(leader := true)], node.participant), [])
  {
    var crowned := node.list[0 := node.list[0].(leader := true)];
    assert FindId(crowned, crowned[1].id, 1) == 1;
    assert RemoveAt(crowned, 1) == [node.list[0].(leader := true)];
  }
}
