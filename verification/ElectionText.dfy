/** Election messages as text: what chat-c/election_lcr.c prints and what handle_socket_change and
    leader_found read out of it. */
module ElectionText {
  import opened Wrappers
  import opened Text
  import opened Election

  function Keyword(m: Message): string {
    if m.Vote? then "VOTE" else "LEADER"
  }

  /** What `lcr_election` and `send_ele_msg` print, up to the blank line the receiver cuts at. */
  function Printed(m: Message): string
    requires m.id >= 0
  {
    "ELECTION:" + (Keyword(m) + (":" + Decimal(m.id)))
  }

  /** `leader_found`: the number behind the first "LEADER:", 0 if there is none. */
  function LeaderFound(s: string): int {
    if "LEADER:" <= s then Atoi(s[7..])
    else if s == "" then 0
    else LeaderFound(s[1..])
  }

  /** How many characters come before the first colon. */
  function Colon(s: string): (k: nat)
    ensures k <= |s| && (k < |s| ==> s[k] == ':') && ':' !in s[..k]
  {
    if s == "" || s[0] == ':' then 0 else 1 + Colon(s[1..])
  }

  /** The sscanf "ELECTION:%7[^:]:%d": keyword and ID. */
  function Scanned(s: string): Option<(string, int)> {
    if !("ELECTION:" <= s) then None
    else
      var t := s[9..];
      var k := if Colon(t) > 7 then 7 else Colon(t);
      if k == 0 || k == |t| || t[k] != ':' then None
      else
        var id :- ScanInt(t[k + 1..]);
        Some((t[..k], id.0))
  }

  /** What reaches `lcr_election`: a LEADER wherever one is found, else the keyword and ID as scanned;
      other keywords have no effect. */
  function Understood(s: string): Option<Message> {
    var scanned :- Scanned(s);
    var value := LeaderFound(s);
    if value != 0 then Some(Leader(value))
    else if scanned.0 == "VOTE" then Some(Vote(scanned.1))
    else if scanned.0 == "LEADER" then Some(Leader(scanned.1))
    else None
  }

  lemma {:induction false} Behind(a: string, b: string)
    ensures a <= a + b && (a + b)[|a|..] == b
  {
  }

  /** The search passes over whatever holds no 'A' within reach. */
  lemma {:induction false} SkipTo(a: string, b: string)
    requires 'A' !in a && 'A' !in if |b| > 2 then b[..2] else b
    ensures LeaderFound(a + b) == LeaderFound(b)
  {
    if a == "" {
      assert a + b == b;
    } else {
      var s := a + b;
      assert s[1..] == a[1..] + b;
      assert |s| > 2 ==> s[2] != 'A';
      assert !("LEADER:" <= s) by {
        assert "LEADER:"[2] == 'A';
      }
      SkipTo(a[1..], b);
    }
  }

  lemma {:induction false} NoLeaderInVote(id: nat)
    ensures LeaderFound("ELECTION:" + ("VOTE" + (":" + Decimal(id)))) == 0
  {
    var s := "ELECTION:" + ("VOTE" + (":" + Decimal(id)));
    assert 'A' !in "ELECTION:" && 'A' !in "VOTE" && 'A' !in Decimal(id);
    SkipTo(s, "");
    assert s + "" == s;
  }

  lemma {:induction false} LeaderFirst(digits: string)
    ensures LeaderFound("LEADER:" + digits) == Atoi(digits)
  {
    Behind("LEADER:", digits);
  }

  lemma {:induction false} LeaderBehind(id: nat)
    ensures LeaderFound("ELECTION:" + ("LEADER" + (":" + Decimal(id)))) == id
  {
    var d := Decimal(id);
    LeaderFirst(d);
    AtoiDecimal(id);
    assert 'A' !in "ELECTION:" && ("LEADER:" + d)[..2] == "LE";
    SkipTo("ELECTION:", "LEADER:" + d);
    LeaderColon(d);
  }

  lemma {:induction false} LeaderColon(digits: string)
    ensures "LEADER" + (":" + digits) == "LEADER:" + digits
  {
    assert "LEADER" + ":" == "LEADER:";
  }

  lemma {:induction false} ColonAt(word: string, rest: string)
    requires ':' !in word && rest != "" && rest[0] == ':'
    ensures Colon(word + rest) == |word|
  {
    if word == "" {
      assert word + rest == rest;
    } else {
      assert word[0] in word && (word + rest)[1..] == word[1..] + rest;
      ColonAt(word[1..], rest);
    }
  }

  lemma {:induction false} ScannedWord(word: string, id: nat)
    requires 0 < |word| <= 7 && ':' !in word
    ensures Scanned("ELECTION:" + (word + (":" + Decimal(id)))) == Some((word, id))
  {
    var d := Decimal(id);
    var t := word + (":" + d);
    Behind("ELECTION:", t);
    ColonAt(word, ":" + d);
    Behind(word, ":" + d);
    assert t[|word| + 1..] == t[|word|..][1..] == d && t[..|word|] == word && t[|word|] == ':';
    ScanDecimal(id);
  }

  lemma {:induction false} ScanDecimal(id: nat)
    ensures ScanInt(Decimal(id)) == Some((id, ""))
  {
    SignedDecimal(id, "");
    assert Decimal(id) + "" == Decimal(id) && IsDigit(Decimal(id)[0]);
  }

  /** Every message reaches the other end as itself. */
  lemma {:induction false} ElectionRoundTrip(m: Message)
    requires m.id >= 0
    ensures Understood(Printed(m)) == Some(m)
  {
    ScannedWord(Keyword(m), m.id);
    if m.Vote? {
      NoLeaderInVote(m.id);
    } else {
      LeaderBehind(m.id);
    }
  }

  /** The two messages to the letter. */
  lemma {:induction false} PrintedLetters(id: nat)
    ensures Printed(Vote(id)) == "ELECTION:VOTE:" + Decimal(id)
    ensures Printed(Leader(id)) == "ELECTION:LEADER:" + Decimal(id)
  {
    var d := Decimal(id);
    assert "ELECTION:" + ("VOTE" + (":" + d)) == "ELECTION:VOTE:" + d;
    assert "ELECTION:" + ("LEADER" + (":" + d)) == "ELECTION:LEADER:" + d;
  }
}
