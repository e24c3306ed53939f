/** The text of a group message: the vector of counters (get_deps_str and get_deps_int in
    chat-c/client/data_structure.c) and the frame around it (chat-c/client/client_s.c and clear_message). */
module GroupFrame {
  import opened Wrappers
  import opened Text

  const MAX_GROUP_SIZE: nat := 10
  const BUFFER_SIZE: nat := 256
  const DEPS_STR_SIZE: nat := MAX_GROUP_SIZE * 5  // DEPENDENCY_STR and the receiver's sender_dep_str
  const SCRATCH_SIZE: nat := MAX_GROUP_SIZE + 1   // the sender_dep_str of handle_group_receive and deliver_messages
  const LINE_SIZE: nat := BUFFER_SIZE - 127 - 1   // what fgets takes of a line

  // ----- The vector as text -----

  function CommaText(v: seq<nat>): string {
    if v == [] then "" else Decimal(v[0]) + "," + CommaText(v[1..])
  }

  /** Numbers separated by commas. */
  function DepsText(v: seq<nat>): string
    requires v != []
  {
    if |v| == 1 then Decimal(v[0]) else Decimal(v[0]) + "," + DepsText(v[1..])
  }

  lemma {:induction false} Regroup(a: string, b: string, c: string, d: string, e: string)
    ensures a + b + c + d + e == a + (b + (c + (d + e)))
    ensures a + (b + c + d) == (a + b) + c + d
    ensures a + b + c == a + (b + c)
  {
  }

  lemma {:induction false} CommaTextSnoc(v: seq<nat>, x: nat)
    ensures CommaText(v + [x]) == CommaText(v) + Decimal(x) + ","
  {
    if v == [] {
      assert [x][1..] == [];
    } else {
      CommaTextSnoc(v[1..], x);
      assert (v + [x])[1..] == v[1..] + [x];
      Regroup(Decimal(v[0]) + ",", CommaText(v[1..]), Decimal(x), ",", "");
    }
  }

  lemma {:induction false} CommaTextCut(v: seq<nat>)
    requires v != []
    ensures CommaText(v) == DepsText(v) + ","
  {
    if |v| > 1 {
      CommaTextCut(v[1..]);
    } else {
      assert v[1..] == [];
    }
  }

  /** `get_deps_str`: prints every element with a comma and cuts the last comma off. */
  method GetDepsStr(v: array<nat>) returns (text: string)
    requires v.Length > 0
    ensures text == DepsText(v[..])
  {
    text := "";
    for i := 0 to v.Length
      invariant text == CommaText(v[..i])
    {
      text := text + Decimal(v[i]) + ",";
      CommaTextSnoc(v[..i], v[i]);
      assert v[..i] + [v[i]] == v[..i + 1];
    }
    assert v[..v.Length] == v[..];
    CommaTextCut(v[..]);
    text := text[..|text| - 1];
  }

  /** Position of the first comma, |s| when there is none. */
  function Comma(s: string): (k: nat)
    ensures k <= |s| && (k < |s| ==> s[k] == ',') && ',' !in s[..k]
  {
    if s == "" || s[0] == ',' then 0 else 1 + Comma(s[1..])
  }

  /** What strtok leaves behind for its next call. */
  function Rest(s: string): (r: string)
    ensures s != "" ==> |r| < |s|
  {
    if Comma(s) < |s| then s[Comma(s) + 1..] else ""
  }

  /** The numbers strtok and atoi find between commas; empty pieces are skipped. */
  function Numbers(s: string): seq<int>
    decreases |s|
  {
    if s == "" then []
    else if s[0] == ',' then Numbers(s[1..])
    else [Atoi(s[..Comma(s)])] + Numbers(Rest(s))
  }

  /** `get_deps_int`. */
  method GetDepsInt(text: string) returns (v: seq<int>)
    ensures v == Numbers(text)
  {
    v := [];
    var rest := text;
    while rest != ""
      invariant v + Numbers(rest) == Numbers(text)
      decreases |rest|
    {
      if rest[0] == ',' {
        rest := rest[1..];
      } else {
        v, rest := v + [Atoi(rest[..Comma(rest)])], Rest(rest);
      }
    }
  }

  lemma {:induction false} CommaAfter(s: string, rest: string)
    requires ',' !in s && (rest == "" || rest[0] == ',')
    ensures Comma(s + rest) == |s|
  {
    if s == "" {
      assert s + rest == rest;
    } else {
      assert (s + rest)[1..] == s[1..] + rest;
      assert s[0] in s;
      CommaAfter(s[1..], rest);
    }
  }

  /** Numbers are read piece by piece: a comma separates and counts for nothing else, so that empty pieces are
      skipped; and a piece is read by atoi. */
  lemma {:induction false} NumbersPieces(a: string, b: string)
    ensures Numbers(a + ("," + b)) == Numbers(a) + Numbers(b)
    ensures ',' !in a ==> Numbers(a) == if a == "" then [] else [Atoi(a)]
    decreases |a|
  {
    if a == "" || a[0] == ',' {
      LeadingComma(a, b);
      if a != "" {
        NumbersPieces(a[1..], b);
      }
    } else if ',' !in a {
      PieceEnds(a, b);
    } else {
      FirstPiece(a, b);
      NumbersPieces(a[Comma(a) + 1..], b);
      Concat(Atoi(a[..Comma(a)]), Numbers(a[Comma(a) + 1..]), Numbers(b));
    }
  }

  lemma {:induction false} Concat(x: int, v: seq<int>, w: seq<int>)
    ensures [x] + (v + w) == [x] + v + w
  {
  }

  lemma {:induction false} LeadingComma(a: string, b: string)
    requires a == "" || a[0] == ','
    ensures a == "" ==> Numbers(a + ("," + b)) == Numbers(b)
    ensures a != "" ==> Numbers(a) == Numbers(a[1..]) && Numbers(a + ("," + b)) == Numbers(a[1..] + ("," + b))
  {
    if a == "" {
      assert a + ("," + b) == "," + b && ("," + b)[1..] == b;
    } else {
      assert (a + ("," + b))[1..] == a[1..] + ("," + b);
    }
  }

  lemma {:induction false} FirstPiece(a: string, b: string)
    requires ',' in a && a[0] != ','
    ensures Comma(a) < |a|
    ensures Numbers(a) == [Atoi(a[..Comma(a)])] + Numbers(a[Comma(a) + 1..])
    ensures Numbers(a + ("," + b)) == [Atoi(a[..Comma(a)])] + Numbers(a[Comma(a) + 1..] + ("," + b))
  {
    var k, s := Comma(a), a + ("," + b);
    CommaWithin(a, "," + b);
    assert s[..k] == a[..k] && s[k + 1..] == a[k + 1..] + ("," + b);
  }

  lemma {:induction false} PieceEnds(a: string, b: string)
    requires a != "" && ',' !in a
    ensures Numbers(a) == [Atoi(a)] && Numbers(a + ("," + b)) == [Atoi(a)] + Numbers(b)
  {
    CommaAfter(a, "");
    CommaAfter(a, "," + b);
    assert a + "" == a && a[..|a|] == a && a[0] in a;
    var s := a + ("," + b);
    assert s[..|a|] == a && s[|a| + 1..] == b;
  }

  lemma {:induction false} CommaWithin(a: string, rest: string)
    requires ',' in a
    ensures Comma(a) < |a| && Comma(a + rest) == Comma(a)
  {
    if a[0] != ',' {
      assert (a + rest)[1..] == a[1..] + rest;
      CommaWithin(a[1..], rest);
    }
  }

  lemma {:induction false} NumbersFirst(n: nat, rest: string)
    requires rest == "" || rest[0] == ','
    ensures Numbers(Decimal(n) + rest) == [n] + Numbers(if rest == "" then "" else rest[1..])
  {
    var d, s := Decimal(n), Decimal(n) + rest;
    assert ',' !in d;
    CommaAfter(d, rest);
    AtoiDecimal(n);
    assert s[..|d|] == d && IsDigit(s[0]) && s[0] != ',';
    assert rest != "" ==> s[|d| + 1..] == rest[1..];
  }

  lemma {:induction false} NumbersOfMore(n: nat, tail: string)
    ensures Numbers(Decimal(n) + "," + tail) == [n] + Numbers(tail)
  {
    NumbersFirst(n, "," + tail);
    Regroup(Decimal(n), ",", tail, "", "");
    assert ("," + tail)[1..] == tail;
  }

  /** Printing a vector and reading it back gives the vector, whatever its length and elements. */
  lemma {:induction false} DepsRoundTrip(v: seq<nat>)
    requires v != []
    ensures Numbers(DepsText(v)) == v
  {
    if |v| == 1 {
      NumbersFirst(v[0], "");
      assert DepsText(v) == Decimal(v[0]) + "";
    } else {
      NumbersOfMore(v[0], DepsText(v[1..]));
      DepsRoundTrip(v[1..]);
    }
  }

  /** A 32-bit counter and its comma, with the closing NUL, fill at most the 12 bytes of `buf`. */
  lemma {:induction false} ElementFits(n: nat)
    requires n < 0x8000_0000
    ensures |Decimal(n) + ","| + 1 <= 12
  {
    assert Power(10) == 10_000_000_000 by {
      assert Power(5) == 100_000;
    }
    DecimalLength(n, 10);
  }

  // ----- The frame -----

  /** A message as the sender prints it, up to the end of its text line. */
  function Clean(group: nat, id: nat, index: nat, deps: seq<nat>, text: string): string
    requires deps != []
  {
    "\n\t" + "GROUP_ID:" + Decimal(group)
    + ("\n\t" + "SENDER_ID:" + Decimal(id))
    + ("\n\t" + "SENDER_CLK_INDEX:" + Decimal(index))
    + ("\n\t" + "DEPS:" + DepsText(deps))
    + ("\n\t" + "MESSAGE:" + text)
  }

  /** What goes out: `input` is the line as fgets leaves it, with its newline unless it was too long;
      two more newlines follow, and 'x' up to the size of the buffer. */
  function Frame(group: nat, id: nat, index: nat, deps: seq<nat>, input: string, padding: string): string
    requires deps != []
  {
    Clean(group, id, index, deps, input) + "\n\n" + padding
  }

  /** `clear_message`: everything before the first blank line. */
  function Clear(s: string): Option<string> {
    if |s| < 2 then None
    else if s[0] == '\n' && s[1] == '\n' then Some("")
    else
      var rest :- Clear(s[1..]);
      Some([s[0]] + rest)
  }

  datatype Fields = Fields(group: int, id: int, index: int, deps: string)

  function ScanIntField(lit: string, s: string): Option<(int, string)> {
    var t :- ScanLiteral(lit, s);
    ScanInt(t)
  }

  function ScanWordField(lit: string, s: string): Option<(string, string)> {
    var t :- ScanLiteral(lit, s);
    ScanWord(t)
  }

  /** The sscanf of append_to_holdback_queue and deliver_messages: None unless all five conversions succeed.
      Of the fifth, the text, nothing is kept. */
  function Parse(s: string): Option<Fields> {
    var g :- ScanIntField("GROUP_ID:", s);
    var i :- ScanIntField("SENDER_ID:", g.1);
    var c :- ScanIntField("SENDER_CLK_INDEX:", i.1);
    var d :- ScanWordField("DEPS:", c.1);
    var m :- ScanWordField("MESSAGE:", d.1);
    Some(Fields(g.0, i.0, c.0, d.0))
  }

  // ----- Cutting the frame -----

  /** Every newline is followed by something else within s. */
  ghost predicate Tight(s: string) {
    forall i :: 0 <= i < |s| && s[i] == '\n' ==> i + 1 < |s| && s[i + 1] != '\n'
  }

  lemma {:induction false} ClearTight(s: string, rest: string)
    requires Tight(s)
    ensures Clear(s + "\n\n" + rest) == Some(s)
  {
    var t := s + "\n\n" + rest;
    if s == "" {
      assert t[0] == t[1] == '\n';
    } else {
      assert Tight(s[1..]);
      ClearTight(s[1..], rest);
      assert t[1..] == s[1..] + "\n\n" + rest;
      assert s == [s[0]] + s[1..];
      assert t[0] == s[0] && (|s| > 1 ==> t[1] == s[1]);
    }
  }

  lemma {:induction false} PieceTight(lit: string, word: string)
    requires lit != "" && '\n' !in lit && '\n' !in word
    ensures Tight("\n\t" + lit + word)
  {
    var s := "\n\t" + lit + word;
    assert forall i :: 2 <= i < |s| ==> s[i] in lit || s[i] in word;
  }

  lemma {:induction false} JoinTight(a: string, b: string)
    requires Tight(a) && Tight(b)
    ensures Tight(a + b)
  {
  }

  lemma {:induction false} DepsTextChars(v: seq<nat>)
    requires v != []
    ensures |DepsText(v)| > 0 && forall i :: 0 <= i < |DepsText(v)| ==> !IsSpace(DepsText(v)[i])
  {
    if |v| > 1 {
      DepsTextChars(v[1..]);
    }
  }

  lemma {:induction false} CleanTight(group: nat, id: nat, index: nat, deps: seq<nat>, text: string)
    requires deps != [] && '\n' !in text
    ensures Tight(Clean(group, id, index, deps, text))
  {
    DepsTextChars(deps);
    var g, i := "\n\t" + "GROUP_ID:" + Decimal(group), "\n\t" + "SENDER_ID:" + Decimal(id);
    var c, d := "\n\t" + "SENDER_CLK_INDEX:" + Decimal(index), "\n\t" + "DEPS:" + DepsText(deps);
    PieceTight("GROUP_ID:", Decimal(group));
    PieceTight("SENDER_ID:", Decimal(id));
    PieceTight("SENDER_CLK_INDEX:", Decimal(index));
    PieceTight("DEPS:", DepsText(deps));
    PieceTight("MESSAGE:", text);
    JoinTight(g, i);
    JoinTight(g + i, c);
    JoinTight(g + i + c, d);
    JoinTight(g + i + c + d, "\n\t" + "MESSAGE:" + text);
  }

  /** Cutting at the first blank line gives back the whole text line, with or without the newline of fgets. */
  lemma {:induction false} FrameCut(group: nat, id: nat, index: nat, deps: seq<nat>, text: string, padding: string)
    requires deps != [] && '\n' !in text
    ensures Clear(Frame(group, id, index, deps, text + "\n", padding)) == Some(Clean(group, id, index, deps, text))
    ensures Clear(Frame(group, id, index, deps, text, padding)) == Some(Clean(group, id, index, deps, text))
  {
    CleanTight(group, id, index, deps, text);
    ClearTight(Clean(group, id, index, deps, text), "\n" + padding);
    ClearTight(Clean(group, id, index, deps, text), padding);
    assert Frame(group, id, index, deps, text + "\n", padding) ==
           Clean(group, id, index, deps, text) + "\n\n" + ("\n" + padding);
  }

  /** `clear_message` finds a blank line wherever there is one, and cuts at the first. */
  lemma {:induction false} ClearFirst(s: string, i: nat)
    requires i + 1 < |s| && s[i] == s[i + 1] == '\n'
    ensures Clear(s).Some? && |Clear(s).value| <= i && Clear(s).value <= s
    ensures var k := |Clear(s).value|; s[k] == s[k + 1] == '\n'
    ensures forall j :: 0 <= j < |Clear(s).value| ==> !(s[j] == s[j + 1] == '\n')
  {
    if i > 0 && !(s[0] == s[1] == '\n') {
      ClearFirst(s[1..], i - 1);
    }
  }

  lemma {:induction false} ClearNone(s: string)
    requires Clear(s).Some?
    ensures exists i :: 0 <= i < |s| - 1 && s[i] == s[i + 1] == '\n'
  {
    if !(s[0] == s[1] == '\n') {
      ClearNone(s[1..]);
      var i :| 0 <= i < |s[1..]| - 1 && s[1..][i] == s[1..][i + 1] == '\n';
      assert s[i + 1] == s[i + 2] == '\n';
    }
  }

  /** A vector to the letter. */
  lemma {:induction false} DepsExample()
    ensures DepsText([2, 30]) == "2,30"
  {
    assert Decimal(3) == "3";
    assert [2, 30][1..] == [30];
  }

  // ----- Parsing it -----

  lemma {:induction false} IntFieldThen(lit: string, n: nat, rest: string)
    requires IsLiteral(lit) && EndsNumber(rest)
    ensures ScanIntField(lit, "\n\t" + lit + Decimal(n) + rest) == Some((n, rest))
  {
    LiteralThen(lit, Decimal(n) + rest);
    SignedDecimal(n, rest);
    assert "\n\t" + lit + Decimal(n) + rest == "\n\t" + lit + (Decimal(n) + rest);
    assert IsDigit((Decimal(n) + rest)[0]);
  }

  lemma {:induction false} WordFieldThen(lit: string, w: string, rest: string)
    requires IsLiteral(lit) && w != ""
    requires forall i :: 0 <= i < |w| ==> !IsSpace(w[i])
    requires rest == "" || IsSpace(rest[0])
    ensures ScanWordField(lit, "\n\t" + lit + w + rest) == Some((w, rest))
  {
    LiteralThen(lit, w + rest);
    WordThen(w, rest);
    assert "\n\t" + lit + w + rest == "\n\t" + lit + (w + rest);
    assert (w + rest)[0] == w[0];
  }

  lemma {:induction false} TextField(text: string)
    ensures ScanWordField("MESSAGE:", "\n\t" + "MESSAGE:" + text).Some? <==> !Blank(text)
  {
    LiteralThen("MESSAGE:", text);
    SkipBlank(text);
  }

  /** The receiver reads back every field exactly when the text is not blank; a blank text makes the
      fifth conversion fail and with it the whole message. */
  lemma {:induction false} FrameRoundTrip(group: nat, id: nat, index: nat, deps: seq<nat>, text: string)
    requires deps != []
    ensures Parse(Clean(group, id, index, deps, text)) ==
            if Blank(text) then None else Some(Fields(group, id, index, DepsText(deps)))
  {
    DepsTextChars(deps);
    var m := "\n\t" + "MESSAGE:" + text;
    var d := "\n\t" + "DEPS:" + DepsText(deps) + m;
    var c := "\n\t" + "SENDER_CLK_INDEX:" + Decimal(index) + d;
    var i := "\n\t" + "SENDER_ID:" + Decimal(id) + c;
    IntFieldThen("GROUP_ID:", group, i);
    IntFieldThen("SENDER_ID:", id, c);
    IntFieldThen("SENDER_CLK_INDEX:", index, d);
    WordFieldThen("DEPS:", DepsText(deps), m);
    TextField(text);
    Regroup("\n\t" + "GROUP_ID:" + Decimal(group), "\n\t" + "SENDER_ID:" + Decimal(id),
            "\n\t" + "SENDER_CLK_INDEX:" + Decimal(index), "\n\t" + "DEPS:" + DepsText(deps), m);
  }

  // ----- Sizes -----

  /** How many digits the elements have in all. */
  function DigitsIn(v: seq<nat>): nat {
    if v == [] then 0 else |Decimal(v[0])| + DigitsIn(v[1..])
  }

  lemma {:induction false} TextLengths(v: seq<nat>)
    requires v != []
    ensures |CommaText(v)| == DigitsIn(v) + |v| && |DepsText(v)| == DigitsIn(v) + |v| - 1
    ensures DigitsIn(v) >= |v|
  {
    if |v| > 1 {
      TextLengths(v[1..]);
    } else {
      assert v[1..] == [];
    }
  }

  /** No vector fits the arrays of eleven bytes into which `handle_group_receive` and `deliver_messages`
      scan its text a second and a third time. */
  lemma {:induction false} ScratchTooSmall(v: seq<nat>)
    requires |v| == MAX_GROUP_SIZE
    ensures |DepsText(v)| + 1 > SCRATCH_SIZE
  {
    TextLengths(v);
  }

  /** `get_deps_str` stays within DEPENDENCY_STR, where the last comma comes before it is cut off, exactly
      up to 39 digits in all; the array the receiver keeps the text in takes one more. */
  lemma {:induction false} DepsStrFits(v: seq<nat>)
    requires |v| == MAX_GROUP_SIZE
    ensures |CommaText(v)| + 1 <= DEPS_STR_SIZE <==> DigitsIn(v) <= 39
    ensures |DepsText(v)| + 1 <= DEPS_STR_SIZE <==> DigitsIn(v) <= 40
  {
    TextLengths(v);
  }

  lemma {:induction false} FrameLength(group: nat, id: nat, index: nat, deps: seq<nat>, input: string)
    requires deps != []
    ensures |Frame(group, id, index, deps, input, "")| ==
            60 + |Decimal(group)| + |Decimal(id)| + |Decimal(index)| + DigitsIn(deps) + |deps| + |input|
  {
    TextLengths(deps);
  }

  /** The message and its NUL fit in the send buffer exactly up to 185 characters of numbers and input. */
  lemma {:induction false} FrameFits(group: nat, id: nat, index: nat, deps: seq<nat>, input: string)
    requires |deps| == MAX_GROUP_SIZE
    ensures |Frame(group, id, index, deps, input, "")| + 1 <= BUFFER_SIZE <==>
            |Decimal(group)| + |Decimal(id)| + |Decimal(index)| + DigitsIn(deps) + |input| <= 185
  {
    FrameLength(group, id, index, deps, input);
  }

  /** So it fits whenever the vector fits DEPENDENCY_STR, with every 32-bit ID and every line fgets takes. */
  lemma {:induction false} FrameFitsWithDeps(id: nat, index: nat, deps: seq<nat>, input: string)
    requires |deps| == MAX_GROUP_SIZE && |CommaText(deps)| + 1 <= DEPS_STR_SIZE
    requires id < 0x8000_0000 && index < MAX_GROUP_SIZE && |input| <= LINE_SIZE
    ensures |Frame(0, id, index, deps, input, "")| + 1 <= BUFFER_SIZE
  {
    assert Power(1) == 10 && Power(10) == 10_000_000_000 by {
      assert Power(5) == 100_000;
    }
    DecimalLength(0, 1);
    DecimalLength(id, 10);
    DecimalLength(index, 1);
    DepsStrFits(deps);
    FrameFits(0, id, index, deps, input);
  }

  lemma {:induction false} DigitsOfSmall(v: seq<nat>)
    requires forall i :: 0 <= i < |v| ==> v[i] < 1000
    ensures DigitsIn(v) <= 3 * |v|
  {
    if v != [] {
      assert Power(3) == 1000;
      DecimalLength(v[0], 3);
      DigitsOfSmall(v[1..]);
    }
  }

  /** As they do as long as each of the ten counters is below 1000. */
  lemma {:induction false} SmallCountersFit(id: nat, index: nat, deps: seq<nat>, input: string)
    requires |deps| == MAX_GROUP_SIZE && forall i :: 0 <= i < |deps| ==> deps[i] < 1000
    requires id < 0x8000_0000 && index < MAX_GROUP_SIZE && |input| <= LINE_SIZE
    ensures |CommaText(deps)| + 1 <= DEPS_STR_SIZE
    ensures |Frame(0, id, index, deps, input, "")| + 1 <= BUFFER_SIZE
  {
    DigitsOfSmall(deps);
    DepsStrFits(deps);
    FrameFitsWithDeps(id, index, deps, input);
  }
}
