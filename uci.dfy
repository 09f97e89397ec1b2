/**
  The part of the Universal Chess Interface (UCI) the engine speaks: the fixed
  replies to `uci`, `isready`, `ucinewgame` and `quit`, the `position` command's
  token indexing and the `go` command's parameter parser. A command arrives as
  its list of whitespace-separated tokens. The board of the rules engine is a
  value here: how it was set up and the UCI move strings pushed onto it.
*/
module Uci {
  import opened Wrappers

  /** A token list joined with single spaces (Python's `" ".join`). */
  function Join(tokens: seq<string>): string
  {
    if |tokens| == 0 then ""
    else if |tokens| == 1 then tokens[0]
    else tokens[0] + " " + Join(tokens[1..])
  }

  /** The inverse used to state round trips: cuts at every space (Python's `str.split(" ")`). */
  function Split(s: string): (r: seq<string>)
    ensures |r| >= 1
  {
    if s == [] then [""]
    else
      var rest := Split(s[1..]);
      if s[0] == ' ' then [""] + rest else [[s[0]] + rest[0]] + rest[1..]
  }

  /** Cutting at a space splits the two sides independently. */
  lemma {:induction false} SplitAtSpace(a: string, b: string)
    ensures Split(a + " " + b) == Split(a) + Split(b)
  {
    var s := a + " " + b;
    if a == [] {
      assert s == " " + b;
      assert s[1..] == b;
    } else {
      assert s[1..] == a[1..] + " " + b;
      SplitAtSpace(a[1..], b);
    }
  }

  lemma {:induction false} SplitWord(t: string)
    requires ' ' !in t
    ensures Split(t) == [t]
  {
    if t != [] {
      SplitWord(t[1..]);
      assert t == [t[0]] + t[1..];
    }
  }

  /** Joining space-free tokens and cutting at the spaces gives the tokens back. */
  lemma {:induction false} SplitJoin(tokens: seq<string>)
    requires |tokens| >= 1
    requires forall i :: 0 <= i < |tokens| ==> ' ' !in tokens[i]
    ensures Split(Join(tokens)) == tokens
  {
    SplitWord(tokens[0]);
    if |tokens| > 1 {
      SplitJoin(tokens[1..]);
      SplitAtSpace(tokens[0], Join(tokens[1..]));
      assert tokens == [tokens[0]] + tokens[1..];
    }
  }

  /** Python's `s[start:]` for a non-negative start: empty once past the end. */
  function Drop(s: seq<string>, start: nat): (r: seq<string>)
    ensures start <= |s| ==> r == s[start..]
    ensures start >= |s| ==> r == []
  {
    if start >= |s| then [] else s[start..]
  }

  /** Python's `s[start:stop]` for `0 <= start <= stop`: both ends clamped to the length. */
  function Slice(s: seq<string>, start: nat, stop: nat): (r: seq<string>)
    requires start <= stop
    ensures |r| == (if stop <= |s| then stop else |s|) - (if start <= |s| then start else |s|)
    ensures forall i :: 0 <= i < |r| ==> r[i] == s[start + i]
  {
    if start >= |s| then [] else if stop >= |s| then s[start..] else s[start..stop]
  }

  // ---------------------------------------------------------------------------
  // Options advertised in reply to `uci`

  /** An engine option: its name, its UCI type and the rest of its declaration. */
  datatype EngineOption = EngineOption(name: string, kind: string, rest: string)

  /** The option's declaration line. */
  function OptionLine(o: EngineOption): (line: string)
  {
    "option name " + o.name + " type " + o.kind + " " + o.rest
  }

  lemma JoinCons(t: string, ts: seq<string>)
    requires |ts| >= 1
    ensures Join([t] + ts) == t + " " + Join(ts)
  {
    assert ([t] + ts)[1..] == ts;
  }

  /** The line with every space between fields written out. */
  lemma OptionLineSpaced(o: EngineOption)
    ensures OptionLine(o) == "option" + " " + ("name" + " " + (o.name + " " + ("type" + " " + (o.kind + " " + o.rest))))
  {
    var tail := o.name + " " + ("type" + " " + (o.kind + " " + o.rest));
    assert "option name " == "option" + " " + "name" + " ";
    assert " type " == " " + "type" + " ";
    assert OptionLine(o) == "option name " + tail;
  }

  /** The line is the keywords and the fields joined by single spaces. */
  lemma OptionLineJoin(o: EngineOption)
    ensures OptionLine(o) == Join(["option", "name", o.name, "type", o.kind, o.rest])
  {
    OptionLineSpaced(o);
    JoinCons(o.kind, [o.rest]);
    JoinCons("type", [o.kind, o.rest]);
    JoinCons(o.name, ["type", o.kind, o.rest]);
    JoinCons("name", [o.name, "type", o.kind, o.rest]);
    JoinCons("option", ["name", o.name, "type", o.kind, o.rest]);
  }

  /** A space-free word followed by a space is one token. */
  lemma SplitAfterWord(w: string, rest: string)
    requires ' ' !in w
    ensures Split(w + " " + rest) == [w] + Split(rest)
  {
    SplitAtSpace(w, rest);
    SplitWord(w);
  }

  /** The fields after `option name `, cut at the spaces. */
  lemma OptionFieldsTokens(o: EngineOption)
    ensures Split(o.name + " " + ("type" + " " + (o.kind + " " + o.rest)))
         == Split(o.name) + (["type"] + (Split(o.kind) + Split(o.rest)))
  {
    var t4 := o.kind + " " + o.rest;
    SplitAtSpace(o.kind, o.rest);
    SplitAfterWord("type", t4);
    SplitAtSpace(o.name, "type" + " " + t4);
  }

  /** A GUI cutting the line at its spaces reads `option name`, the name's words,
      `type`, the type's words and the rest's words. */
  lemma OptionLineTokens(o: EngineOption)
    ensures Split(OptionLine(o)) == ["option"] + (["name"] + (Split(o.name) + (["type"] + (Split(o.kind) + Split(o.rest)))))
  {
    var t2 := o.name + " " + ("type" + " " + (o.kind + " " + o.rest));
    var fields := Split(o.name) + (["type"] + (Split(o.kind) + Split(o.rest)));
    OptionFieldsTokens(o);
    SplitAfterWord("name", t2);
    SplitAfterWord("option", "name" + " " + t2);
    OptionLineSpaced(o);
  }

  const Options: seq<EngineOption> := [
    EngineOption("Move Overhead", "spin", "default 0"),
    EngineOption("Threads", "spin", "default 1"),
    EngineOption("Hash", "spin", "default 1")
  ]

  function OptionLines(os: seq<EngineOption>): (lines: seq<string>)
    ensures |lines| == |os|
    ensures forall i :: 0 <= i < |os| ==> lines[i] == OptionLine(os[i])
  {
    if os == [] then [] else [OptionLine(os[0])] + OptionLines(os[1..])
  }

  /** The reply to `uci`: identification, one line per option, then `uciok`. */
  function UciLines(): seq<string>
  {
    ["id name my_bot", "id author diego"] + OptionLines(Options) + ["uciok"]
  }

  /** The three option lines as printed. */
  lemma OptionLinesText()
    ensures OptionLines(Options) == [
      "option name Move Overhead type spin default 0",
      "option name Threads type spin default 1",
      "option name Hash type spin default 1"]
  {
    var lines := OptionLines(Options);
    assert lines == [OptionLine(Options[0]), OptionLine(Options[1]), OptionLine(Options[2])];
    FirstOptionLineText();
    SecondOptionLineText();
    ThirdOptionLineText();
  }

  lemma FirstOptionLineText()
    ensures OptionLine(Options[0]) == "option name Move Overhead type spin default 0"
  {
  }

  lemma SecondOptionLineText()
    ensures OptionLine(Options[1]) == "option name Threads type spin default 1"
  {
  }

  lemma ThirdOptionLineText()
    ensures OptionLine(Options[2]) == "option name Hash type spin default 1"
  {
  }

  /** The reply to `uci` line by line. */
  lemma UciReply()
    ensures UciLines() == [
      "id name my_bot",
      "id author diego",
      "option name Move Overhead type spin default 0",
      "option name Threads type spin default 1",
      "option name Hash type spin default 1",
      "uciok"]
  {
    OptionLinesText();
  }

  // ---------------------------------------------------------------------------
  // Replies

  /** How the rules engine's board was set up. */
  datatype Setup = StartPos | FromFen(fen: string)

  /** The rules engine's board: its setup and the UCI move strings pushed since, oldest first. */
  datatype BoardState = BoardState(setup: Setup, moves: seq<string>)

  /** The reply to one command: whether to stop, the lines to print, the board for the
      next command and a log line. */
  datatype Response = Response(quit: bool, output: seq<string>, board: BoardState, log: Option<string>)

  /** What a command leads to: a reply, or the parsed `go` parameters handed to the
      search together with the current board. */
  datatype Outcome = Reply(response: Response) | Search(fields: map<string, string>, board: BoardState)

  /** The exceptions a command can raise. */
  datatype UciError =
    | IndexError                          // a token read past the end of the command
    | AssertionError                      // `position` followed by neither `startpos` nor `fen`
    | GoValueError(token: string)         // an unknown `go` parameter
    | CommandValueError(input: seq<string>) // an unknown command

  // ---------------------------------------------------------------------------
  // go

  /** `go` parameters that stand alone. */
  const Flags: set<string> := {"infinite", "ponder"}

  /** `go` parameters followed by one value token. */
  const ValueKeys: set<string> :=
    {"winc", "binc", "wtime", "btime", "movestogo", "depth", "nodes", "mate", "movetime"}

  /** The three kinds of parameter do not overlap. */
  lemma KeywordsDisjoint(t: string)
    ensures t in ValueKeys ==> t !in Flags && t != "searchmoves"
    ensures t in Flags ==> t != "searchmoves"
  {
  }

  /** The parameters still to read, `tokens`, parsed on top of the fields read so far. */
  function GoFields(tokens: seq<string>, fields: map<string, string>): (r: Result<map<string, string>, UciError>)
    ensures r.Ok? ==> fields.Keys <= r.value.Keys
    ensures r.Err? ==> r.error == IndexError || r.error.GoValueError?
    ensures r.Err? && r.error.GoValueError? ==>
              && r.error.token in tokens
              && r.error.token !in Flags && r.error.token !in ValueKeys && r.error.token != "searchmoves"
  {
    if tokens == [] then Ok(fields)
    else
      var term := tokens[0];
      if term in Flags then GoFields(tokens[1..], fields[term := ""])
      else if term == "searchmoves" then Ok(fields[term := Join(tokens[1..])])
      else if term in ValueKeys then
        if |tokens| < 2 then Err(IndexError) else GoFields(tokens[2..], fields[term := tokens[1]])
      else Err(GoValueError(term))
  }

  /** The fields of a `go` command: everything after the command token is parameters. */
  function ParsedGo(input: seq<string>): (r: Result<map<string, string>, UciError>)
    ensures r.Err? ==> |input| >= 2 && (r.error == IndexError || r.error.GoValueError?)
    ensures r.Err? && r.error.GoValueError? ==> r.error.token in input[1..]
  {
    if |input| <= 1 then Ok(map[]) else GoFields(input[1..], map[])
  }

  /** Walks the tokens with an index, filling the fields as it goes. */
  method ParseGo(input: seq<string>) returns (r: Result<map<string, string>, UciError>)
    ensures r == ParsedGo(input)
  {
    var idx := 0;
    idx := idx + 1;  // the command token itself
    var fields: map<string, string> := map[];
    while idx < |input|
      invariant 1 <= idx && (idx <= |input| || |input| == 0)
      invariant idx <= |input| ==> GoFields(input[idx..], fields) == ParsedGo(input)
      invariant |input| == 0 ==> fields == map[]
      decreases |input| - idx
    {
      var nextTerm := input[idx];
      assert input[idx..][1..] == input[idx + 1..];
      idx := idx + 1;
      if nextTerm in Flags {
        fields := fields[nextTerm := ""];
      } else if nextTerm == "searchmoves" {
        fields := fields[nextTerm := Join(input[idx..])];
        idx := |input|;
      } else if nextTerm in ValueKeys {
        if idx >= |input| {
          return Err(IndexError);
        }
        var value := input[idx];
        assert input[idx - 1..][2..] == input[idx + 1..];
        idx := idx + 1;
        fields := fields[nextTerm := value];
      } else {
        return Err(GoValueError(nextTerm));
      }
    }
    assert idx <= |input| ==> input[idx..] == [];
    return Ok(fields);
  }

  /** One well-formed `go` parameter: a flag, or a keyword with its value. */
  datatype Clause = Flag(key: string) | Valued(key: string, value: string)

  predicate ValidClause(c: Clause)
  {
    if c.Flag? then c.key in Flags else c.key in ValueKeys
  }

  function ClauseTokens(c: Clause): seq<string>
  {
    if c.Flag? then [c.key] else [c.key, c.value]
  }

  function ClauseValue(c: Clause): string
  {
    if c.Flag? then "" else c.value
  }

  /** The tokens of a list of clauses, in order. */
  function Tokens(cs: seq<Clause>): seq<string>
  {
    if cs == [] then [] else ClauseTokens(cs[0]) + Tokens(cs[1..])
  }

  /** The reference meaning of a clause list: each clause sets its key, in order. */
  function Assign(fields: map<string, string>, cs: seq<Clause>): map<string, string>
    decreases |cs|
  {
    if cs == [] then fields else Assign(fields[cs[0].key := ClauseValue(cs[0])], cs[1..])
  }

  /** Reading the tokens of well-formed clauses sets what the clauses say. */
  lemma {:induction false} GoFieldsClauses(cs: seq<Clause>, rest: seq<string>, fields: map<string, string>)
    requires forall i :: 0 <= i < |cs| ==> ValidClause(cs[i])
    ensures GoFields(Tokens(cs) + rest, fields) == GoFields(rest, Assign(fields, cs))
    decreases |cs|
  {
    if cs != [] {
      var c := cs[0];
      KeywordsDisjoint(c.key);
      var tail := Tokens(cs[1..]) + rest;
      assert Tokens(cs) + rest == ClauseTokens(c) + tail;
      var ts := ClauseTokens(c) + tail;
      GoFieldsClauses(cs[1..], rest, fields[c.key := ClauseValue(c)]);
      assert Assign(fields, cs) == Assign(fields[c.key := ClauseValue(c)], cs[1..]);
      if c.Flag? {
        assert ts[0] == c.key && ts[1..] == tail;
        assert GoFields(ts, fields) == GoFields(tail, fields[c.key := ""]);
      } else {
        assert ts[0] == c.key && ts[1] == c.value && ts[2..] == tail;
        assert GoFields(ts, fields) == GoFields(tail, fields[c.key := c.value]);
      }
    } else {
      assert Tokens(cs) + rest == rest;
    }
  }

  /** Everything after the command token is read as parameters. */
  lemma ParsedGoCommand(command: string, tail: seq<string>)
    ensures ParsedGo([command] + tail) == GoFields(tail, map[])
  {
    assert ([command] + tail)[1..] == tail;
  }

  /** `go` followed by well-formed clauses gives exactly their assignments. */
  lemma ParseGoClauses(command: string, cs: seq<Clause>)
    requires forall i :: 0 <= i < |cs| ==> ValidClause(cs[i])
    ensures ParsedGo([command] + Tokens(cs)) == Ok(Assign(map[], cs))
  {
    assert Tokens(cs) + [] == Tokens(cs);
    ParsedGoCommand(command, Tokens(cs));
    GoFieldsClauses(cs, [], map[]);
  }

  lemma GoFieldsSearchmoves(moves: seq<string>, fields: map<string, string>)
    ensures GoFields(["searchmoves"] + moves, fields) == Ok(fields["searchmoves" := Join(moves)])
  {
    assert (["searchmoves"] + moves)[1..] == moves;
  }

  /** `searchmoves` takes every remaining token, joined by single spaces, and ends the parse. */
  lemma ParseGoSearchmoves(command: string, cs: seq<Clause>, moves: seq<string>)
    requires forall i :: 0 <= i < |cs| ==> ValidClause(cs[i])
    ensures ParsedGo([command] + (Tokens(cs) + (["searchmoves"] + moves)))
         == Ok(Assign(map[], cs)["searchmoves" := Join(moves)])
  {
    ParsedGoCommand(command, Tokens(cs) + (["searchmoves"] + moves));
    GoFieldsClauses(cs, ["searchmoves"] + moves, map[]);
    GoFieldsSearchmoves(moves, Assign(map[], cs));
  }

  lemma GoFieldsLastKey(key: string, fields: map<string, string>)
    requires key in ValueKeys
    ensures GoFields([key], fields) == Err(IndexError)
  {
    KeywordsDisjoint(key);
  }

  /** A value keyword as the last token reads past the end. */
  lemma ParseGoMissingValue(command: string, cs: seq<Clause>, key: string)
    requires forall i :: 0 <= i < |cs| ==> ValidClause(cs[i])
    requires key in ValueKeys
    ensures ParsedGo([command] + (Tokens(cs) + [key])) == Err(IndexError)
  {
    ParsedGoCommand(command, Tokens(cs) + [key]);
    GoFieldsClauses(cs, [key], map[]);
    GoFieldsLastKey(key, Assign(map[], cs));
  }

  lemma GoFieldsUnknown(token: string, rest: seq<string>, fields: map<string, string>)
    requires token !in Flags && token !in ValueKeys && token != "searchmoves"
    ensures GoFields([token] + rest, fields) == Err(GoValueError(token))
  {
    assert ([token] + rest)[0] == token;
  }

  /** Any other token where a parameter is expected is rejected, whatever follows it. */
  lemma ParseGoUnknown(command: string, cs: seq<Clause>, token: string, rest: seq<string>)
    requires forall i :: 0 <= i < |cs| ==> ValidClause(cs[i])
    requires token !in Flags && token !in ValueKeys && token != "searchmoves"
    ensures ParsedGo([command] + (Tokens(cs) + ([token] + rest))) == Err(GoValueError(token))
  {
    ParsedGoCommand(command, Tokens(cs) + ([token] + rest));
    GoFieldsClauses(cs, [token] + rest, map[]);
    GoFieldsUnknown(token, rest, Assign(map[], cs));
  }

  /** A key no clause mentions keeps whatever it had. */
  lemma {:induction false} AssignUnmentioned(fields: map<string, string>, cs: seq<Clause>, key: string)
    requires forall i :: 0 <= i < |cs| ==> cs[i].key != key
    ensures key in Assign(fields, cs) <==> key in fields
    ensures key in fields ==> Assign(fields, cs)[key] == fields[key]
    decreases |cs|
  {
    if cs != [] {
      AssignUnmentioned(fields[cs[0].key := ClauseValue(cs[0])], cs[1..], key);
    }
  }

  /** A repeated parameter keeps the value of its last occurrence. */
  lemma {:induction false} AssignLastWins(fields: map<string, string>, cs: seq<Clause>, i: int)
    requires 0 <= i < |cs|
    requires forall j :: i < j < |cs| ==> cs[j].key != cs[i].key
    ensures cs[i].key in Assign(fields, cs)
    ensures Assign(fields, cs)[cs[i].key] == ClauseValue(cs[i])
    decreases |cs|
  {
    var next := fields[cs[0].key := ClauseValue(cs[0])];
    if i == 0 {
      AssignUnmentioned(next, cs[1..], cs[0].key);
    } else {
      AssignLastWins(next, cs[1..], i - 1);
    }
  }

  /** A successful parse only ever sets known parameters. */
  lemma {:induction false} GoFieldsKeys(tokens: seq<string>, fields: map<string, string>)
    requires GoFields(tokens, fields).Ok?
    ensures GoFields(tokens, fields).value.Keys <= fields.Keys + Flags + ValueKeys + {"searchmoves"}
  {
    if tokens != [] {
      var term := tokens[0];
      if term in Flags {
        GoFieldsKeys(tokens[1..], fields[term := ""]);
      } else if term in ValueKeys && term != "searchmoves" {
        GoFieldsKeys(tokens[2..], fields[term := tokens[1]]);
      }
    }
  }

  /** A command without parameters parses to no fields. */
  lemma ParseGoBare(input: seq<string>)
    requires |input| <= 1
    ensures ParsedGo(input) == Ok(map[])
  {
  }

  // ---------------------------------------------------------------------------
  // position

  function Push(b: BoardState, move: string): (r: BoardState)
    ensures r.setup == b.setup && r.moves == b.moves + [move]
  {
    BoardState(b.setup, b.moves + [move])
  }

  /** The board a `position` command sets up, or the exception it raises. */
  function PositionBoard(input: seq<string>): (r: Result<BoardState, UciError>)
    ensures r.Err? <==> |input| < 2 || (input[1] != "startpos" && input[1] != "fen")
    ensures r.Err? ==> r.error == (if |input| < 2 then IndexError else AssertionError)
    ensures r.Ok? && input[1] == "startpos" ==> r.value.setup == StartPos
    ensures r.Ok? ==> forall i :: 0 <= i < |r.value.moves| ==> r.value.moves[i] in input
  {
    if |input| < 2 then Err(IndexError)
    else if input[1] == "startpos" then Ok(BoardState(StartPos, Drop(input, 3)))
    else if input[1] != "fen" then Err(AssertionError)
    else Ok(BoardState(FromFen(Join(Slice(input, 2, 8))), Drop(input, 9)))
  }

  /** Sets up the board and pushes the listed moves one at a time. */
  method PositionResponse(input: seq<string>) returns (r: Result<Response, UciError>)
    ensures r.Ok? <==> PositionBoard(input).Ok?
    ensures r.Ok? ==> r.value == Response(false, [], PositionBoard(input).value, None)
    ensures r.Err? ==> r.error == PositionBoard(input).error
  {
    if |input| < 2 {
      return Err(IndexError);
    }
    var b: BoardState;
    var moveStart: nat;
    if input[1] == "startpos" {
      b := BoardState(StartPos, []);
      moveStart := 3;
    } else {
      if input[1] != "fen" {
        return Err(AssertionError);
      }
      var fen := Join(Slice(input, 2, 8));
      b := BoardState(FromFen(fen), []);
      moveStart := 9;
    }
    var toPlay := Drop(input, moveStart);
    for i := 0 to |toPlay|
      invariant b.moves == toPlay[..i]
      invariant b.setup == (if input[1] == "startpos" then StartPos else FromFen(Join(Slice(input, 2, 8))))
    {
      assert toPlay[..i + 1] == toPlay[..i] + [toPlay[i]];
      b := Push(b, toPlay[i]);
    }
    assert toPlay[..|toPlay|] == toPlay;
    return Ok(Response(false, [], b, None));
  }

  /** `position startpos ...` plays the tokens from index 3 on the starting position. */
  lemma PositionStartpos(input: seq<string>)
    requires |input| >= 2 && input[1] == "startpos"
    ensures PositionBoard(input) == Ok(BoardState(StartPos, Drop(input, 3)))
    ensures |input| >= 3 && input[2] == "moves" ==> PositionBoard(input).value.moves == input[3..]
  {
  }

  /** `position fen <six fields> moves ...` sets up exactly the FEN of those fields,
      which reads back field by field, and plays the moves after `moves`. */
  lemma PositionFen(fenFields: seq<string>, moves: seq<string>)
    requires |fenFields| == 6
    requires forall i :: 0 <= i < 6 ==> ' ' !in fenFields[i]
    ensures var input := ["position", "fen"] + fenFields + ["moves"] + moves;
            && PositionBoard(input).Ok?
            && PositionBoard(input).value.moves == moves
            && PositionBoard(input).value.setup.FromFen?
            && Split(PositionBoard(input).value.setup.fen) == fenFields
  {
    var input := ["position", "fen"] + fenFields + ["moves"] + moves;
    assert Slice(input, 2, 8) == fenFields;
    assert Drop(input, 9) == moves;
    SplitJoin(fenFields);
  }

  /** A `position` command too short to name a setup, or naming an unknown one, fails. */
  lemma PositionErrors(input: seq<string>)
    ensures |input| < 2 ==> PositionBoard(input) == Err(IndexError)
    ensures |input| >= 2 && input[1] != "startpos" && input[1] != "fen" ==> PositionBoard(input) == Err(AssertionError)
  {
  }

  // ---------------------------------------------------------------------------
  // Dispatch

  /** `position` and `go`; anything else is an unknown command. */
  function DynamicResponse(input: seq<string>, b: BoardState): (r: Result<Outcome, UciError>)
    ensures r.Ok? <==> |input| >= 1 && ((input[0] == "position" && PositionBoard(input).Ok?) ||
                                         (input[0] == "go" && ParsedGo(input).Ok?))
    ensures r.Ok? && r.value.Reply? ==>
              !r.value.response.quit && r.value.response.output == [] && r.value.response.log == None
    ensures r.Ok? && r.value.Search? ==> r.value.board == b
  {
    if |input| == 0 then Err(IndexError)
    else if input[0] == "position" then
      var p := PositionBoard(input);
      if p.Err? then Err(p.error) else Ok(Reply(Response(false, [], p.value, None)))
    else if input[0] == "go" then
      var g := ParsedGo(input);
      if g.Err? then Err(g.error) else Ok(Search(g.value, b))
    else Err(CommandValueError(input))
  }

  /** The commands with fixed replies, then the dynamic ones. */
  function CreateResponse(input: seq<string>, b: BoardState): (r: Result<Outcome, UciError>)
    ensures (r.Ok? && r.value.Reply? && r.value.response.quit) <==> |input| >= 1 && input[0] == "quit"
    ensures r.Ok? && r.value.Reply? ==> r.value.response.log == None
    ensures r.Ok? && r.value.Reply? && |input| >= 1 && input[0] != "position" ==> r.value.response.board == b
    ensures r.Ok? ==> |input| >= 1 && input[0] in {"uci", "quit", "isready", "ucinewgame", "position", "go"}
  {
    if |input| == 0 then Err(IndexError)
    else if input[0] == "uci" then Ok(Reply(Response(false, UciLines(), b, None)))
    else if input[0] == "quit" then Ok(Reply(Response(true, [], b, None)))
    else if input[0] == "isready" then Ok(Reply(Response(false, ["readyok"], b, None)))
    else if input[0] == "ucinewgame" then Ok(Reply(Response(false, [], b, None)))
    else DynamicResponse(input, b)
  }

  /** The fixed replies keep the board and log nothing; only `quit` stops. */
  lemma FixedReplies(input: seq<string>, b: BoardState)
    requires |input| >= 1 && input[0] in {"uci", "quit", "isready", "ucinewgame"}
    ensures CreateResponse(input, b).Ok? && CreateResponse(input, b).value.Reply?
    ensures var resp := CreateResponse(input, b).value.response;
            && resp.board == b && resp.log == None
            && (resp.quit <==> input[0] == "quit")
            && (input[0] == "uci" ==> resp.output == UciLines() && resp.output[|resp.output| - 1] == "uciok")
            && (input[0] == "isready" ==> resp.output == ["readyok"])
            && (input[0] in {"quit", "ucinewgame"} ==> resp.output == [])
  {
  }

  /** `go` hands its parsed fields and the current board to the search, or fails as the parse does. */
  lemma GoCommand(input: seq<string>, b: BoardState)
    requires |input| >= 1 && input[0] == "go"
    ensures ParsedGo(input).Ok? ==> CreateResponse(input, b) == Ok(Search(ParsedGo(input).value, b))
    ensures ParsedGo(input).Err? ==> CreateResponse(input, b) == Err(ParsedGo(input).error)
  {
  }

  /** `position` replaces the board with the one it sets up, printing nothing and not stopping. */
  lemma PositionCommand(input: seq<string>, b: BoardState)
    requires |input| >= 1 && input[0] == "position"
    ensures PositionBoard(input).Ok? ==>
              CreateResponse(input, b) == Ok(Reply(Response(false, [], PositionBoard(input).value, None)))
    ensures PositionBoard(input).Err? ==> CreateResponse(input, b) == Err(PositionBoard(input).error)
  {
  }

  /** An empty line reads past the end; an unknown command is rejected with its tokens. */
  lemma UnknownCommand(input: seq<string>, b: BoardState)
    ensures |input| == 0 ==> CreateResponse(input, b) == Err(IndexError)
    ensures |input| >= 1 && input[0] !in {"uci", "quit", "isready", "ucinewgame", "position", "go"} ==>
              CreateResponse(input, b) == Err(CommandValueError(input))
  {
  }
}
