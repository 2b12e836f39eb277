/**
 * parse.c: `parse` splits an input line on ';' and hands every segment to
 * the pipe splitter; `parse_command` turns one pipe stage into a command
 * name, an argument vector and a redirect record, then runs one handler
 * between redirection_begin and redirection_end.
 *
 * The collaborators the file calls but does not define are parameters:
 * `expand` is tilda_expand, `isRecall` is is_recall, `begin` is what
 * redirection_begin reports for a redirect record; `ws` is the
 * space_delim character set. Calls with effects (store_history,
 * pied_piper, redirection_begin/end and the handlers) are recorded as
 * events, in the order the code makes them.
 */
module Parse {
  import opened Options
  import opened Strtok
  import opened Redirection
  import opened Background
  import opened Builtins

  // ---- handle_tilda ----

  function ExpandTildes(args: seq<string>, expand: string -> string): seq<string>
  {
    seq(|args|, i requires 0 <= i < |args| => expand(args[i]))
  }

  /** handle_tilda: argv[i] := tilda_expand(argv[i]) for every i < argc. */
  method HandleTilda(argc: nat, argv: array<string>, expand: string -> string)
    requires argc <= argv.Length
    modifies argv
    ensures argv[..argc] == ExpandTildes(old(argv[..argc]), expand)
    ensures argv[argc..] == old(argv[argc..])
  {
    for i := 0 to argc
      invariant forall k :: 0 <= k < i ==> argv[k] == expand(old(argv[k]))
      invariant forall k :: i <= k < argv.Length ==> argv[k] == old(argv[k])
    {
      argv[i] := expand(argv[i]);
    }
  }

  // ---- parse_command ----

  /** A fully resolved stage: name, argv[..argc] and the redirect record. */
  datatype Stage = Stage(command: string, args: seq<string>, redirect: Redirect)

  datatype StageResult =
    | Blank                        // the stage holds no token at all
    | Rejected(err: SyntaxError)   // a redirection syntax error was reported
    | Resolved(stage: Stage)

  /** The file descriptors redirection_begin hands back; -1 means it failed. */
  datatype RedirectMeta = RedirectMeta(inFile: int, outFile: int)

  datatype Effect =
    | Begin(r: Redirect)
    | Invoke(handler: Handler, command: string, args: seq<string>)
    | End(r: Redirect, m: RedirectMeta)

  /** redirection_begin could not set up a redirection the stage asked for. */
  predicate RedirectFailed(r: Redirect, m: RedirectMeta)
  {
    (r.input && m.inFile == -1) || (r.output && m.outFile == -1)
  }

  function StateOf(inFileNow: bool, outFileNow: bool): Expect
  {
    if inFileNow then InputFile else if outFileNow then OutputFile else Normal
  }

  /** What parse_command makes of one stage, before anything runs. */
  function Resolve(str: string, ws: set<char>, expand: string -> string): StageResult
  {
    match StrTok(str, 0, ws)
    case None => Blank
    case Some(first) =>
      match Scan(TokensFrom(str, first.next, ws))
      case Malformed(e) => Rejected(e)
      case Scanned(args, r) =>
        var a := Amp(first.text, args);
        Resolved(Stage(a.command, ExpandTildes(a.argv, expand), r))
  }

  /** The calls parse_command makes once the stage is resolved. */
  function StageEffects(res: StageResult, isRecall: string -> bool, begin: Redirect -> RedirectMeta): seq<Effect>
  {
    match res
    case Resolved(Stage(command, args, r)) =>
      var m := begin(r);
      if RedirectFailed(r, m) then [Begin(r)]
      else [Begin(r), Invoke(Dispatch(command, isRecall), command, args), End(r, m)]
    case _ => []
  }

  /** One pass of the tokenizer loop of parse_command on a token that does
      not end it: an operator raises its flag, a token after an operator
      names its file, any other token is stored in argv. */
  method TakeToken(argv: array<string>, argc: nat, r: Redirect, inFileNow: bool, outFileNow: bool, tok: string)
    returns (argc': nat, r': Redirect, inFileNow': bool, outFileNow': bool)
    requires argc < argv.Length
    requires !(inFileNow && outFileNow)
    requires IsOperator(tok) ==> !inFileNow && !outFileNow
    modifies argv
    ensures argc' <= argc + 1 && !(inFileNow' && outFileNow')
    ensures Step(Scanning(old(argv[..argc]), r, StateOf(inFileNow, outFileNow)), tok)
      == Scanning(argv[..argc'], r', StateOf(inFileNow', outFileNow'))
  {
    argc', r', inFileNow', outFileNow' := argc, r, inFileNow, outFileNow;
    if tok == "<" {
      r' := r.(input := true);
      inFileNow' := true;
    } else if tok == ">" || tok == ">>" {
      r' := r.(output := true, append := tok == ">>");
      outFileNow' := true;
    } else if inFileNow {
      r' := r.(inputFile := tok);
      inFileNow' := false;
    } else if outFileNow {
      r' := r.(outputFile := tok);
      outFileNow' := false;
    } else {
      argv[argc] := tok;
      argc' := argc + 1;
      assert argv[..argc'] == old(argv[..argc]) + [tok];
    }
  }

  /** The tokenizer loop of parse_command: reads the tokens after the
      command name, fills argv and the redirect record, and stops at the
      first syntax error. */
  method ScanStage(str: string, ws: set<char>, from: nat, argv: array<string>)
    returns (outcome: ScanResult, argc: nat)
    requires from <= |str| && |str| - from < argv.Length
    modifies argv
    ensures outcome == Scan(TokensFrom(str, from, ws))
    ensures argc < argv.Length
    ensures outcome.Scanned? ==> outcome.argv == argv[..argc]
  {
    var r := NoRedirect;
    var inFileNow, outFileNow := false, false;
    argc := 0;
    var pos := from;
    ScanFromPrefix([], TokensFrom(str, from, ws));
    assert [] + TokensFrom(str, from, ws) == TokensFrom(str, from, ws);
    var next := StrTok(str, pos, ws);
    while next.Some?
      invariant from <= pos <= |str|
      invariant next == StrTok(str, pos, ws)
      invariant !(inFileNow && outFileNow)
      invariant argc <= pos - from
      invariant Finish(ScanFrom(Scanning(argv[..argc], r, StateOf(inFileNow, outFileNow)), TokensFrom(str, pos, ws)))
        == Scan(TokensFrom(str, from, ws))
      decreases |str| - pos
    {
      var tok := next.value.text;
      ghost var later := TokensFrom(str, next.value.next, ws);
      ghost var st := Scanning(argv[..argc], r, StateOf(inFileNow, outFileNow));
      assert TokensFrom(str, pos, ws) == [tok] + later;
      assert ScanFrom(st, [tok] + later) == ScanFrom(Step(st, tok), later);
      if IsOperator(tok) && (inFileNow || outFileNow) {
        assert Step(st, tok) == Failed(NearOperator(tok));
        FailedFrom(NearOperator(tok), later);
        return Malformed(NearOperator(tok)), argc;
      }
      argc, r, inFileNow, outFileNow := TakeToken(argv, argc, r, inFileNow, outFileNow, tok);
      pos := next.value.next;
      next := StrTok(str, pos, ws);
    }
    if inFileNow || outFileNow {
      return Malformed(MissingTarget), argc;
    }
    return Scanned(argv[..argc], r), argc;
  }

  method ParseCommand(str: string, ws: set<char>, expand: string -> string,
                      isRecall: string -> bool, begin: Redirect -> RedirectMeta)
    returns (result: StageResult, effects: seq<Effect>)
    ensures result == Resolve(str, ws, expand)
    ensures effects == StageEffects(result, isRecall, begin)
  {
    var first := StrTok(str, 0, ws);
    if first.None? {
      return Blank, [];
    }
    var command := first.value.text;
    var argv := new string[|str| + 1];  // "lots of space"
    var outcome, argc := ScanStage(str, ws, first.value.next, argv);
    if outcome.Malformed? {
      return Rejected(outcome.err), [];
    }
    var r := outcome.r;
    ghost var a := Amp(command, outcome.argv);
    var cmd, count := HandleAmp(command, argc, argv);
    assert cmd == a.command && argv[..count] == a.argv;
    HandleTilda(count, argv, expand);
    assert argv[..count] == ExpandTildes(a.argv, expand);
    result := Resolved(Stage(cmd, argv[..count], r));
    assert result == Resolve(str, ws, expand);
    var m := begin(r);
    if (r.input && m.inFile == -1) || (r.output && m.outFile == -1) {
      return result, [Begin(r)];
    }
    var h := Dispatch(cmd, isRecall);
    effects := [Begin(r), Invoke(h, cmd, argv[..count]), End(r, m)];
  }

  // ---- Resolve: what the stage means ----

  /** A stage is blank exactly when it holds nothing but white space. */
  lemma ResolveBlank(str: string, ws: set<char>, expand: string -> string)
    ensures Resolve(str, ws, expand) == Blank <==> forall k :: 0 <= k < |str| ==> str[k] in ws
  {
  }

  /** A stage is rejected exactly when the tokens after its first one are not
      well formed, and then with the tokenizer's error. */
  lemma ResolveRejected(str: string, ws: set<char>, expand: string -> string)
    ensures Resolve(str, ws, expand).Rejected? <==>
      StrTok(str, 0, ws).Some? && !WellFormed(TokensFrom(str, StrTok(str, 0, ws).value.next, ws))
  {
    if StrTok(str, 0, ws).Some? {
      ScanAccepts(TokensFrom(str, StrTok(str, 0, ws).value.next, ws));
    }
  }

  /** The command is the first token of the stage when that token does not
      end in '&'; otherwise it is that token less the glued-on '&', which then
      becomes the whole argument vector. */
  lemma ResolveCommand(str: string, ws: set<char>, expand: string -> string)
    requires Resolve(str, ws, expand).Resolved?
    ensures var first := StrTok(str, 0, ws).value.text;
      var st := Resolve(str, ws, expand).stage;
      (!EndsWithAmp(first) ==> st.command == first) &&
      (EndsWithAmp(first) ==> st.command + "&" == first && st.args == [expand("&")])
  {
  }

  /** A well-formed stage is resolved with the redirect record its tokens
      describe, and its arguments are the ordinary arguments cut at the
      first '&', each passed through `expand`. */
  lemma ResolveRedirect(str: string, ws: set<char>, expand: string -> string)
    requires StrTok(str, 0, ws).Some?
    requires WellFormed(TokensFrom(str, StrTok(str, 0, ws).value.next, ws))
    ensures var first := StrTok(str, 0, ws).value;
      var toks := TokensFrom(str, first.next, ws);
      var a := Amp(first.text, Arguments(toks));
      Resolve(str, ws, expand) == Resolved(Stage(a.command, ExpandTildes(a.argv, expand), Expected(toks)))
  {
    ScanAccepts(TokensFrom(str, StrTok(str, 0, ws).value.next, ws));
  }

  /** Tilde expansion touches the arguments only: the stage resolves the same
      way with the identity expander, with the same command and redirect, and
      each argument is the expansion of the unexpanded one. */
  lemma TildeOnlyRewritesArguments(str: string, ws: set<char>, expand: string -> string)
    ensures Resolve(str, ws, expand).Resolved? <==> Resolve(str, ws, s => s).Resolved?
    ensures Resolve(str, ws, expand).Resolved? ==>
      var st := Resolve(str, ws, expand).stage;
      var raw := Resolve(str, ws, s => s).stage;
      st.command == raw.command && st.redirect == raw.redirect && |st.args| == |raw.args| &&
      forall i :: 0 <= i < |st.args| ==> st.args[i] == expand(raw.args[i])
  {
  }

  /** Nothing runs for a blank or rejected stage; otherwise redirection_begin
      runs first, and the handler and redirection_end run exactly when the
      redirection could be set up, with the handler named by the command. */
  lemma EffectsOfStage(res: StageResult, isRecall: string -> bool, begin: Redirect -> RedirectMeta)
    ensures var fx := StageEffects(res, isRecall, begin);
      !res.Resolved? <==> fx == []
    ensures res.Resolved? ==>
      var fx := StageEffects(res, isRecall, begin);
      var r := res.stage.redirect;
      fx[0] == Begin(r) &&
      (|fx| == 1 <==> RedirectFailed(r, begin(r))) &&
      (|fx| == 3 <==> !RedirectFailed(r, begin(r)))
    ensures res.Resolved? && !RedirectFailed(res.stage.redirect, begin(res.stage.redirect)) ==>
      var fx := StageEffects(res, isRecall, begin);
      var st := res.stage;
      fx[1] == Invoke(Dispatch(st.command, isRecall), st.command, st.args) &&
      (IsBuiltinName(st.command) ==> Name(fx[1].handler) == st.command) &&
      fx[2] == End(st.redirect, begin(st.redirect))
  {
  }

  // ---- parse ----

  datatype LineEvent = StoreHistory(line: string) | PiedPiper(line: string)

  /** The calls parse makes for one segment: store_history unless it is a
      recall, then pied_piper. */
  function SegmentEvents(seg: string, isRecall: string -> bool): seq<LineEvent>
  {
    (if isRecall(seg) then [] else [StoreHistory(seg)]) + [PiedPiper(seg)]
  }

  function LineEvents(segs: seq<string>, isRecall: string -> bool): seq<LineEvent>
  {
    if segs == [] then []
    else LineEvents(segs[..|segs| - 1], isRecall) + SegmentEvents(segs[|segs| - 1], isRecall)
  }

  /** The segments handed to pied_piper, in order. */
  function Piped(events: seq<LineEvent>): seq<string>
  {
    if events == [] then []
    else
      var last := events[|events| - 1];
      Piped(events[..|events| - 1]) + (if last.PiedPiper? then [last.line] else [])
  }

  /** The lines stored in the history, in order. */
  function Stored(events: seq<LineEvent>): seq<string>
  {
    if events == [] then []
    else
      var last := events[|events| - 1];
      Stored(events[..|events| - 1]) + (if last.StoreHistory? then [last.line] else [])
  }

  /** The segments that are not recalls. */
  function NonRecall(segs: seq<string>, isRecall: string -> bool): seq<string>
  {
    if segs == [] then []
    else
      var last := segs[|segs| - 1];
      NonRecall(segs[..|segs| - 1], isRecall) + (if isRecall(last) then [] else [last])
  }

  lemma {:induction false} PipedAppend(a: seq<LineEvent>, b: seq<LineEvent>)
    ensures Piped(a + b) == Piped(a) + Piped(b)
    decreases |b|
  {
    if b == [] {
      assert a + b == a;
    } else {
      var f, x := b[..|b| - 1], b[|b| - 1];
      PipedAppend(a, f);
      var tail := if x.PiedPiper? then [x.line] else [];
      assert (a + b)[..|a + b| - 1] == a + f && (a + b)[|a + b| - 1] == x;
      assert Piped(a + b) == Piped(a + f) + tail;
      assert Piped(b) == Piped(f) + tail;
    }
  }

  lemma {:induction false} StoredAppend(a: seq<LineEvent>, b: seq<LineEvent>)
    ensures Stored(a + b) == Stored(a) + Stored(b)
    decreases |b|
  {
    if b == [] {
      assert a + b == a;
    } else {
      var f, x := b[..|b| - 1], b[|b| - 1];
      StoredAppend(a, f);
      var tail := if x.StoreHistory? then [x.line] else [];
      assert (a + b)[..|a + b| - 1] == a + f && (a + b)[|a + b| - 1] == x;
      assert Stored(a + b) == Stored(a + f) + tail;
      assert Stored(b) == Stored(f) + tail;
    }
  }

  /** The events of one segment, projected. */
  lemma SegmentProjections(seg: string, isRecall: string -> bool)
    ensures Piped(SegmentEvents(seg, isRecall)) == [seg]
    ensures Stored(SegmentEvents(seg, isRecall)) == if isRecall(seg) then [] else [seg]
  {
    var mine := SegmentEvents(seg, isRecall);
    if isRecall(seg) {
      assert mine == [PiedPiper(seg)] && mine[..0] == [];
    } else {
      assert mine == [StoreHistory(seg), PiedPiper(seg)];
      var head := mine[..1];
      assert head == [StoreHistory(seg)] && head[..0] == [];
      assert Piped(head) == [] && Stored(head) == [seg];
    }
  }

  /** Every segment goes to pied_piper once, in order. */
  lemma {:induction false} EverySegmentPiped(segs: seq<string>, isRecall: string -> bool)
    ensures Piped(LineEvents(segs, isRecall)) == segs
    decreases |segs|
  {
    if segs != [] {
      var f := segs[..|segs| - 1];
      var seg := segs[|segs| - 1];
      var before, mine := LineEvents(f, isRecall), SegmentEvents(seg, isRecall);
      assert Piped(before) == f by { EverySegmentPiped(f, isRecall); }
      assert Piped(mine) == [seg] by { SegmentProjections(seg, isRecall); }
      assert Piped(before + mine) == f + [seg] by { PipedAppend(before, mine); }
      assert LineEvents(segs, isRecall) == before + mine;
      assert f + [seg] == segs;
    }
  }

  /** Exactly the non-recall segments go to the history, in order. */
  lemma {:induction false} HistoryKeepsNonRecalls(segs: seq<string>, isRecall: string -> bool)
    ensures Stored(LineEvents(segs, isRecall)) == NonRecall(segs, isRecall)
    decreases |segs|
  {
    if segs != [] {
      var f := segs[..|segs| - 1];
      var seg := segs[|segs| - 1];
      var before, mine := LineEvents(f, isRecall), SegmentEvents(seg, isRecall);
      assert Stored(before) == NonRecall(f, isRecall) by { HistoryKeepsNonRecalls(f, isRecall); }
      assert Stored(mine) == (if isRecall(seg) then [] else [seg]) by { SegmentProjections(seg, isRecall); }
      assert Stored(before + mine) == Stored(before) + Stored(mine) by { StoredAppend(before, mine); }
      assert LineEvents(segs, isRecall) == before + mine;
    }
  }

  /** One strtok call consumes the next segment of the reference list. */
  lemma NextSegment(input: string, pos: nat, all: seq<string>, count: nat)
    requires pos <= |input| && StrTok(input, pos, {';'}).Some?
    requires count <= |all| && TokensFrom(input, pos, {';'}) == all[count..]
    ensures count < |all|
    ensures all[count] == StrTok(input, pos, {';'}).value.text
    ensures TokensFrom(input, StrTok(input, pos, {';'}).value.next, {';'}) == all[count + 1..]
  {
    var t := StrTok(input, pos, {';'}).value;
    var later := TokensFrom(input, t.next, {';'});
    assert all[count..] == [t.text] + later;
    assert all[count..][1..] == all[count + 1..];
  }

  /** The first loop of parse: copies the strtok pieces of the line into
      `commands`. */
  method SplitSegments(input: string, commands: array<string>) returns (count: nat)
    requires CountIn(input, {';'}) < commands.Length
    modifies commands
    ensures count <= commands.Length
    ensures commands[..count] == Tokens(input, {';'})
  {
    ghost var all := Tokens(input, {';'});
    TokenCountBound(input, {';'});
    count := 0;
    var pos := 0;
    var next := StrTok(input, pos, {';'});
    while next.Some?
      invariant pos <= |input|
      invariant next == StrTok(input, pos, {';'})
      invariant count <= |all| && TokensFrom(input, pos, {';'}) == all[count..]
      invariant commands[..count] == all[..count]
      decreases |input| - pos
    {
      NextSegment(input, pos, all, count);
      commands[count] := next.value.text;
      count := count + 1;
      pos := next.value.next;
      next := StrTok(input, pos, {';'});
    }
  }

  /** parse: splits the line on ';' (empty segments dropped, as strtok does),
      then stores and pipes each segment in turn. */
  method Parse(input: string, isRecall: string -> bool)
    returns (segments: seq<string>, events: seq<LineEvent>)
    ensures segments == Tokens(input, {';'})
    ensures events == LineEvents(segments, isRecall)
  {
    var lenArray := CountIn(input, {';'}) + 1;
    var commands := new string[lenArray];
    var numCommands := SplitSegments(input, commands);
    segments := commands[..numCommands];
    events := [];
    for i := 0 to numCommands
      invariant events == LineEvents(commands[..i], isRecall)
    {
      if !isRecall(commands[i]) {
        events := events + [StoreHistory(commands[i])];
      }
      events := events + [PiedPiper(commands[i])];
      assert commands[..i + 1][..i] == commands[..i];
    }
  }

  // ---- examples ----

  /** "ls &": the standalone '&' stays as the only argument. */
  lemma SpacedAmpExample(e: string -> string)
    ensures Resolve("ls &", {' '}, e) == Resolved(Stage("ls", [e("&")], NoRedirect))
  {
    var s := "ls &";
    assert SkipDelims(s, 0, {' '}) == 0;
    assert TokenEnd(s, 0, {' '}) == 2;
    assert s[0..2] == "ls";
    assert SkipDelims(s, 2, {' '}) == 3;
    assert TokenEnd(s, 3, {' '}) == 4;
    assert s[3..4] == "&";
    assert StrTok(s, 4, {' '}) == None;
    assert TokensFrom(s, 2, {' '}) == ["&"];
    NoOperatorsNoRedirect(["&"]);
    StandaloneAndGluedAgree("ls");
    assert ExpandTildes(["&"], e) == [e("&")];
  }

  /** "ls&": the '&' glued to the command is split off the same way. */
  lemma GluedAmpExample(e: string -> string)
    ensures Resolve("ls&", {' '}, e) == Resolved(Stage("ls", [e("&")], NoRedirect))
  {
    var s := "ls&";
    assert SkipDelims(s, 0, {' '}) == 0;
    assert TokenEnd(s, 0, {' '}) == 3;
    assert s[0..3] == "ls&";
    assert StrTok(s, 3, {' '}) == None;
    assert TokensFrom(s, 3, {' '}) == [];
    NoOperatorsNoRedirect([]);
    StandaloneAndGluedAgree("ls");
    assert ExpandTildes(["&"], e) == [e("&")];
  }
}
