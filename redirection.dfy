/**
 * The three-state tokenizer of parse_command: it walks the tokens that
 * follow the command name and sorts each into an argument, a redirection
 * operator (`<`, `>`, `>>`) or the file that follows one.
 *
 * `ScanPrefix` is the state machine, one `Step` per token; `Arguments`,
 * `Expected` and `WellFormed` state the same grammar directly on the token
 * list, and `ScanAccepts` proves the two agree.
 */
module Redirection {
  import opened Options

  /** The `redirect` record handed to redirection_begin/redirection_end. */
  datatype Redirect = Redirect(input: bool, output: bool, append: bool, inputFile: string, outputFile: string)

  const NoRedirect := Redirect(false, false, false, "", "")

  /** What the tokenizer expects next: `in_file_now` and `out_file_now`. */
  datatype Expect = Normal | InputFile | OutputFile

  /** "Parse error near '<op>'" and "Invalid redirection syntax". */
  datatype SyntaxError = NearOperator(op: string) | MissingTarget

  datatype ScanState = Scanning(argv: seq<string>, r: Redirect, waiting: Expect) | Failed(err: SyntaxError)

  datatype ScanResult = Scanned(argv: seq<string>, r: Redirect) | Malformed(err: SyntaxError)

  predicate IsOperator(t: string)
  {
    t == "<" || t == ">" || t == ">>"
  }

  const OutputOperators: set<string> := {">", ">>"}

  const InitialScan := Scanning([], NoRedirect, Normal)

  /** One iteration of the tokenizer loop. */
  function Step(st: ScanState, t: string): ScanState
  {
    match st
    case Failed(_) => st
    case Scanning(argv, r, waiting) =>
      if IsOperator(t) then
        if waiting != Normal then Failed(NearOperator(t))
        else if t == "<" then Scanning(argv, r.(input := true), InputFile)
        else Scanning(argv, r.(output := true, append := t == ">>"), OutputFile)
      else
        match waiting
        case InputFile => Scanning(argv, r.(inputFile := t), Normal)
        case OutputFile => Scanning(argv, r.(outputFile := t), Normal)
        case Normal => Scanning(argv + [t], r, Normal)
  }

  /** The tokenizer's state after the tokens `toks`. */
  function ScanPrefix(toks: seq<string>): ScanState
  {
    if toks == [] then InitialScan
    else Step(ScanPrefix(toks[..|toks| - 1]), toks[|toks| - 1])
  }

  /** The tokenizer's verdict once the tokens run out. */
  function Finish(st: ScanState): ScanResult
  {
    match st
    case Failed(e) => Malformed(e)
    case Scanning(argv, r, waiting) =>
      if waiting == Normal then Scanned(argv, r) else Malformed(MissingTarget)
  }

  function Scan(toks: seq<string>): ScanResult
  {
    Finish(ScanPrefix(toks))
  }

  /** The state after running the tokenizer on `toks`, starting from `st`. */
  function ScanFrom(st: ScanState, toks: seq<string>): ScanState
    decreases |toks|
  {
    if toks == [] then st else ScanFrom(Step(st, toks[0]), toks[1..])
  }

  // ---- The grammar stated directly on the token list ----

  /** Token k is an ordinary argument: not an operator, not the file after one. */
  predicate IsArgumentAt(toks: seq<string>, k: nat)
    requires k < |toks|
  {
    !IsOperator(toks[k]) && (k == 0 || !IsOperator(toks[k - 1]))
  }

  /** The ordinary arguments, in their original order. */
  function Arguments(toks: seq<string>): (r: seq<string>)
    ensures |r| <= |toks|
  {
    if toks == [] then []
    else Arguments(toks[..|toks| - 1]) + (if IsArgumentAt(toks, |toks| - 1) then [toks[|toks| - 1]] else [])
  }

  /** No operator is immediately followed by another one. */
  predicate NoAdjacentOperators(toks: seq<string>)
  {
    forall k :: 0 < k < |toks| && IsOperator(toks[k - 1]) ==> !IsOperator(toks[k])
  }

  /** Every operator is followed by a file name. */
  predicate WellFormed(toks: seq<string>)
  {
    NoAdjacentOperators(toks) && (|toks| > 0 ==> !IsOperator(toks[|toks| - 1]))
  }

  /** The last token that belongs to `ops`, if any. */
  function LastOperator(toks: seq<string>, ops: set<string>): (r: Option<string>)
    ensures r.Some? ==> r.value in ops && r.value in toks
    ensures r.None? ==> forall k :: 0 <= k < |toks| ==> toks[k] !in ops
  {
    if toks == [] then None
    else if toks[|toks| - 1] in ops then Some(toks[|toks| - 1])
    else LastOperator(toks[..|toks| - 1], ops)
  }

  /** The file named right after the last operator of `ops` that has one, or "". */
  function LastTarget(toks: seq<string>, ops: set<string>): string
  {
    if |toks| < 2 then ""
    else if toks[|toks| - 2] in ops && !IsOperator(toks[|toks| - 1]) then toks[|toks| - 1]
    else LastTarget(toks[..|toks| - 1], ops)
  }

  /** The redirect record the tokens describe. */
  function Expected(toks: seq<string>): Redirect
  {
    var out := LastOperator(toks, OutputOperators);
    Redirect("<" in toks, out.Some?, out == Some(">>"), LastTarget(toks, {"<"}), LastTarget(toks, OutputOperators))
  }

  /** What a tokenizer that has read `toks` waits for. */
  function Pending(toks: seq<string>): Expect
  {
    if toks == [] || !IsOperator(toks[|toks| - 1]) then Normal
    else if toks[|toks| - 1] == "<" then InputFile
    else OutputFile
  }

  lemma AdjacentAfterAppend(toks: seq<string>, t: string)
    ensures NoAdjacentOperators(toks + [t]) <==>
      NoAdjacentOperators(toks) && !(|toks| > 0 && IsOperator(toks[|toks| - 1]) && IsOperator(t))
  {
    var all := toks + [t];
    if NoAdjacentOperators(toks) && !(|toks| > 0 && IsOperator(toks[|toks| - 1]) && IsOperator(t)) {
      forall k | 0 < k < |all| && IsOperator(all[k - 1]) ensures !IsOperator(all[k]) {
        if k < |toks| {
          assert all[k - 1] == toks[k - 1] && all[k] == toks[k];
        }
      }
    }
    if NoAdjacentOperators(all) {
      forall k | 0 < k < |toks| && IsOperator(toks[k - 1]) ensures !IsOperator(toks[k]) {
        assert all[k - 1] == toks[k - 1] && all[k] == toks[k];
      }
      if |toks| > 0 && IsOperator(toks[|toks| - 1]) {
        assert all[|toks| - 1] == toks[|toks| - 1] && all[|toks|] == t;
        assert 0 < |toks| < |all| && IsOperator(all[|toks| - 1]);
      }
    }
  }

  /** How the grammar's record changes when one token is appended. */
  lemma ExpectedAfterAppend(toks: seq<string>, t: string)
    ensures Expected(toks + [t]) ==
      if t == "<" then Expected(toks).(input := true)
      else if IsOperator(t) then Expected(toks).(output := true, append := t == ">>")
      else if Pending(toks) == InputFile then Expected(toks).(inputFile := t)
      else if Pending(toks) == OutputFile then Expected(toks).(outputFile := t)
      else Expected(toks)
  {
    var all := toks + [t];
    assert all[..|all| - 1] == toks && all[|all| - 1] == t;
    assert "<" in all <==> "<" in toks || t == "<";
    assert LastOperator(all, OutputOperators) ==
      if t in OutputOperators then Some(t) else LastOperator(toks, OutputOperators);
    if |all| >= 2 {
      assert all[|all| - 2] == toks[|toks| - 1];
      assert LastTarget(all, {"<"}) ==
        if toks[|toks| - 1] == "<" && !IsOperator(t) then t else LastTarget(toks, {"<"});
      assert LastTarget(all, OutputOperators) ==
        if toks[|toks| - 1] in OutputOperators && !IsOperator(t) then t else LastTarget(toks, OutputOperators);
    } else {
      assert LastTarget(all, {"<"}) == "" == LastTarget(toks, {"<"});
      assert LastTarget(all, OutputOperators) == "" == LastTarget(toks, OutputOperators);
    }
  }

  lemma ArgumentsAfterAppend(toks: seq<string>, t: string)
    ensures Arguments(toks + [t]) ==
      Arguments(toks) + (if !IsOperator(t) && Pending(toks) == Normal then [t] else [])
  {
    var all := toks + [t];
    assert all[..|all| - 1] == toks && all[|all| - 1] == t;
    if |all| >= 2 {
      assert all[|all| - 2] == toks[|toks| - 1];
    }
    assert IsArgumentAt(all, |all| - 1) <==> !IsOperator(t) && Pending(toks) == Normal;
  }

  /** Before any syntax error the state is the grammar's reading of the prefix. */
  lemma {:induction false} ScanningShape(toks: seq<string>)
    ensures ScanPrefix(toks).Scanning? <==> NoAdjacentOperators(toks)
    ensures ScanPrefix(toks).Scanning? ==>
      ScanPrefix(toks) == Scanning(Arguments(toks), Expected(toks), Pending(toks))
  {
    if toks != [] {
      var f, t := toks[..|toks| - 1], toks[|toks| - 1];
      assert toks == f + [t];
      ScanningShape(f);
      ScanAppend(f, t);
      AdjacentAfterAppend(f, t);
      if ScanPrefix(f).Scanning? {
        ExpectedAfterAppend(f, t);
        ArgumentsAfterAppend(f, t);
      }
    }
  }

  /** The only error raised while scanning names an operator. */
  lemma {:induction false} FailedNearOperator(toks: seq<string>)
    ensures ScanPrefix(toks).Failed? ==>
      ScanPrefix(toks).err.NearOperator? && IsOperator(ScanPrefix(toks).err.op)
  {
    if toks != [] {
      FailedNearOperator(toks[..|toks| - 1]);
    }
  }

  /** The state machine agrees with the grammar after every prefix. */
  lemma ScanPrefixShape(toks: seq<string>)
    ensures ScanPrefix(toks).Scanning? <==> NoAdjacentOperators(toks)
    ensures ScanPrefix(toks).Scanning? ==>
      ScanPrefix(toks) == Scanning(Arguments(toks), Expected(toks), Pending(toks))
    ensures ScanPrefix(toks).Failed? ==>
      ScanPrefix(toks).err.NearOperator? && IsOperator(ScanPrefix(toks).err.op)
  {
    ScanningShape(toks);
    FailedNearOperator(toks);
  }

  /** The tokenizer accepts exactly the well-formed token lists, and then
      yields the ordinary arguments and the redirect record they describe. */
  lemma ScanAccepts(toks: seq<string>)
    ensures Scan(toks).Scanned? <==> WellFormed(toks)
    ensures Scan(toks).Scanned? ==> Scan(toks) == Scanned(Arguments(toks), Expected(toks))
  {
    ScanPrefixShape(toks);
  }

  /** The two syntax errors: adjacent operators, or an operator at the end. */
  lemma ScanErrors(toks: seq<string>)
    ensures Scan(toks) == Malformed(MissingTarget) <==>
      NoAdjacentOperators(toks) && |toks| > 0 && IsOperator(toks[|toks| - 1])
    ensures (Scan(toks).Malformed? && Scan(toks).err.NearOperator?) <==> !NoAdjacentOperators(toks)
    ensures Scan(toks).Malformed? && Scan(toks).err.NearOperator? ==> IsOperator(Scan(toks).err.op)
  {
    ScanPrefixShape(toks);
  }

  /** The error names the operator of the first adjacent pair: the one that
      arrived while a file name was still awaited. */
  lemma FirstClashNamed(toks: seq<string>, k: nat)
    requires 0 < k < |toks| && IsOperator(toks[k - 1]) && IsOperator(toks[k])
    requires NoAdjacentOperators(toks[..k])
    ensures Scan(toks) == Malformed(NearOperator(toks[k]))
  {
    ScanPrefixShape(toks[..k]);
    ScanAppend(toks[..k], toks[k]);
    assert toks[..k + 1] == toks[..k] + [toks[k]];
    FailureIsFinal(toks[..k + 1], toks[k + 1..]);
    assert toks[..k + 1] + toks[k + 1..] == toks;
  }

  lemma ScanAppend(toks: seq<string>, t: string)
    ensures ScanPrefix(toks + [t]) == Step(ScanPrefix(toks), t)
  {
    assert (toks + [t])[..|toks|] == toks;
  }

  /** A syntax error ends the scan: later tokens change nothing. */
  lemma {:induction false} FailureIsFinal(toks: seq<string>, more: seq<string>)
    requires ScanPrefix(toks).Failed?
    ensures ScanPrefix(toks + more) == ScanPrefix(toks)
    decreases |more|
  {
    if more == [] {
      assert toks + more == toks;
    } else {
      var f := more[..|more| - 1];
      FailureIsFinal(toks, f);
      assert toks + more == (toks + f) + [more[|more| - 1]];
      ScanAppend(toks + f, more[|more| - 1]);
    }
  }

  /** A later output operator overrides the earlier file and append flag,
      and leaves the arguments and the input side alone. */
  lemma LaterOutputOverrides(toks: seq<string>, op: string, file: string)
    requires WellFormed(toks) && op in OutputOperators && !IsOperator(file)
    ensures Scan(toks + [op, file]) ==
      Scanned(Arguments(toks), Expected(toks).(output := true, append := op == ">>", outputFile := file))
  {
    ScanAccepts(toks);
    ScanAppend(toks, op);
    assert toks + [op, file] == (toks + [op]) + [file];
    ScanAppend(toks + [op], file);
  }

  /** The same for a later input operator. */
  lemma LaterInputOverrides(toks: seq<string>, file: string)
    requires WellFormed(toks) && !IsOperator(file)
    ensures Scan(toks + ["<", file]) ==
      Scanned(Arguments(toks), Expected(toks).(input := true, inputFile := file))
  {
    ScanAccepts(toks);
    ScanAppend(toks, "<");
    assert toks + ["<", file] == (toks + ["<"]) + [file];
    ScanAppend(toks + ["<"], file);
  }

  lemma {:induction false} PlainArguments(toks: seq<string>)
    requires forall k :: 0 <= k < |toks| ==> !IsOperator(toks[k])
    ensures Arguments(toks) == toks
    decreases |toks|
  {
    if toks != [] {
      var f, t := toks[..|toks| - 1], toks[|toks| - 1];
      forall k | 0 <= k < |f| ensures !IsOperator(f[k]) {
        assert f[k] == toks[k];
      }
      PlainArguments(f);
      assert IsArgumentAt(toks, |toks| - 1);
      assert Arguments(toks) == f + [t];
      assert f + [t] == toks;
    }
  }

  lemma PlainLastOperator(toks: seq<string>, ops: set<string>)
    requires forall t :: t in ops ==> IsOperator(t)
    requires forall k :: 0 <= k < |toks| ==> !IsOperator(toks[k])
    ensures LastOperator(toks, ops) == None
  {
  }

  lemma {:induction false} PlainLastTarget(toks: seq<string>, ops: set<string>)
    requires forall t :: t in ops ==> IsOperator(t)
    requires forall k :: 0 <= k < |toks| ==> !IsOperator(toks[k])
    ensures LastTarget(toks, ops) == ""
    decreases |toks|
  {
    if |toks| >= 2 {
      var f := toks[..|toks| - 1];
      assert forall k :: 0 <= k < |f| ==> f[k] == toks[k];
      PlainLastTarget(f, ops);
    }
  }

  lemma PlainTokens(toks: seq<string>)
    requires forall k :: 0 <= k < |toks| ==> !IsOperator(toks[k])
    ensures Arguments(toks) == toks
    ensures LastOperator(toks, OutputOperators) == None
    ensures LastTarget(toks, {"<"}) == "" && LastTarget(toks, OutputOperators) == ""
  {
    PlainArguments(toks);
    PlainLastOperator(toks, OutputOperators);
    PlainLastTarget(toks, {"<"});
    PlainLastTarget(toks, OutputOperators);
  }

  /** Without operators every token is an argument and nothing is redirected. */
  lemma NoOperatorsNoRedirect(toks: seq<string>)
    requires forall k :: 0 <= k < |toks| ==> !IsOperator(toks[k])
    ensures Scan(toks) == Scanned(toks, NoRedirect)
  {
    PlainTokens(toks);
    ScanAccepts(toks);
  }

  /** Running the rest of the tokens from the state after a prefix. */
  lemma {:induction false} ScanFromPrefix(toks: seq<string>, more: seq<string>)
    ensures ScanFrom(ScanPrefix(toks), more) == ScanPrefix(toks + more)
    decreases |more|
  {
    if more == [] {
      assert toks + more == toks;
    } else {
      ScanAppend(toks, more[0]);
      ScanFromPrefix(toks + [more[0]], more[1..]);
      assert toks + [more[0]] + more[1..] == toks + more;
    }
  }

  lemma {:induction false} FailedFrom(e: SyntaxError, toks: seq<string>)
    ensures ScanFrom(Failed(e), toks) == Failed(e)
    decreases |toks|
  {
    if toks != [] {
      FailedFrom(e, toks[1..]);
    }
  }

  /** Every argument is a token of the list and not an operator. */
  lemma {:induction false} ArgumentsFromTokens(toks: seq<string>)
    ensures forall x :: x in Arguments(toks) ==> x in toks && !IsOperator(x)
    decreases |toks|
  {
    if toks != [] {
      var f := toks[..|toks| - 1];
      ArgumentsFromTokens(f);
      assert forall x :: x in f ==> x in toks;
    }
  }

  /** A redirect target that occurs nowhere else in the list never reaches
      the arguments. */
  lemma {:induction false} TargetNotArgument(toks: seq<string>, k: nat)
    requires 0 < k < |toks| && IsOperator(toks[k - 1])
    requires forall j :: 0 <= j < |toks| && j != k ==> toks[j] != toks[k]
    ensures toks[k] !in Arguments(toks)
    decreases |toks|
  {
    var f := toks[..|toks| - 1];
    if k < |toks| - 1 {
      forall j | 0 <= j < |f| && j != k
        ensures f[j] != f[k]
      {
        assert f[j] == toks[j];
      }
      TargetNotArgument(f, k);
      assert !IsArgumentAt(toks, |toks| - 1) || toks[|toks| - 1] != toks[k];
    } else {
      ArgumentsFromTokens(f);
      forall x | x in f
        ensures x != toks[k]
      {
        var j :| 0 <= j < |f| && f[j] == x;
        assert toks[j] == x;
      }
    }
  }
}
