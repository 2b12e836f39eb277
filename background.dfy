/**
 * handle_amp: finds the background marker `&` and cuts the argument vector
 * after it. The marker stays in argv as the last element; the command name
 * is only checked for a glued marker, never split further.
 */
module Background {
  import opened Options

  predicate EndsWithAmp(s: string)
  {
    |s| > 0 && s[|s| - 1] == '&'
  }

  /** Index of the first argument at or after `from` that ends in '&'. */
  function FirstAmp(args: seq<string>, from: nat): (r: Option<nat>)
    requires from <= |args|
    ensures r.Some? ==> from <= r.value < |args| && EndsWithAmp(args[r.value])
    ensures forall j :: from <= j < |args| && (r.None? || j < r.value) ==> !EndsWithAmp(args[j])
    decreases |args| - from
  {
    if from == |args| then None
    else if EndsWithAmp(args[from]) then Some(from)
    else FirstAmp(args, from + 1)
  }

  /** The command name and the first `count` entries of argv after handle_amp. */
  datatype Split = Split(command: string, argv: seq<string>)

  /** The stage is sent to the background. */
  predicate IsBackground(command: string, args: seq<string>)
  {
    EndsWithAmp(command) || FirstAmp(args, 0).Some?
  }

  function Amp(command: string, args: seq<string>): (r: Split)
    requires |command| > 0
    ensures |r.argv| <= |args| + 1
    ensures IsBackground(command, args) ==> |r.argv| > 0 && r.argv[|r.argv| - 1] == "&"
    ensures !IsBackground(command, args) ==> r == Split(command, args)
    // a marker glued to the command name: the name loses it, argv is just the marker
    ensures EndsWithAmp(command) ==> r.command + "&" == command && r.argv == ["&"]
    // otherwise the first argument ending in '&' is the cut point
    ensures !EndsWithAmp(command) ==> r.command == command
    ensures !EndsWithAmp(command) && FirstAmp(args, 0).Some? ==>
      var i := FirstAmp(args, 0).value;
      i < |r.argv| && r.argv[..i] == args[..i] && r.argv[|r.argv| - 1] == "&"
      && (args[i] == "&" <==> |r.argv| == i + 1)
      && (args[i] != "&" <==> |r.argv| == i + 2)
      && (|r.argv| == i + 2 ==> r.argv[i] + "&" == args[i])
  {
    if EndsWithAmp(command) then Split(command[..|command| - 1], ["&"])
    else
      match FirstAmp(args, 0)
      case None => Split(command, args)
      case Some(i) =>
        if args[i] == "&" then Split(command, args[..i + 1])
        else Split(command, args[..i] + [args[i][..|args[i]| - 1], "&"])
  }

  /** handle_amp on the argv array, which has room for one more entry. */
  method HandleAmp(command: string, argc: nat, argv: array<string>) returns (cmd: string, count: nat)
    requires |command| > 0 && argc < argv.Length
    modifies argv
    ensures count <= argv.Length
    ensures Split(cmd, argv[..count]) == Amp(command, old(argv[..argc]))
    ensures argv[count..] == old(argv[count..])
  {
    ghost var args := argv[..argc];
    var n := |command|;
    if command[n - 1] == '&' {
      argv[0] := "&";
      return command[..n - 1], 1;
    }
    var i := 0;
    while i < argc
      invariant 0 <= i <= argc
      invariant forall j :: 0 <= j < i ==> !EndsWithAmp(args[j])
      invariant argv[..] == old(argv[..])
    {
      var len := |argv[i]|;
      if len > 0 && argv[i][len - 1] == '&' {
        assert FirstAmp(args, 0) == Some(i);
        if len == 1 {
          assert argv[..i + 1] == args[..i + 1];
          return command, i + 1;
        }
        argv[i] := argv[i][..len - 1];
        argv[i + 1] := "&";
        assert argv[..i + 2] == args[..i] + [args[i][..len - 1], "&"];
        assert argv[i + 2..] == old(argv[i + 2..]);
        return command, i + 2;
      }
      i := i + 1;
    }
    assert FirstAmp(args, 0).None?;
    return command, argc;
  }

  /** A standalone marker and a glued one give the same stage. */
  lemma StandaloneAndGluedAgree(name: string)
    requires |name| > 0 && !EndsWithAmp(name)
    ensures Amp(name, ["&"]) == Amp(name + "&", []) == Split(name, ["&"])
  {
    assert FirstAmp(["&"], 0) == Some(0);
    assert (name + "&")[..|name|] == name;
  }

  /** A standalone marker at the end, with no earlier one, leaves the stage
      as it is: the marker stays as the last argument. */
  lemma TrailingMarkerKept(command: string, args: seq<string>)
    requires |command| > 0 && !EndsWithAmp(command)
    requires |args| > 0 && args[|args| - 1] == "&"
    requires forall j :: 0 <= j < |args| - 1 ==> !EndsWithAmp(args[j])
    ensures Amp(command, args) == Split(command, args)
  {
    assert FirstAmp(args, 0) == Some(|args| - 1);
    assert args[..|args|] == args;
  }
}
