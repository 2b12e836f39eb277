/**
 * The strcmp chain at the end of parse_command: exact, case-sensitive name
 * matches against the built-ins, then the recall pattern, then an external
 * program.
 */
module Builtins {
  datatype Handler =
    | Echo | Ls | Pwd | Cd | Pinfo | History | Nightswatch | Exit | Setenv | Unsetenv
    | Jobs | Kjob | Overkill | Fg | Bg | Cronjob
    | Recall | External

  predicate IsBuiltin(h: Handler)
  {
    !h.Recall? && !h.External?
  }

  /** The name each built-in answers to. */
  function Name(h: Handler): string
    requires IsBuiltin(h)
  {
    match h
    case Echo => "echo"
    case Ls => "ls"
    case Pwd => "pwd"
    case Cd => "cd"
    case Pinfo => "pinfo"
    case History => "history"
    case Nightswatch => "nightswatch"
    case Exit => "quit"
    case Setenv => "setenv"
    case Unsetenv => "unsetenv"
    case Jobs => "jobs"
    case Kjob => "kjob"
    case Overkill => "overkill"
    case Fg => "fg"
    case Bg => "bg"
    case Cronjob => "cronjob"
  }

  /** `command` is the name of some built-in. */
  predicate IsBuiltinName(command: string)
  {
    exists h :: IsBuiltin(h) && Name(h) == command
  }

  /** The handler parse_command runs for `command`. */
  function Dispatch(command: string, isRecall: string -> bool): (h: Handler)
    ensures IsBuiltin(h) ==> Name(h) == command
    ensures h.Recall? <==> !IsBuiltinName(command) && isRecall(command)
    ensures h.External? <==> !IsBuiltinName(command) && !isRecall(command)
  {
    if command == "echo" then Echo
    else if command == "ls" then Ls
    else if command == "pwd" then Pwd
    else if command == "cd" then Cd
    else if command == "pinfo" then Pinfo
    else if command == "history" then History
    else if command == "nightswatch" then Nightswatch
    else if command == "quit" then Exit
    else if command == "setenv" then Setenv
    else if command == "unsetenv" then Unsetenv
    else if command == "jobs" then Jobs
    else if command == "kjob" then Kjob
    else if command == "overkill" then Overkill
    else if command == "fg" then Fg
    else if command == "bg" then Bg
    else if command == "cronjob" then Cronjob
    else if isRecall(command) then Recall
    else External
  }

  /** No two built-ins share a name, so the first match is the only one. */
  lemma NamesDistinct(g: Handler, h: Handler)
    requires IsBuiltin(g) && IsBuiltin(h) && Name(g) == Name(h)
    ensures g == h
  {
  }

  /** Each built-in is reached by its own name, whatever the recall pattern says. */
  lemma DispatchByName(h: Handler, isRecall: string -> bool)
    requires IsBuiltin(h)
    ensures Dispatch(Name(h), isRecall) == h
  {
    var g := Dispatch(Name(h), isRecall);
    if IsBuiltin(g) {
      NamesDistinct(g, h);
    }
  }
}
