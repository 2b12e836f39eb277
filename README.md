# kishmish: command parsing and the nightswatch built-in

A Dafny model of two parts of the kishmish shell.

- `parse.c` splits an input line at `;`. It records each segment in the
  history unless `is_recall` says it is a recall command (the comment at parse.c:255 says these start with an up arrow), and passes every
  segment on to the pipe handler. For one pipeline stage, `parse_command`
  tokenizes the text on white space, takes the first token as the command,
  and collects `<`, `>` and `>>` redirections while it gathers the arguments.
  It then cuts the arguments just after the first one ending in `&`
  (a glued `&` becomes an argument of its own, a standalone `&` stays as
  an argument), expands tildes, sets up the
  redirection, and dispatches to a built-in handler, to the recall handler,
  or to an external program.
- `nightswatch.c` checks the arguments of `nightswatch MODE`,
  `nightswatch -n N MODE` or `nightswatch MODE -n N`, where MODE is
  `interrupt` or `dirty`, each optionally followed by `&`.
  It then repeats four steps: take one sample (line 3 of `/proc/interrupts`
  or line 17 of `/proc/meminfo`), check for a `q` key, sleep, and check
  again.

Modules:

- `Options`: the option type.
- `Strtok`: libc `strtok` as a cursor over the string (`StrTok`,
  `TokensFrom`, `Tokens`). It comes with a reference split into pieces
  (`Pieces`, `NonEmpty`) and `count_chars` (`CountIn`).
- `Redirection`: the token loop of `parse_command`. It is a state machine
  (`Step`, `ScanPrefix`, `Scan`) described by a grammar (`WellFormed`,
  `Arguments`, `Expected`).
- `Background`: `handle_amp`, both as a function (`Amp`) and as a method
  over the argument array (`HandleAmp`).
- `Builtins`: the `strcmp` chain that picks a handler (`Dispatch`).
- `Parse`: `handle_tilda` and `parse_command`, as methods over arrays
  proved against the function `Resolve`, and `parse`, whose history and pipe
  calls are an event trace.
- `Nightswatch`: covers four things.
  - `strtol` in base 10.
  - `handle_nightswatch`, proved against the accepted forms `Accepts`.
  - `night_interrupt` and `night_dirty`, whose inputs are the `/proc` file
    as the lines `fgets` returns (`None` when `fopen` fails).
  - `get_me_out`, and the loop of `nightswatch` over a finite trace of
    samples and key checks.

Collaborators whose code lies outside these two files are parameters:
- `tilda_expand` is `expand`.
- `is_recall` is `isRecall`.
- `redirection_begin` is `begin`.
- the delimiter set `space_delim` is `ws`.

## Model

| member | source | states |
|---|---|---|
| Strtok.StrTok | parse.c:91-99 | strtok returns no token exactly when only delimiters remain; otherwise it returns the maximal run of non-delimiters after the leading delimiters, and the position just after it |
| Strtok.TokensFrom | parse.c:115 | repeated strtok calls yield nonempty tokens of non-delimiter characters, at most one per remaining character |
| Strtok.TokensArePieces | parse.c:240-246 | the tokens strtok yields are the pieces between delimiters with the empty pieces dropped |
| Strtok.TokenCountBound | parse.c:235-237 | a line has at most count_chars(';') + 1 segments, so the array parse allocates is large enough |
| Strtok.JoinPieces | parse.c:235-246 | splitting at a delimiter and joining with it again gives the line back |
| Strtok.Pieces | parse.c:235-236 | the reference split has count_chars + 1 pieces, none holding the delimiter |
| Redirection.Step | parse.c:117-166 | definition (no contract): one pass of the token loop; an operator while a file name is awaited fails, `<` and `>`/`>>` set their flags and await a file, a file name fills the awaited field, anything else is appended to the arguments; its meaning is stated by ScanAccepts, ScanErrors and FirstClashNamed |
| Redirection.ScanPrefix | parse.c:115-167 | definition (no contract): the loop's state after a prefix of the tokens; characterised by ScanPrefixShape |
| Redirection.Scan | parse.c:115-173 | definition (no contract): the loop's state after all tokens, with a file name still awaited reported as the missing-target error of parse.c:170-173; characterised by ScanAccepts and ScanErrors |
| Redirection.ScanAccepts | parse.c:115-173 | the token loop accepts exactly the well-formed token lists, and then yields the grammar's arguments and redirect record |
| Redirection.ScanErrors | parse.c:118-173 | "Parse error near" is raised exactly when an operator follows an operator, and names an operator; "Invalid redirection syntax" is raised exactly when no operator pair is adjacent and the list ends in an operator |
| Redirection.ScanPrefixShape | parse.c:115-167 | after every prefix, the scan is still running exactly when no operators are adjacent; it then holds the prefix's arguments, its redirect record and the pending target; otherwise the error is "Parse error near" an operator |
| Redirection.FirstClashNamed | parse.c:118-152 | the error names the second operator of the first adjacent pair, the one that arrived while a file name was awaited |
| Redirection.FailureIsFinal | parse.c:118-152 | after a syntax error the remaining tokens change nothing |
| Redirection.LaterOutputOverrides | parse.c:129-151 | a later `>` or `>>` replaces the output file and the append flag and keeps the input side |
| Redirection.LaterInputOverrides | parse.c:118-127 | a later `<` replaces the input file and keeps the output side |
| Redirection.NoOperatorsNoRedirect | parse.c:164-166 | without operators every token becomes an argument and nothing is redirected |
| Redirection.ArgumentsFromTokens | parse.c:164-166 | every argument is one of the tokens and is never an operator |
| Redirection.TargetNotArgument | parse.c:154-162 | a token right after an operator whose text occurs nowhere else in the list does not reach the arguments |
| Redirection.ExpectedAfterAppend | parse.c:118-162 | how one more token changes the redirect record: `<` sets input, `>`/`>>` set output and append, and a pending target stores the file |
| Redirection.ScanFromPrefix | parse.c:115 | continuing the scan from the state after a prefix is the same as scanning the whole list |
| Background.FirstAmp | parse.c:57-64 | the index of the first argument ending in `&`, with none before it |
| Background.Amp | parse.c:35-79 | a command ending in `&` loses it and gets `["&"]` as its only argument; otherwise the arguments are cut just after the first one ending in `&`, a glued `&` is split into its own argument, and with no `&` nothing changes |
| Background.HandleAmp | parse.c:35-79 | the array method leaves the command and arguments that `Amp` describes, and leaves the array beyond them untouched |
| Background.StandaloneAndGluedAgree | parse.c:48-55 | `cmd &` and `cmd&` give the same stage |
| Background.TrailingMarkerKept | parse.c:67-69 | a standalone `&` at the end stays as the last argument (`sleep 5 &` keeps `&`) |
| Builtins.Dispatch | parse.c:185-221 | a built-in name selects the handler with that name; otherwise the recall handler runs exactly when is_recall holds, and the external handler otherwise |
| Builtins.NamesDistinct | parse.c:185-216 | no two built-ins share a name |
| Builtins.DispatchByName | parse.c:185-216 | every built-in's name dispatches to that built-in |
| Parse.HandleTilda | parse.c:27-33 | handle_tilda replaces each of the first argc arguments by its expansion and leaves the rest |
| Parse.TakeToken | parse.c:117-166 | one pass of the token loop on the argument array agrees with one step of the state machine |
| Parse.ScanStage | parse.c:115-173 | the token loop over the array gives the result `Scan` gives for the stage's tokens, with the arguments in the array |
| Parse.ParseCommand | parse.c:81-230 | parse_command resolves the stage as `Resolve` says and performs exactly `StageEffects` |
| Parse.Resolve | parse.c:81-178 | definition (no contract): what parse_command makes of a stage before redirection: blank, rejected with the tokenizer's error, or the command, the cut and expanded arguments and the redirect record; characterised by ResolveBlank, ResolveRejected, ResolveCommand, ResolveRedirect and TildeOnlyRewritesArguments |
| Parse.StageEffects | parse.c:180-223 | definition (no contract): the calls parse_command makes for a resolved stage; characterised by EffectsOfStage |
| Parse.ResolveBlank | parse.c:91-97 | a stage does nothing exactly when it is all white space |
| Parse.ResolveRejected | parse.c:118-173 | a stage is rejected exactly when the tokens after the command are not well formed |
| Parse.ResolveCommand | parse.c:91-99 | the command is the first token when it does not end in `&`; when it does, the command is that token without the `&`, and `&` becomes the only argument |
| Parse.ResolveRedirect | parse.c:115-178 | a well-formed stage resolves to the cut and expanded grammar arguments and the grammar's redirect record |
| Parse.TildeOnlyRewritesArguments | parse.c:178 | tilde expansion changes nothing but the arguments, each of which becomes its expansion |
| Parse.EffectsOfStage | parse.c:180-223 | blank and rejected stages run nothing; otherwise redirection_begin runs first, and the handler and redirection_end run exactly when the redirection was set up |
| Parse.SplitSegments | parse.c:239-247 | the array holds exactly the nonempty `;`-separated segments, in order |
| Parse.Parse | parse.c:232-262 | parse splits the line into its `;` segments and emits the history and pipe events for each, in order |
| Parse.EverySegmentPiped | parse.c:253-260 | every segment is piped, once and in order |
| Parse.HistoryKeepsNonRecalls | parse.c:254-257 | exactly the segments that are not recall commands are stored in the history, in order |
| Parse.SegmentProjections | parse.c:253-260 | one segment is piped, and stored unless it is a recall command |
| Parse.PipedAppend | parse.c:253-260 | the piped segments of two event runs concatenate |
| Parse.StoredAppend | parse.c:253-260 | the stored segments of two event runs concatenate |
| Parse.SpacedAmpExample | parse.c:57-69 | `ls &` runs `ls` with `&` as its only argument |
| Parse.GluedAmpExample | parse.c:48-55 | `ls&` runs `ls` with `&` as its only argument |
| Nightswatch.SpaceRun | nightswatch.c:27 | strtol skips exactly the leading white space |
| Nightswatch.DigitRun | nightswatch.c:27 | strtol reads exactly the leading digits |
| Nightswatch.Strtol | nightswatch.c:27 | definition (no contract): strtol in base 10 with leading white space and an optional sign, 0 when no digits follow; characterised by StrtolDecimal, StrtolNegativeDecimal and StrtolNotNumeric |
| Nightswatch.StrtolDecimal | nightswatch.c:27 | strtol reads back the decimal rendering of a natural number |
| Nightswatch.StrtolNegativeDecimal | nightswatch.c:27 | strtol reads back a negative decimal rendering |
| Nightswatch.StrtolNotNumeric | nightswatch.c:27 | a value that starts with no space, sign or digit reads as 0 |
| Nightswatch.DecimalValueOfDecimal | nightswatch.c:27 | the digits of a number denote that number |
| Nightswatch.ModeNamed | nightswatch.c:15-19 | only "interrupt" and "dirty" name a mode |
| Nightswatch.HandleNightswatch | nightswatch.c:6-57 | every watch started has a positive interval |
| Nightswatch.HandleNightswatchAccepts | nightswatch.c:6-57 | a watch is started exactly for `MODE`, `-n N MODE` or `MODE -n N` with N > 0, optionally followed by `&`, with interval 5 for the one-word form |
| Nightswatch.WrongCountRejected | nightswatch.c:7-10 | more than 4 words, or a count other than 1 or 3 once a trailing `&` is dropped, is rejected |
| Nightswatch.BadIntervalRejected | nightswatch.c:25-52 | a zero, negative or non-numeric interval is rejected in both orders |
| Nightswatch.NoFallbackToSecondForm | nightswatch.c:25-36 | with `-n` first and a positive interval, a bad mode word is rejected and not retried as the second form |
| Nightswatch.AcceptedExamples | nightswatch.c:6-57 | `interrupt` and `dirty &` start with interval 5; `&` alone, `-n 0` and `-n abc` are rejected |
| Nightswatch.CStr | nightswatch.c:79 | a buffer's C string is its longest NUL-free prefix |
| Nightswatch.CStrUpToNul | nightswatch.c:75-79 | writing a NUL after a NUL-free text makes that text the C string |
| Nightswatch.FirstStop | nightswatch.c:70-78 | the scan of the third line stops at the first newline or `I` |
| Nightswatch.InterruptField | nightswatch.c:70-79 | definition (no contract): the text printed from offset 5 of the third line; characterised by InterruptFieldIsCut |
| Nightswatch.InterruptFieldIsCut | nightswatch.c:70-79 | the printed field is the line from offset 5; it is cut just before the first `I` exactly when that `I` lies at offset 5 or later with no newline before it, and is the whole rest of the line when a newline, an `I` before offset 5, or no `I` at all comes first |
| Nightswatch.CutBuffer | nightswatch.c:70-78 | the buffer after the scan is the line and its NUL, with a NUL written over the first `I` only when no newline comes before it |
| Nightswatch.CutBufferField | nightswatch.c:70-79 | printing that buffer from offset 5 gives the field that InterruptFieldIsCut characterises |
| Nightswatch.InterruptLine | nightswatch.c:70-79 | the array loop that writes a NUL over the `I` prints the field followed by a newline |
| Nightswatch.InterruptSample | nightswatch.c:59-86 | definition (no contract): the verdict and output of night_interrupt on one snapshot; NightInterrupt is proved against it |
| Nightswatch.NightInterrupt | nightswatch.c:59-86 | sampling interrupts fails only when the file cannot be opened, prints nothing when there are fewer than three lines, and otherwise prints the third line's field |
| Nightswatch.DirtyFields | nightswatch.c:99-115 | definition (no contract): the second and third white-space tokens of line 17, stated through the reference tokenizer; DirtyLine is proved against it |
| Nightswatch.DirtySample | nightswatch.c:88-122 | definition (no contract): the verdict and output of night_dirty on one snapshot; NightDirty is proved against it |
| Nightswatch.DirtyLine | nightswatch.c:99-115 | the three strtok calls on line 17 print its second and third words, and fail when either is missing |
| Nightswatch.NightDirty | nightswatch.c:88-122 | sampling memory fails when the file cannot be opened or line 17 lacks a second or third word (having printed the second when only the third is missing), succeeds silently with fewer than 17 lines, and otherwise prints the second and third words |
| Nightswatch.GetMeOut | nightswatch.c:168-205 | a key check asks to stop exactly when select fails, or when a ready stdin starts with `q`; it reads at most two bytes |
| Nightswatch.KeyConsumption | nightswatch.c:194-200 | a key is read together with the byte after it, except a 0xff byte, which the signed char takes for EOF |
| Nightswatch.FirstIndex | nightswatch.c:144-163 | the first position holding the given verdict |
| Nightswatch.Repeat | nightswatch.c:149 | every sleep of a run has the same interval |
| Nightswatch.RunOf | nightswatch.c:144-164 | definition (no contract): the closed form of the loop, from the first failed sample and the first positive key check; characterised by RunFailsAt, RunCancelsAt, TraceEndsAtSample, TraceEndsAtCheck and RunOfEvents |
| Nightswatch.RunFailsAt | nightswatch.c:145-146 | the loop ends at the first failed sample when no key check before it asked to stop |
| Nightswatch.RunCancelsAt | nightswatch.c:147-151 | the loop ends at the first key check that asks to stop, after the first or the second check of its iteration |
| Nightswatch.TraceEndsAtSample | nightswatch.c:144-152 | when every sample succeeds and no key asks to stop, the run lasts as long as the trace of samples |
| Nightswatch.TraceEndsAtCheck | nightswatch.c:144-152 | when every check says stay, the run lasts as long as the trace of key checks |
| Nightswatch.RunOfEvents | nightswatch.c:144-164 | a run takes one sample per iteration and sleeps at most once per sample, and it ends on the event it names |
| Nightswatch.Shown | nightswatch.c:145 | one printed text per sample taken |
| Nightswatch.TakeSample | nightswatch.c:145-157 | one sample is night_interrupt or night_dirty, by mode |
| Nightswatch.SampleNext | nightswatch.c:145 | sample n of the loop yields the n-th verdict and adds the n-th printed text |
| Nightswatch.KeyChecks | nightswatch.c:147-151 | the two key checks of one iteration with the sleep between them: the iteration ends at the first check that asks to stop or at the end of the trace of checks, and the interval is slept only when the first check said stay |
| Nightswatch.WatchLoop | nightswatch.c:144-164 | the loop takes the samples, prints and sleeps that `RunOf` describes |
| Nightswatch.WatchRun | nightswatch.c:124-166 | definition (no contract): the whole run, failing before any sample when the interrupt header is missing, otherwise RunOf of the sample verdicts; RunWatch is proved against it |
| Nightswatch.RunWatch | nightswatch.c:124-166 | nightswatch prints the header, then runs the loop; a missing interrupt header ends the watch before any sample |

## Left out

- Output: printf, colour codes, banners and perror messages are not modelled. The model returns the printed text, or a `SyntaxError` value for the parse errors.
- The helpers in utils (space_delim, tilda_expand, is_recall, count_chars) are not part of this model. They are parameters (`ws`, `expand`, `isRecall`), and `CountIn` models count_chars.
- pied_piper and store_history are not modelled. They appear as `LineEvent` values in the order parse calls them.
- redirection_begin is the parameter `begin`, and redirection_end appears only as an `Effect`. Opening files and duplicating descriptors are not modelled.
- The handlers that parse_command dispatches to are not modelled. They are `Handler` values in an `Invoke` effect.
- A NULL `str` passed to parse_command is not modelled, because Dafny strings are never null.
- Memory leaks and `free` calls are not modelled.
- The fixed-size buffers are not modelled: `MAX_STATIC_STR_LEN`, the redirect file-name buffers, and the chunking that `fgets` applies to long lines. A file is given as its lines.
- NightDirty: the source reads up to 1000 bytes into a 100-byte buffer. The model has no buffer, so it does not capture the overflow on long lines.
- Nightswatch.InterruptSafe, Nightswatch.HeaderSafe: these require each line printed from offset 5 to have at least 5 characters and no NUL. For a shorter line the source reads past the string's end.
- Nightswatch.Strtol: it does not model overflow at the bounds of `long`, or the conversion of the result to `int`.
- Nightswatch.AsChar: this assumes `char` is signed.
- Nightswatch.WatchLoop: this covers the unbounded loop over finite traces of samples and key checks. A run that reaches the end of a trace ends as `TraceEnded`.
- The key checks inside the loop are given as their verdicts. GetMeOut models one check on its own.
- sleep is not performed; the model returns the intervals slept.
- Signals and the terminal are not modelled.
- A trailing standalone `&` is kept as the last argument (`sleep 5 &` runs with the arguments `5 &`). The code keeps it, and the model follows the code. Background.TrailingMarkerKept states this.
