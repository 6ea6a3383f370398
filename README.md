# AutoMCServer: properties reader, setup wizard and launch command

AutoMCServer is a first-run wizard and launcher for a locally hosted Minecraft
server. This project models the three parts of `AutoMCServer.py` that compute
something:

- **Reading `server.properties`.** `Properties.ParseLines` is the reading loop.
  It is an imperative method with a map variable, proved equal to the fold
  `Properties.Parse`. Lemmas then say what that fold means. A line whose first
  character is `#` is a comment. Every other line is split on `=`. The key is
  the text before the first `=`, left unstripped. The value is the text between
  the first `=` and the next one (or the end of the line), stripped. Later lines
  overwrite earlier ones. A non-comment line without `=` makes reading fail;
  the newline-only blank line is one such line.
- **Turning the wizard's answers into a `Config`.** `Wizard.Derive` is a pure
  function of the property map and the four answers (RAM, GUI, server file,
  token). `Wizard.SetupConfig` adds the absent-file case and the reading loop
  in front of it. A run records which of the four wizard questions were asked. This shows that a
  missing `server-ip` or `server-port` stops the wizard before the first wizard
  question, and that a bad RAM answer stops it after the first.
- **Choosing the launch command.** `Launch.LaunchCommand` gives `run.bat` for
  any `.bat` file. For a `.jar` file it gives
  `java -Xmx{N}M -Xms{N}M -jar {name} ` followed by `nogui` or nothing. Any
  other file is an error. `Launch.ShellCommand` adds the `start /wait ` prefix
  that goes to the shell.

The Python `str` operations these rely on are in module `Text`: `split`,
`strip`, `lower`, `startswith`/`endswith`, `int()` and `f"{n}"`. I/O is
replaced by parameters. The properties file is `Option<seq<string>>`: absent,
or the lines `readlines()` returns, newlines kept. The answers to the four
wizard questions are an `Answers` value.

On these points the code may surprise a reader, and the model follows the
code:

- The RAM answer is not checked for being positive. `0` and `-5` are accepted
  (`Wizard.RamAnswerIsTakenAsIs`).
- The port is not range-checked.
- A `.bat` file always launches `run.bat`, whatever its name.
- A line without `=` is not skipped. It ends the read with an error.
- An empty GUI answer gives `nogui = false`, as the prompt's "default=y" says.
  The record's own `nogui` default is `true`, but `setup_config` never uses it
  (`Wizard.EmptyAnswersUseDefaults`).

## Model

| member | source | states |
|---|---|---|
| Text.Split | AutoMCServer.py:112 | `line.split("=")` always has at least one piece. No piece contains `=`. There are two or more pieces exactly when the line contains `=`, so `data[1]` exists exactly then. |
| Text.SplitFirst | AutoMCServer.py:112-113 | The first piece is the text before the first separator. The remaining pieces are the split of the text after it. |
| Text.JoinSplit | AutoMCServer.py:112 | Joining the pieces of a split with the separator gives back the original line. |
| Text.SplitJoin | AutoMCServer.py:112 | Splitting a join of separator-free pieces gives back exactly those pieces. |
| Text.TrimStart | AutoMCServer.py:113 | The result is a suffix of the input. Everything dropped is whitespace. The result does not start with whitespace. |
| Text.TrimEnd | AutoMCServer.py:113 | The result is a prefix of the input. Everything dropped is whitespace. The result does not end with whitespace. |
| Text.Strip | AutoMCServer.py:113 | The stripped value is no longer than the input, and it neither starts nor ends with whitespace. |
| Text.StripInfix | AutoMCServer.py:113 | The stripped value is an infix of the input, and only whitespace lies on either side of it. |
| Text.StripUnchanged | AutoMCServer.py:113 | A string with no whitespace at either end strips to itself. |
| Text.StripIdempotent | AutoMCServer.py:113 | Stripping twice is the same as stripping once. |
| Text.Lower | AutoMCServer.py:133 | Lower-casing keeps the length and leaves no `A`–`Z` in the result. Each upper-case letter becomes its lower-case partner, and every other character is kept. |
| Text.LowerIdempotent | AutoMCServer.py:133 | Lower-casing twice is the same as lower-casing once. |
| Text.LowerIsN | AutoMCServer.py:133 | An answer lower-cases to `"n"` exactly when it is `"n"` or `"N"`. |
| Text.ParseInt | AutoMCServer.py:128 | `int(s)` succeeds exactly on an optional `-` followed by one or more digits. |
| Text.ParseIntValue | AutoMCServer.py:128 | A digit string parses to its decimal value. A leading `0` does not change the value, and a leading `-` negates it. Together with `Text.ParseIntToString`, this fixes the value of every accepted string, such as `"04096"` → 4096 and `"-0"` → 0. |
| Text.LeadingZeroValue | AutoMCServer.py:128 | Putting `0` in front of a digit string keeps it a digit string with the same value. |
| Text.StartsWith | AutoMCServer.py:110 | `s.startswith(p)`: `p` is the first part of `s`. It has no ensures; `Properties.IndentedLineIsNotComment` and `Properties.CommentContributesNothing` state its effect on the reader. |
| Text.EndsWith | AutoMCServer.py:191-193 | `s.endswith(p)`: `p` is the last part of `s`. It has no ensures; `Launch.LaunchCommand`, `Launch.DefaultIsJar` and `Launch.OtherSuffixIsRejected` state its effect on the choice of command. |
| Text.IntToString | AutoMCServer.py:194 | `f"{n}"` for an `int`: a `-` followed by the digits of `-n` when `n` is negative. It has no ensures; `Text.NatToString`, `Text.DigitsOfNat` and `Text.ParseIntToString` state what the rendering means. |
| Text.NatToString | AutoMCServer.py:194 | The rendering of a natural number is a non-empty string of digits with no leading zero (only `0` itself starts with `0`). |
| Text.DigitsOfNat | AutoMCServer.py:194 | The digits rendered for `n` have value `n`. |
| Text.ParseIntToString | AutoMCServer.py:194 | `int(f"{n}") == n` for every integer `n`, negative ones included. |
| Properties.Parse | AutoMCServer.py:107-114 | The reader's result, one line at a time from the first. It has no ensures; `Properties.FailsAtFirstMalformed`, `Properties.Domain`, `Properties.LastAssignmentWins`, `Properties.PrefixError` and `Properties.CommentContributesNothing` state what it means. |
| Properties.IsComment | AutoMCServer.py:110 | `line.startswith("#")`. It has no ensures; `Properties.IndentedLineIsNotComment` shows that leading whitespace makes a line an assignment. |
| Properties.KeyOf | AutoMCServer.py:112-113 | `data[0]` of `line.split("=")`. It has no ensures; `Properties.LineFields` proves it is the unstripped text before the first `=`. |
| Properties.ValueOf | AutoMCServer.py:112-113 | `data[1].strip()` of `line.split("=")`, defined only when the line holds `=`. It has no ensures; `Properties.LineFields` proves it is the stripped text between the first and the next `=`. |
| Properties.ParseLines | AutoMCServer.py:107-114 | The loop returns the fold `Parse` of the lines. On success, its keys are exactly the keys of the non-comment lines. |
| Properties.PrefixError | AutoMCServer.py:109-113 | Once a prefix of the file fails, the whole file fails with the same error: reading stops at the failing line. |
| Properties.FailsAtFirstMalformed | AutoMCServer.py:110-113 | Reading fails exactly when some line is neither a comment nor contains `=`. The error names the first such line. |
| Properties.Domain | AutoMCServer.py:109-114 | A successful read has one entry per distinct key among the non-comment lines and no other entry. Comment lines contribute nothing. |
| Properties.LastAssignmentWins | AutoMCServer.py:114 | The value stored for a key is the value of the last non-comment line with that key. |
| Properties.AppendAssignment | AutoMCServer.py:112-114 | One more assignment line writes its key and value over the map read so far. |
| Properties.CommentContributesNothing | AutoMCServer.py:110-111 | A `#` line appended to the input leaves the result unchanged. |
| Properties.LineFields | AutoMCServer.py:112-113 | The key is the unstripped text before the first `=`. The value is the stripped text between the first `=` and the next `=` or the end of the line. Text after a second `=` is dropped. |
| Properties.AssignmentLine | AutoMCServer.py:112-113 | A line built as `key=value` from `=`-free parts reads back as `key` and `value` stripped. |
| Properties.IndentedLineIsNotComment | AutoMCServer.py:110-111 | A line starting with whitespace, such as ` #x=1`, is not a comment. On its own it reads as one entry. |
| Properties.BlankLineFails | AutoMCServer.py:109-113 | A whitespace-only line, such as `"\n"`, makes reading fail at that line. |
| Properties.CommentThenTwoAssignments | AutoMCServer.py:107-114 | A comment and two assignments read into the map of the two assignments, in order. |
| Properties.TypicalFile | AutoMCServer.py:107-114 | A comment, then `server-ip=…` and `server-port=…`, read into exactly those two entries. |
| Wizard.Derive | AutoMCServer.py:116-156 | None of the four wizard questions is asked exactly when a required key is missing, and that run fails. The questions asked are a prefix of RAM, GUI, file, token. RAM: empty gives 2048, an integer gives itself, anything else fails after the first question. A `server-port` value that is not an integer fails with `InvalidPort`, after all four questions. On success: `ip` and `port` come from the map, `nogui` holds exactly for `n`/`N`, an empty file name becomes `server.jar`, and the token is passed through. |
| Wizard.SetupConfig | AutoMCServer.py:101-156 | An absent file fails with no question asked. A malformed file fails with the reader's error. Otherwise the run is `Derive` of the parsed map. Any question asked implies a readable file that holds both required keys. |
| Wizard.HasServerAddress | AutoMCServer.py:116 | Both `server-ip` and `server-port` are keys of the map. It has no ensures; the first two ensures of `Wizard.Derive` and `Wizard.MissingKeyAsksNothing` state its effect: without it no wizard question is asked and the run fails. |
| Wizard.AllPrompts | AutoMCServer.py:121-146 | The order of the four `input()` calls: RAM (line 121), GUI (133), file name (134), token (146). It has no ensures; `Wizard.Derive` states that the questions asked are always a prefix of it, all of it on success. |
| Wizard.DefaultRamMb | AutoMCServer.py:125-126 | The heap size 2048 used for an empty RAM answer. It has no ensures; `Wizard.Derive` and `Wizard.EmptyAnswersUseDefaults` state that an empty answer gives it. |
| Wizard.MissingKeyAsksNothing | AutoMCServer.py:116-121 | A file lacking `server-ip` or `server-port` gives the same question-free failure, whatever the answers. |
| Wizard.EmptyAnswersUseDefaults | AutoMCServer.py:124-153 | Empty answers give the record's default heap size and file name. An empty GUI answer gives `nogui = false`. |
| Wizard.RamAnswerIsTakenAsIs | AutoMCServer.py:124-131 | Any integer typed at the RAM prompt becomes the heap size, zero and negative ones included. |
| Configuration.DefaultConfig | AutoMCServer.py:34-39 | The record's field defaults: `localhost`, 25565, 2048, `nogui` true, `server.jar`. It has no ensures; `Launch.DefaultConfigCommand` and `Wizard.EmptyAnswersUseDefaults` state what they mean for the launch and the wizard. |
| Launch.JavaCommand | AutoMCServer.py:194 | The f-string `java -Xmx{N}M -Xms{N}M -jar {name} {flag}`. It has no ensures; `Launch.HeapFlagsMatchConfig`, `Launch.NoguiFlagIff` and `Launch.NoguiOnlyAddsFlag` state what it means. |
| Launch.LaunchCommand | AutoMCServer.py:190-198 | A command exists exactly for `.bat` and `.jar` names. A `.bat` name gives `run.bat`. A `.jar` name gives the Java command. |
| Launch.ShellCommand | AutoMCServer.py:199 | A shell string exists exactly when a command does. It is `start /wait ` followed by the command. |
| Launch.BatIgnoresName | AutoMCServer.py:191-192 | Every `.bat` file gives the same shell string, `start /wait run.bat`. |
| Launch.HeapFlagsMatchConfig | AutoMCServer.py:194 | Both heap flags carry `IntToString(max_mem_mb)`, the canonical decimal text with no leading zero (`Text.NatToString`), and that text parses back as `max_mem_mb`. |
| Launch.NoguiFlagIff | AutoMCServer.py:194 | The Java command ends in `nogui` exactly when `cfg.nogui`. Otherwise it ends with the file name and a space. |
| Launch.NoguiOnlyAddsFlag | AutoMCServer.py:194 | The command with `nogui` is the command without it, followed by `nogui`. |
| Launch.OtherSuffixIsRejected | AutoMCServer.py:195-198 | Any other suffix gives an error and no shell string. |
| Launch.DefaultIsJar | AutoMCServer.py:39 | The default server file `server.jar` takes the `.jar` branch. |
| Launch.DefaultJavaCommand | AutoMCServer.py:34-39 | The defaults give `java -Xmx2048M -Xms2048M -jar server.jar nogui`. |
| Launch.DefaultConfigCommand | AutoMCServer.py:34-39 | The record's defaults give the shell string `start /wait java -Xmx2048M -Xms2048M -jar server.jar nogui`. |
| FirstRun.CommandDependsOnLaunchFields | AutoMCServer.py:190-199 | The shell string depends only on the heap size, the GUI choice and the server file name. |
| FirstRun.DefaultAnswersWithoutGui | AutoMCServer.py:121-153 | Empty RAM and file answers, with `n` at the GUI prompt, launch `server.jar` with a 2048 MB heap and `nogui`. |

## Left out

- File-system access is not modelled: the existence checks, `open` and `readlines`. The properties file is a parameter, either absent or a sequence of lines.
- JSON save and load of the record, and the schema validation library behind it (`Config.save`, `Config.load`, `ConfigError`), are left out. They are third-party behaviour.
- The port coercion done by that library is modelled by the same decimal parser as `int()`. The library's other leniencies are not modelled.
- Text.ParseInt: accepts only an optional `-` and ASCII digits. Python's `int()` also takes surrounding whitespace, a `+` sign, `_` separators and non-ASCII digits. For those answers the model reports a failure that the program does not. In the other direction, current CPython's `int()` raises `ValueError` on a decimal string longer than 4300 digits, so `setup_config` returns None for such a RAM answer. The model accepts it.
- Text.IsSpace: only the ASCII whitespace that `str.strip()` removes is modelled (space, tab, newline, carriage return, vertical tab, form feed, `\x1c`–`\x1f`). Unicode whitespace such as U+00A0 is not removed by the model.
- Text.Lower: changes ASCII letters only. This does not affect the GUI rule, since no other character lower-cases to `n`.
- The `Console` class is left out: colours, timestamps, screen clearing and printing.
- The ngrok installation, the authtoken command, the tunnel and the display of its address are left out. They are a network client and a foreign library.
- The background thread, the actual `os.system` process spawn, and the infinite park loop at the end are left out.
- The `__main__` control flow is left out. That includes its tuple unpacking of `setup_config`'s result before the `None` check.
- The `Press Enter to Exit.` prompt of `enter_to_exit()` after the missing-key error is left out; `asked` records only the four wizard questions.
- `exit()` called inside the launch thread is left out. The model only records that no command is issued.
