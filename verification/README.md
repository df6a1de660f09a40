# wysiwyg command line, modelled in Dafny

`wysiwyg` is a small command-line key/value tool. Its `main` runs in a fixed order:

1. It finds the data directory from `XDG_DATA_HOME` or `HOME`.
2. It makes a start-up write into that directory.
3. It reads a name from the first line of standard input when standard input is not a terminal.
4. It resolves the arguments into a *get* or a *set*:
   - the command flag is `-g`/`--get` or `-s`/`--set`;
   - a bare first argument means get and can itself be the name;
   - the name comes from the piped line, then a bare command argument, then the next argument;
   - the value of a set is the rest of the arguments joined with spaces and trimmed.
5. It either reports the set or looks the name up.

Every failure prints a message and exits with status 1.

The model recasts this as pure functions:

- `Wrappers`: the `Option` and `Result` types.
- `Text`: Rust's `str::trim` over Unicode white space, `join(" ")`, and `split(' ')`, which undoes the join for a non-empty list of arguments without spaces.
- `Paths`: `get_data_path` as `DataPath`, over paths treated as a base plus relative segments.
- `Resolver`: the argument resolution as `Resolve(piped, args)`. Errors are `NameMissing`, `UnknownCommand` and `ValueMissing`. It comes with a resolution table (one lemma per kind of command argument) and the cross-cutting properties.
- `Program`: the whole of `main` as `Run`. The environment, the start-up write's outcome, standard input, the arguments and the lookup result are all parameters. Each exit becomes `Exited(message)`.

Some behaviours of `main` and `get_data_path` worth knowing:

- An empty `XDG_DATA_HOME` counts as set: the data path is then the relative path `wysiwyg`.
- Only the first line of standard input is read, and it is trimmed before it is used as the name.
- Set only reports the name and value it resolved. Get answers with whatever the lookup returned.

## Model

| member | source | states |
|---|---|---|
| Text.Trim | src/main.rs:32 | the result has no white space at either end, sits inside the input with only white space around it, and is empty exactly when the input is all white space |
| Text.TrimCharacterised | src/main.rs:64 | any trimmed string that the input holds between white space is the trim of the input, so trimming is uniquely determined |
| Text.StripsUnique | src/main.rs:94 | two trimmed strings that both sit inside the same input between white space are equal |
| Text.TrimIdempotent | src/main.rs:94 | trimming twice gives the same result as trimming once |
| Text.JoinWords | src/main.rs:94 | the space-joined arguments are all white space exactly when every argument is |
| Text.SplitJoinRoundTrip | src/main.rs:94 | for a non-empty list of arguments, none containing a space, splitting the joined arguments on spaces gives them back |
| Paths.JoinAssociative | src/main.rs:134 | joining in two steps is joining once with both parts, so joining `.local/share/wysiwyg` is joining its three segments in turn |
| Paths.DataPath | src/main.rs:117-135 | fails with "$HOME missing!" exactly when XDG_DATA_HOME is unset and HOME is unset or empty; otherwise the path ends in `wysiwyg` under XDG_DATA_HOME, or under HOME/.local/share |
| Paths.XdgOverridesHome | src/main.rs:119-122 | once XDG_DATA_HOME is set, the result succeeds and does not depend on HOME at all |
| Paths.EmptyXdgIsHonoured | src/main.rs:120-121 | an empty XDG_DATA_HOME still counts as set and yields the relative path `wysiwyg` |
| Paths.DataPathBase | src/main.rs:117-135 | a successful data path lies under XDG_DATA_HOME if set, else under HOME, and its base is empty only for an empty XDG_DATA_HOME |
| Resolver.ParseToken | src/main.rs:53-60 | exactly `-s`/`--set` select set and `-g`/`--get` select get; an argument is bare exactly when it does not start with a dash, and a bare token keeps its text |
| Resolver.SetValue | src/main.rs:94-97 | the set value is trimmed, and it is empty exactly when every remaining argument is white space |
| Resolver.Resolve | src/main.rs:42-106 | a success always has a non-empty name, equal to the piped name whenever one was piped; a set only comes from a set flag and has a non-empty trimmed value; "unknown command" happens exactly when the first argument is an unknown flag |
| Resolver.Finish | src/main.rs:70-106 | with a name already in hand, a set's value is the trimmed join of all remaining arguments; without one, the first remaining argument is the name and a set's value comes from the arguments after it; a present name is kept, a successful name is never empty, and a get command never yields a set |
| Resolver.NoArguments | src/main.rs:42-52 | with no argument, a non-empty piped name resolves to a get of it; no piped name or an empty one is "name missing" |
| Resolver.UnknownFlagFailsFirst | src/main.rs:53-60 | a dash argument other than the four flags fails with "unknown command" whatever was piped or follows it |
| Resolver.BareTokenIsGet | src/main.rs:56-66 | a bare command argument always means get; its trimmed text is the name only when nothing was piped |
| Resolver.GetFlag | src/main.rs:70-88 | with a get flag the name is the piped one, else the next argument verbatim, else missing; an empty name is "name missing" |
| Resolver.SetFlag | src/main.rs:70-100 | with a set flag, a piped name takes all later arguments as the value; otherwise the next argument is the name and the rest the value; the name is checked before the value |
| Resolver.EmptyPipedLineFails | src/main.rs:71-88 | an empty piped line blocks both argument fallbacks, so resolution fails: "unknown command" for an unknown flag, otherwise "name missing" |
| Resolver.FlagNameIsVerbatim | src/main.rs:70-73 | the name after a flag is not trimmed: `-g " a "` gets `" a "` |
| Resolver.BareNameIsTrimmed | src/main.rs:62-65 | a bare command argument used as the name is trimmed: `" a "` gets `"a"` |
| Resolver.GetIgnoresTrailingArguments | src/main.rs:104-106 | for a get resolved from at least one argument, appending more arguments changes neither the outcome nor the name |
| Resolver.SetTakesTrailingArguments | src/main.rs:92-100 | appending any arguments, blank ones included, after a resolved set still resolves to a set with the same name, whose value is the trimmed join of the old and new remaining arguments |
| Resolver.SetOutcomeExtends | src/main.rs:94-100 | a named set whose remaining arguments include a non-blank one is never "value missing", whatever arguments are appended after them |
| Program.PipedName | src/main.rs:29-33 | there is a piped name exactly when standard input is not a terminal; it is the first line with its surrounding white space removed, and empty exactly when that line is blank |
| Program.Run | src/main.rs:12-113 | a data-path failure exits with "$HOME missing!" and a start-up write failure with its own message, before any argument is looked at; a set has a non-empty name and a non-empty trimmed value; a get answers with the lookup's value; with piped input the name is the trimmed first line |
| Program.RunFollowsResolution | src/main.rs:90-113 | once start-up succeeds, each resolution error exits with its message, a set is reported as resolved, and a get answers with the lookup's value or exits with "value missing!" |
| Program.ExitMessages | src/main.rs:97-109 | the three resolution errors have distinct messages; a failed lookup uses the same message as a missing value |
| Program.InteractiveWithoutArguments | src/main.rs:42-47 | run from a terminal with no arguments, the program exits with "name missing!" |
| Program.BlankPipedLineFails | src/main.rs:29-33 | a blank first piped line, an empty stream included, makes every run fail, even one with a name argument: "unknown command!" for an unknown flag, otherwise "name missing!" |

## Left out

- `get_value` (src/main.rs:137-152) does file I/O, echoes the file's lines and returns the constant `"value"` without looking at the name. Its result is the `lookup` parameter of `Run`.
- `save_text` (src/main.rs:154-177) creates directories and appends a line to a file. Only its three failure messages are modelled; whether it fails is the `save` parameter of `Run`.
- Standard output is not modelled: the `get …` and `set …: …` lines, the echoed file lines, and Rust's debug-escaping of the value. Standard error appears only as the `Exited` message, and the exit status is always 1.
- `read_line` errors are not modelled separately. `main` swallows them with `unwrap_or_default`, which leaves the buffer empty when the first line is not valid UTF-8. That is the model's `firstLine == ""`: the name becomes the empty string and the run fails as for a blank line (`Program.BlankPipedLineFails`).
- Terminal detection, `env::args` and `env::var_os` are parameters. Rust's panic on an argument that is not valid Unicode is not modelled, and neither are non-UTF-8 environment values.
- Path separators and `PathBuf` encoding are abstracted: a path is a base plus a list of segments, and `.local/share/wysiwyg` is the three segments `.local`, `share` and `wysiwyg`.
- There is no key/value store behaviour (record format, replace on set, atomic rename, name validation) because this code has none.
