# mygossh: password-file driver and command dispatch

mygossh is a command-line tool. It runs a shell command on one remote host,
or on every host listed in a file, over SSH. It can also push files to those
hosts or pull files from them. This project models two sequential pieces of
it in Dafny and proves properties about them.

* **The local password-file driver** (`auth/local_file/query.go`). At start-up
  it reads `~/.mygossh/passwd` one line at a time. Each line is split at its
  first space into a user name and an encrypted password, and both halves are
  trimmed. The result is a `user -> ciphertext` map, where later lines
  override earlier ones. `GetPassword` looks a user up in the map and decrypts
  the stored value.
  - `LocalFile.Init` is an imperative method. It has the source's loop, the
    map variable that loop updates, and the same early exits. Its contract
    ties the result to the specification functions `Lines` (how `bufio`'s
    `ReadString('\n')` cuts the file into lines) and `ParseLines` (the map
    built one line at a time). Lemmas then state what those functions mean:
    - the lines are exactly the file's newline-terminated pieces, plus a last piece without a newline when the file does not end in one;
    - a line starting with a space is skipped;
    - the last entry for a user wins;
    - a line without a space stops the load.
* **The decision `main` takes** (`cmd/mygossh/mygossh.go`). `Mygossh.Main` is
  a pure function from the parsed flags to a `Plan`: print the version, print
  the usage text, fail the log set-up, refuse a dangerous command, or hand a
  job to the runner.
  - The safety check `tools.CheckSafe` is a function parameter.
  - So are the collaborators of `initLog`: `tools.MakePath`, `filepath.Join`
    and the logger's `SetLogger`.
  - `MyLog` models `initLog`: the level chosen from `-l`, and the logger
    configuration string whose backslashes are doubled.
    `MyLog.Unescape` is a reference inverse of that escape.

Modules:
* `Wrappers` (`Option`, `Result`);
* `GoStrings` (Go's `unicode.IsSpace`, `strings.TrimSpace` and `strings.Index`
  for one character);
* `LocalFile`;
* `MyLog`;
* `Mygossh`.

**Lines without a space are not skipped.** A line of the password file
holding no space at all, including an empty line in the middle of the file,
makes `strings.Index` return -1, and the slice `data[:index]` then panics
(`auth/local_file/query.go:73-78`). The model keeps that behaviour:
* `LocalFile.Init` returns `Panicked(SliceOutOfRange(lineNo, line))`, naming
  the first such line.
* `LocalFile.ParseLinesPanics` proves that the load succeeds exactly when
  every line holds a space.

Only lines that start with a space are skipped.

Go's `make(chan struct{}, n)` panics when `n` is negative. So a negative `-c`
makes the batch `cmd` and batch `push` paths panic before any host is
contacted (`cmd/mygossh/mygossh.go:137,161`). The plan `MakeChanPanic` records
that case. The batch `pull` path creates no channel.

## Model

| member | source | states |
|---|---|---|
| GoStrings.IsSpaceLatin1 | auth/local_file/query.go:78-79 | `IsSpace`, Go's `unicode.IsSpace` used by the trimming, holds: in the Latin-1 range exactly tab, newline, vertical tab, form feed, carriage return, space, NEL and NBSP; above it only characters between U+1680 and U+3000 |
| GoStrings.IndexOf | auth/local_file/query.go:73 | the result is -1 exactly when the character is absent; otherwise it is the position of the character's first occurrence |
| GoStrings.TrimSpace | auth/local_file/query.go:78-79 | the result is a contiguous slice of the input with only white space cut from either end, neither of its ends is white space, and an already trimmed string is returned unchanged |
| GoStrings.TrimSpaceAfterSpace | auth/local_file/query.go:79 | trimming leading white space followed by a trimmed text gives back that text |
| LocalFile.ReadString | auth/local_file/query.go:64-67 | a read returns a prefix of the unread input: up to and including the first newline, or everything read together with EOF when the input has no newline |
| LocalFile.StripNewline | auth/local_file/query.go:69-71 | the line is the data read, or the data read minus one final newline, and a final newline is always removed |
| LocalFile.Lines | auth/local_file/query.go:63-71 | the lines the loop processes, one per read that does not come back empty at EOF: none exactly for an empty file (what the lines are is stated by `UnlinesLines` and `LinesUnlines`) |
| LocalFile.LinesHaveNoNewline | auth/local_file/query.go:69-71 | after one trailing newline is stripped, no line handed to the parser contains a newline |
| LocalFile.UnlinesLines | auth/local_file/query.go:63-71 | the loop sees every part of the file: putting a newline back after each line gives the file itself, plus a final newline when the last line had none |
| LocalFile.LinesUnlines | auth/local_file/query.go:63-71 | newline-free lines written one per line are read back as exactly those lines, in order |
| LocalFile.ParseLine | auth/local_file/query.go:73-80 | a line is skipped exactly when it starts with a space and has no parse exactly when it holds no space; an entry's user name holds no space and both of its halves are trimmed |
| LocalFile.StepByIndex | auth/local_file/query.go:73-80 | one turn of the loop in terms of the position of the first space: position 0 leaves the map as it is, no space panics with that line and its number, and otherwise the map gets the trimmed text before the first space as key and the trimmed text from that space on as value |
| LocalFile.ParseFormattedLine | auth/local_file/query.go:73-80 | a line made of a non-empty, trimmed, space-free user name, a space and a trimmed password (which may hold inner spaces) parses to exactly that user and password, so every entry the parser yields with a non-empty user name can be written back as a line |
| LocalFile.ParseEmptyUserLine | auth/local_file/query.go:73-80 | the line made of a tab, a space and a trimmed password parses to an empty user name with that password: white space before the first space yields the empty name, so entries with an empty name can be written back as a line too |
| LocalFile.Step | auth/local_file/query.go:73-80 | one turn of the loop panics exactly on a line without a space, naming that line and its number; otherwise no user is dropped from the map, and a line starting with a space leaves it as it is |
| LocalFile.ParseLines | auth/local_file/query.go:61-81 | the map built by the loop over the given lines; a panic names a line of the input and its position |
| LocalFile.ParseLinesSnoc | auth/local_file/query.go:63-81 | one more line either keeps an earlier panic or takes one more step of the loop |
| LocalFile.PanicPersists | auth/local_file/query.go:73-78 | once a line has panicked, later lines change nothing |
| LocalFile.ParseLinesPanics | auth/local_file/query.go:73-78 | the load succeeds exactly when every line holds a space; otherwise it fails, naming the first line without one and that line's number |
| LocalFile.ParseLinesLastWins | auth/local_file/query.go:80 | after a successful load, a user is in the map exactly when some entry line names them, and their value is the password from the last such line |
| LocalFile.AppendLine | auth/local_file/query.go:74-80 | a line starting with a space adds nothing; an entry line makes its user's value its password, adds that user if new, and leaves every other user's value unchanged |
| LocalFile.LinesAdvance | auth/local_file/query.go:64-71 | one read takes exactly one line, without its newline, off the unread rest of the file and moves the position past it |
| LocalFile.Init | auth/local_file/query.go:39-88 | no driver is registered exactly when the home directory or the file cannot be had; otherwise the loop registers "local_file" with the map `ParseLines` gives for the file's lines, or it panics on the first line without a space |
| LocalFile.GetPassword | auth/local_file/query.go:90-104 | a user missing from the map gives the "no password" error, and only such a user does; for a stored user a key shorter than 16 bytes is taken to panic in `skey[:16]` (see Left out); otherwise the ciphertext is decrypted under the key's first 16 bytes, and the answer is the decryption's result or its error |
| LocalFile.GetPasswordIgnoresHost | auth/local_file/query.go:90-104 | the answer does not depend on the host |
| LocalFile.GetPasswordFromFile | auth/local_file/query.go:61-104 | after a successful load, the answer for a user is the decryption of the password on that user's last entry line (or the short-key panic), or "no password" when no entry line names them |
| MyLog.LevelOf | cmd/mygossh/mygossh.go:195-206 | "debug", "error" and "warn" select their own levels, and every other value selects info |
| MyLog.LevelNameSelects | cmd/mygossh/mygossh.go:195-206 | every level is selected by its own name |
| MyLog.Escape | cmd/mygossh/mygossh.go:219 | escaping never shortens a string and leaves a string without backslashes unchanged |
| MyLog.UnescapeEscape | cmd/mygossh/mygossh.go:219 | undoubling the escaped backslashes gives back the original string, so the escape is injective |
| MyLog.EscapeUnescape | cmd/mygossh/mygossh.go:219 | every string that can be undoubled is the escape of its undoubled form |
| MyLog.EscapeAppend | cmd/mygossh/mygossh.go:219 | the escape works character by character: escaping a concatenation is the concatenation of the escapes |
| MyLog.ConfigFramingKept | cmd/mygossh/mygossh.go:215-219 | the JSON framing around the file name holds no backslash, so escaping the whole string equals escaping only the name |
| MyLog.LogConfig | cmd/mygossh/mygossh.go:214-219 | the configuration string is the JSON framing around the escaped file name, and undoubling it gives back the unescaped JSON text |
| MyLog.InitLog | cmd/mygossh/mygossh.go:194-228 | the level is always set from the flag; a failure of `MakePath` is returned as it is; otherwise the file sink is configured with the escaped configuration for `<logpath>/mygossh.log`, and a `SetLogger` error is returned |
| Mygossh.NewUser | cmd/mygossh/mygossh.go:128 | the runner's user record carries `-u`, `-P`, `-p`, `-f` and `-e` |
| Mygossh.Dispatch | cmd/mygossh/mygossh.go:111-189 | the usage text comes exactly for a wrong argument count or an unknown run type. A command is refused exactly in `cmd` mode when the check rejects it and `-f` is absent. A runner plan is for the single host exactly when `-h` is non-empty, and gets the user record from the flags; the batch variants get the ip file, concurrency and (for `cmd`) the serial-safe flag. `-timeout` and `-f` are passed on where the source passes them. push passes the arguments in their given order, and pull swaps them. A negative concurrency makes the batch `cmd` and push paths panic, and only those |
| Mygossh.Push | cmd/mygossh/mygossh.go:144-165 | the usage text exactly for other than two arguments; otherwise the single-host push exactly when `-h` is non-empty, and the batch push or the channel panic by the sign of `-c`, each with the local source and remote destination in the order given |
| Mygossh.AcceptedJobRuns | cmd/mygossh/mygossh.go:111-186 | a known run type with the right argument count, a command the check lets through (or `-f`), and a host or non-negative concurrency always hand the job to a runner |
| Mygossh.Main | cmd/mygossh/mygossh.go:70-191 | `-version` wins over everything. A missing or empty first argument, or an empty run type, gives the usage text. The log set-up fails exactly for well-formed flags whose `initLog` fails, with its error. No host is contacted and no command is refused unless the log set-up succeeded, and then the plan is `Dispatch`'s |
| Mygossh.ScpIsPush | cmd/mygossh/mygossh.go:144 | `-t scp` and `-t push` give the same plan |
| Mygossh.OnlyCmdIsChecked | cmd/mygossh/mygossh.go:121-126 | outside `cmd` mode the plan does not depend on the safety check's answers |
| Mygossh.ForceOverridesCheck | cmd/mygossh/mygossh.go:121 | with `-f`, the plan is the same as if the safety check accepted every command |
| Mygossh.DefaultsRunOnServers | cmd/mygossh/mygossh.go:40-66 | with every flag at its default and one accepted command, the command runs as root on port 22 on the hosts of ip.txt, 30 at a time, with a 10-second timeout |

## Left out

- File and OS access (`os.UserHomeDir`, `os.OpenFile`) is not modelled. The model takes the result as a `PasswdFile` value: the home directory is unknown, the file is missing, the file is unreadable, or the file's text.
- `bufio` read errors other than `io.EOF` are left out. The model reads from a string, which cannot fail that way.
- Text is a sequence of characters, not UTF-8 bytes. For the space and newline the loop searches for, a byte index and a character index give the same split.
- The `enc` package (`AesDecEncode`, `GetKey`) is not part of this model. Decryption is the parameter `aesDec` and the key is the parameter `skey`, so no encrypt/decrypt round trip is claimed. A key shorter than 16 bytes is modelled as the error `ShortKeyPanic`, standing for the panic of `skey[:16]`.
- LocalFile.GetPassword: the key is modelled by its length only, not by its capacity. In Go, `skey[:16]` is checked against the capacity of `skey`, so a key shorter than 16 bytes whose backing array holds at least 16 bytes does not panic there; the model reports `ShortKeyPanic` for every key shorter than 16 bytes.
- `auth.Register` and its registry are not part of this model. `Init` only records that it registers the driver under "local_file".
- The logger (`SetLevel`, `SetLogger`, `Async`, `Flush`, `Close`) and all printing are not modelled. `InitLog` returns the level and configuration it would set, or the error it would return.
- The packages `run`, `machine` and `tools` are not part of this model, and neither are the channels and `sync.WaitGroup` that bound concurrency. A plan records which runner function is called and with which arguments.
- `tools.CheckSafe` is a parameter. Its tokenisation rules are not in this model.
- `tools.MakePath`, `filepath.Join` and `SetLogger` are the parameters of `LogEnv`.
- Flag parsing by the `flag` package is not modelled. `Flags` is the already-parsed record, and `DefaultFlags` gives its declared defaults.
- cmd/mypasstool/mypasstool.go is left out. It is a thin wrapper around the `enc` package.
- help/help.go is left out. It is a constant text with no logic.
