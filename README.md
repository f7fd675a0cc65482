# adbx core, modelled in Dafny

adbx is a command-line front end to `adb`. Its `parse` command opens an
Android package (a ZIP archive, local or over HTTP), reads the binary
`AndroidManifest.xml` entry and prints the package name and the launch
activity. Its `install` command pushes a package to `/data/local/tmp/` on
the device, runs `pm install` there and removes the pushed file. Anything
else is handed to `adb` itself, and the child's exit status is translated
into the tool's own.

This project models the decision logic of those commands. Each piece is
stated in the program's own terms.

- `Manifest` (manifest.dfy): the decoded manifest (package, activities,
  intent filters) and the nested scan that picks the launch activity. The
  first activity in declaration order with a `MAIN`/`LAUNCHER` filter wins.
  With no such activity the name is empty and output is still produced.
- `Archive` (archive.dfy): the archive as a sequence of named entries. The
  first entry named exactly `AndroidManifest.xml` is read; with none, the
  error is "File not found: AndroidManifest.xml".
- `Planning` (planning.dfy): argument splitting, the base name (Go's
  `filepath.Base` with `/` as separator), `.apk` normalisation, the
  destination path, the HTTP/local decision and the `pm install` arguments.
- `RemoteDevice` (device.dfy): a device object that logs every operation
  issued to it. Its replies come from a fixed function of the operation.
- `Install` (install.dfy): the push → `pm install` → `rm` sequence, as a
  function of the device's replies and as a method that drives a device.
- `Cli` (cli.dfy): `requireAtleastArgs`, the whole `parse` command, the
  exit status of a command, and `ErrToExitCodo` (Unix wait statuses).
- `Common` (common.dfy): bytes, the error taxonomy, `Result`, and Go's
  `strings.HasPrefix`/`HasSuffix`.

Two behaviours of the program that its names do not suggest:

- A failed `pm install` leaves the pushed file on the device. The removal
  is deferred (main.go:180-183), and `log.Fatal` skips deferred calls
  (main.go:185-186). A failed push (main.go:170-173) issues no removal at all.
- `requireAtleastArgs` demands exactly `n` arguments despite its name
  (main.go:93).

## Model

| member | source | states |
|---|---|---|
| `Manifest.FirstLauncher` | main.go:69-78 | the index found is an activity with a main/launcher filter and no earlier activity has one; None exactly when no activity has one |
| `Manifest.LaunchName` | main.go:69-82 | the launch name is the name of the first activity in declaration order with a main/launcher filter, or "" when there is none |
| `Manifest.ResolveLaunchActivity` | main.go:69-79 | the nested scan over activities and their filters, with its early exit, returns exactly LaunchName |
| `Manifest.FirstLauncherIs` | main.go:70-78 | a launcher activity with no launcher before it is the one the scan selects |
| `Manifest.ParseManifest` | main.go:69-84 | the output pairs the package name with the launch activity's name, and is produced even when no launcher exists |
| `Manifest.SingleLauncher` | main.go:69-84 | a manifest whose only activity has a MAIN/LAUNCHER filter reports that activity |
| `Manifest.LaunchStableUnderAppend` | main.go:70-78 | activities declared after the first launcher never change the result (first match wins) |
| `Archive.FirstNamed` | main.go:48-51 | the index found holds the name and no earlier entry does; None exactly when no entry has the name |
| `Archive.ManifestBytes` | main.go:47-61 | the result is the body (or read error) of the first entry named exactly AndroidManifest.xml, and FileNotFound when no entry has that name |
| `Archive.ReadManifestFromZip` | main.go:47-61 | the loop that skips other names and stops at the first match returns exactly ManifestBytes |
| `Archive.FirstNamedIs` | main.go:48-51 | an entry with the name and none before it is the one the loop stops at |
| `Archive.NotFoundMessage` | main.go:60 | the missing-manifest error reads "File not found: AndroidManifest.xml" |
| `Archive.CaseSensitive` | main.go:49 | an entry named androidmanifest.xml is not the manifest |
| `Archive.LaterEntriesIgnored` | main.go:48-59 | entries after the first manifest entry never change what is read |
| `Planning.TrimTrailingSlashes` | main.go:121 | the result is a prefix of the path, does not end in '/', and only slashes were removed |
| `Planning.AfterLastSlash` | main.go:121 | the result is a slash-free suffix of the path, preceded by '/' when shorter than it, and non-empty when the path does not end in '/' |
| `Planning.BaseName` | main.go:121 | the base name is "." for the empty path, "/" for a path of slashes only, and otherwise the last element of the path once trailing slashes are removed; it is never empty and holds no '/' unless the path is all slashes |
| `Planning.AfterLastSlashOfPlain` | main.go:121 | a name without '/' is its own last element |
| `Planning.BaseNameOfPlain` | main.go:121 | a non-empty name without '/' is its own base name |
| `Planning.AfterLastSlashOfJoin` | main.go:121 | the last element of dir + "/" + name is name |
| `Planning.BaseNameOfJoin` | main.go:121 | the base name of dir + "/" + name is name |
| `Planning.NormalizeName` | main.go:122-124 | the name always ends in ".apk"; it is left unchanged exactly when it already does, otherwise ".apk" is appended |
| `Planning.NormalizeIdempotent` | main.go:122-124 | normalising twice equals normalising once |
| `Planning.Destination` | main.go:121-125 | the destination starts with /data/local/tmp/, ends with ".apk", the rest is the normalised base name, and it holds no further '/' unless the source is all slashes |
| `Planning.NameHasNoSlash` | main.go:121-125 | a source with some non-slash character yields a file name without '/' |
| `Planning.JoinKeepsEnds` | main.go:125 | joining the directory and a ".apk" name keeps the directory as prefix, the suffix, and the name after the directory |
| `Planning.DestinationOfJoin` | main.go:121-125 | dir/name.apk goes to /data/local/tmp/name.apk and dir/name to /data/local/tmp/name.apk |
| `Planning.DestinationOfEmpty` | main.go:121-125 | the empty source's destination is /data/local/tmp/..apk |
| `Planning.Classify` | main.go:129-145 | a source is fetched over HTTP exactly when it starts with "http://" or "https://", otherwise it is a local file |
| `Planning.ClassifyExamples` | main.go:129 | the prefix test is case-sensitive and anchored at the start |
| `Planning.PmArgs` | main.go:184 | the pm arguments are "install", the passthrough flags in order, then the destination |
| `Planning.PlanInstall` | main.go:117-129 | planning succeeds exactly when there is an argument; then the last argument is the source and the ones before it are the flags (flags + [source] == args); no arguments is the MissingSource panic |
| `RemoteDevice.Device.WriteFile` | main.go:170 | the write is appended to the trace and succeeds as the device replies |
| `RemoteDevice.Device.RunCommand` | main.go:182-184 | the command is appended to the trace and returns the device's output and status |
| `Install.Sequence` | main.go:170-188 | operations are a non-empty prefix of push, pm install, rm; pm install is issued iff the push succeeded; rm iff pm install was issued and succeeded; success iff rm was issued, with pm's output; otherwise the push or pm error |
| `Install.CleanupReplyIgnored` | main.go:180-183 | the reply to the removal never changes the operations or the result |
| `Install.PushAndInstall` | main.go:170-188 | the device's trace grows by exactly the operations Sequence issues for the plan and the result is Sequence's |
| `Install.Command` | main.go:117-188 | no arguments or an unopenable source issue no device operation and fail; with an argument whose source opens, the run is exactly the sequence for the plan |
| `Install.CmdInstall` | main.go:117-188 | the device's trace grows by exactly the operations Command issues and the result is Command's |
| `Cli.RequireArgs` | main.go:92-96 | the check passes exactly when there are n arguments, otherwise it fails with ArgumentCount(n) |
| `Cli.ParseArgumentCount` | main.go:98-99 | parse refuses zero arguments and two or more |
| `Cli.ArgumentCountMessage` | main.go:94 | the refusal of parse reads "require at least 1 args" |
| `Cli.CmdParse` | main.go:98-115 | a wrong argument count fails before anything is opened; each open, lookup and decode failure is passed on; success gives the package name and launch activity of the decoded manifest |
| `Cli.ExitStatus` | main.go:170-188 | a command exits 0 exactly when it succeeds, 2 on the missing-source panic, 1 on log.Fatal |
| `Cli.WaitExitStatus` | main.go:35-36 | the exit status lies in -1..255 and is -1 exactly when the child did not exit normally |
| `Cli.ExitCodeRoundTrip` | main.go:35-36 | the wait status of exit(c) gives back c |
| `Cli.SignalledIsMinusOne` | main.go:35-36 | a child killed by a signal maps to -1 |
| `Cli.ErrToExitCode` | main.go:24-40 | no error maps to 0, an exit error with a wait status to that status's exit code, anything else to 127 |
| `Cli.ChildExitCodePropagates` | main.go:214-223 | a child's exit code 0..255 is passed on unchanged |

## Left out

- Decoding the binary manifest (`apk.Unmarshal`, main.go:65) is a library call. It is the `decode` parameter of `Cli.CmdParse`.
- Opening the source (`httpfs.Open`, main.go:102) and reading its ZIP directory (main.go:106) are library I/O. They are the `open` parameter. Entry decompression (main.go:52-56) is an entry's `body`, either bytes or an error.
- `ioutil.ReadAll` can return partial data together with an error. The model keeps only the error, which is all the caller uses.
- Fetching over HTTP (`goreq`), reading `Content-Length` and opening a local file (main.go:131-144) are I/O. Whether opening succeeds is the `canOpen` parameter of `Install.Command`.
- The package's bytes are not modelled. A `WriteFile` operation records the path and mode, not the contents.
- The progress poller goroutine, its `Stat` calls, the `done` channel and the 200 ms ticks (main.go:151-177) are concurrency and timing. They only read the device, so the trace holds no `Stat` operations.
- The `pb` progress bar (main.go:146-149, 177) and the log lines are user-interface output.
- The JSON rendering (main.go:80-84) is a library serializer. The output is the (packageName, launchActivity) pair.
- `main`'s device selection (`-s serial`), command dispatch, and the passthrough `exec` of `adb` with its repeated `cmd.Start()` (main.go:193-223) are process and device glue. Only the exit-code translation of that path is modelled.
- Closing files and response bodies (main.go:136, 143) has no effect on what the model describes.
- Planning.BaseName: follows Go's `filepath.Base` with '/' as the only separator. It does not model Windows separators or volume names.
- Cli.ErrToExitCode: models Unix wait statuses only. Windows encodes `WaitStatus` differently.
- Cli.ExitStatus: models the exit status that `log.Fatal` and a runtime panic produce, not the text they print.
- RemoteDevice.Device: the device answers each operation by a fixed function of that operation. The model does not represent a device whose answers change over time.
