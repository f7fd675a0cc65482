/** The command-level pieces of main.go: the argument-count check, the
    `parse` command as a whole, the exit status of a command, and the
    translation of a child process's wait error into an exit code. */
module Cli {
  import opened Common
  import opened Archive
  import opened Manifest

  /** `requireAtleastArgs`: despite its name it accepts exactly `n`
      arguments; any other count is refused. */
  function RequireArgs(n: nat, args: seq<string>): (r: Option<Error>)
    ensures r.None? <==> |args| == n
    ensures r.Some? ==> r.value == ArgumentCount(n)
  {
    if |args| != n then Some(ArgumentCount(n)) else None
  }

  /** `parse` refuses no argument and refuses two or more as well. */
  lemma ParseArgumentCount(args: seq<string>)
    ensures RequireArgs(1, args).None? <==> |args| == 1
    ensures args == [] ==> RequireArgs(1, args).Some?
    ensures |args| >= 2 ==> RequireArgs(1, args).Some?
  {
  }

  /** The refusal reads as the tool prints it for `parse`. */
  lemma ArgumentCountMessage()
    ensures ArgumentCount(1).Message() == "require at least 1 args"
  {
  }

  /** `cmdParse`: check the arguments, open the archive at `args[0]`
      (`open` stands for fetching it and reading its ZIP directory), read
      the manifest entry, decode it (`decode` stands for the binary-XML
      library) and resolve the launch activity. Any failure ends the
      command with that failure; the argument check comes before any
      input is opened. */
  method CmdParse(args: seq<string>, open: string -> Result<seq<Entry>>,
                  decode: seq<byte> -> Result<Manifest>) returns (r: Result<ParseOutput>)
    ensures |args| != 1 ==> r == Failure(ArgumentCount(1))
    ensures |args| == 1 && open(args[0]).Failure? ==> r == Failure(open(args[0]).error)
    ensures |args| == 1 && open(args[0]).Success? ==>
              var data := ManifestBytes(open(args[0]).value);
              (data.Failure? ==> r == Failure(data.error)) &&
              (data.Success? && decode(data.value).Failure? ==> r == Failure(decode(data.value).error)) &&
              (data.Success? && decode(data.value).Success? ==>
                 r == Success(ParseOutput(decode(data.value).value.packageName, LaunchName(decode(data.value).value))))
  {
    var refused := RequireArgs(1, args);
    if refused.Some? {
      return Failure(refused.value);
    }
    var archive := open(args[0]);
    if archive.Failure? {
      return Failure(archive.error);
    }
    var data := ReadManifestFromZip(archive.value);
    if data.Failure? {
      return Failure(data.error);
    }
    var manifest := decode(data.value);
    if manifest.Failure? {
      return Failure(manifest.error);
    }
    var output := ParseManifest(manifest.value);
    r := Success(output);
  }

  /** The exit status of a command: 0 when it succeeds, 2 for the runtime
      panic of `install` without arguments, 1 for every `log.Fatal`. */
  function ExitStatus<T>(r: Result<T>): (code: int)
    ensures code == 0 <==> r.Success?
    ensures r.Failure? ==> (code == 2 <==> r.error == MissingSource)
    ensures r.Failure? && r.error != MissingSource ==> code == 1
  {
    match r
    case Success(_) => 0
    case Failure(MissingSource) => 2
    case Failure(_) => 1
  }

  newtype uint32 = x: int | 0 <= x < 0x1_0000_0000

  /** What a process error carries from the operating system: a Unix wait
      status, or anything else. */
  datatype SysInfo = WaitStatus(status: uint32) | OtherSys

  /** The error `cmd.Wait()` returns: the child exited unsuccessfully, or
      something else went wrong. */
  datatype ProcessError = ExitError(sys: SysInfo) | OtherError

  /** `syscall.WaitStatus.ExitStatus` on Unix: the low seven bits are zero
      exactly when the child exited normally, and then bits 8 to 15 hold
      its exit code; a child ended by a signal gives -1. */
  function WaitExitStatus(w: uint32): (code: int)
    ensures -1 <= code <= 255
    ensures code == -1 <==> w % 0x80 != 0
  {
    if w % 0x80 != 0 then -1 else (w as int / 0x100) % 0x100
  }

  /** A child that calls exit(c) has wait status c << 8, and that status
      gives back c. */
  lemma ExitCodeRoundTrip(c: int)
    requires 0 <= c < 0x100
    ensures WaitExitStatus((c * 0x100) as uint32) == c
  {
  }

  /** A child killed by signal `s` (1 to 126) has wait status s, which
      maps to -1. */
  lemma SignalledIsMinusOne(s: uint32)
    requires 1 <= s < 0x7F
    ensures WaitExitStatus(s) == -1
  {
  }

  /** `ErrToExitCodo`: no error is 0, an exit error with a wait status is
      that status's exit code, anything else is 127. */
  function ErrToExitCode(err: Option<ProcessError>): (code: int)
    ensures err.None? ==> code == 0
    ensures -1 <= code <= 255
    ensures (err.Some? && err.value.ExitError? && err.value.sys.WaitStatus?) ==>
              code == WaitExitStatus(err.value.sys.status)
    ensures (err.Some? && !(err.value.ExitError? && err.value.sys.WaitStatus?)) ==> code == 127
  {
    match err
    case None => 0
    case Some(ExitError(WaitStatus(w))) => WaitExitStatus(w)
    case Some(_) => 127
  }

  /** The passthrough path hands the child's own exit code on unchanged. */
  lemma ChildExitCodePropagates(c: int)
    requires 0 <= c < 0x100
    ensures ErrToExitCode(Some(ExitError(WaitStatus((c * 0x100) as uint32)))) == c
  {
    ExitCodeRoundTrip(c);
  }
}
