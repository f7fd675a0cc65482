/** Values shared by the whole model: bytes, the error taxonomy of the tool,
    a Result wrapper and the two string predicates of Go's `strings` package
    that the tool relies on. */
module Common {

  /** One octet of a file's contents. */
  newtype byte = x: int | 0 <= x < 256

  /** The failures the tool reports. Every one of them ends the invocation
      through `log.Fatal` (exit status 1), except `MissingSource`, which is
      the index-out-of-range panic of `install` called without arguments. */
  datatype Error =
    | FileNotFound(name: string)        // archive has no entry of that name
    | EntryUnreadable(name: string)     // the entry exists but cannot be opened or read
    | OpenFailure(location: string)     // the source cannot be opened or fetched
    | DecodeFailure                     // the binary manifest does not decode
    | ArgumentCount(required: nat)      // `requireAtleastArgs` refused the arguments
    | MissingSource                     // `install` has no trailing source argument
    | WriteFailure(path: string)        // pushing the package to the device failed
    | CommandFailure(command: string)   // a remote command reported an error
  {
    /** The text of the error where the tool spells it out itself. */
    function Message(): string
    {
      match this
      case FileNotFound(n) => "File not found: " + n
      case ArgumentCount(n) => "require at least " + Decimal(n) + " args"
      case _ => "error"
    }
  }

  /** The decimal spelling of `n`, as `%d` prints it. */
  function Decimal(n: nat): string
  {
    if n < 10 then [DigitChar(n)] else Decimal(n / 10) + [DigitChar(n % 10)]
  }

  function DigitChar(d: nat): char
    requires d < 10
  {
    "0123456789"[d]
  }

  datatype Result<+T> = Success(value: T) | Failure(error: Error)

  datatype Option<+T> = None | Some(value: T)

  /** Go's `strings.HasPrefix`. */
  predicate HasPrefix(s: string, prefix: string)
  {
    |prefix| <= |s| && s[..|prefix|] == prefix
  }

  /** Go's `strings.HasSuffix`. */
  predicate HasSuffix(s: string, suffix: string)
  {
    |suffix| <= |s| && s[|s| - |suffix|..] == suffix
  }
}
