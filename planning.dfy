/** What `cmdInstall` decides before it touches the device: which argument
    is the package source, where on the device it goes, whether it is
    fetched over HTTP or read from a local file, and the `pm install`
    argument list. */
module Planning {
  import opened Common

  const TmpDir := "/data/local/tmp/"
  const ApkSuffix := ".apk"

  /** `s` with every trailing '/' removed. */
  function TrimTrailingSlashes(s: string): (r: string)
    ensures r == [] || r[|r| - 1] != '/'
    ensures |r| <= |s| && r == s[..|r|]
    ensures forall i :: |r| <= i < |s| ==> s[i] == '/'
  {
    if s != [] && s[|s| - 1] == '/' then TrimTrailingSlashes(s[..|s| - 1]) else s
  }

  /** The longest suffix of `s` that holds no '/'. */
  function AfterLastSlash(s: string): (r: string)
    ensures '/' !in r
    ensures HasSuffix(s, r)
    ensures |r| < |s| ==> s[|s| - |r| - 1] == '/'
    ensures s != [] && s[|s| - 1] != '/' ==> r != []
  {
    if s == [] || s[|s| - 1] == '/' then []
    else AfterLastSlash(s[..|s| - 1]) + [s[|s| - 1]]
  }

  /** Go's `filepath.Base` with '/' as the only separator: "." for the
      empty path, "/" for a path of slashes only, otherwise the last
      element once trailing slashes are removed. */
  function BaseName(path: string): (r: string)
    ensures r != []
    ensures path == [] ==> r == "."
    ensures path != [] && TrimTrailingSlashes(path) == [] ==> r == "/"
    ensures TrimTrailingSlashes(path) != [] ==> r == AfterLastSlash(TrimTrailingSlashes(path))
    ensures r == "/" || '/' !in r
    ensures (exists i :: 0 <= i < |path| && path[i] != '/') ==> '/' !in r
  {
    if path == [] then "."
    else
      var t := TrimTrailingSlashes(path);
      if t == [] then "/" else AfterLastSlash(t)
  }

  /** The file name the package gets on the device: the base name, with
      ".apk" appended unless it already ends that way. */
  function NormalizeName(name: string): (r: string)
    ensures HasSuffix(r, ApkSuffix)
    ensures HasSuffix(name, ApkSuffix) <==> r == name
    ensures !HasSuffix(name, ApkSuffix) ==> r == name + ApkSuffix
  {
    if HasSuffix(name, ApkSuffix) then name else name + ApkSuffix
  }

  /** Normalising twice is normalising once. */
  lemma NormalizeIdempotent(name: string)
    ensures NormalizeName(NormalizeName(name)) == NormalizeName(name)
  {
  }

  /** Where the package is pushed: the temporary directory joined with the
      normalised base name of the source. */
  function Destination(source: string): (r: string)
    ensures HasPrefix(r, TmpDir) && HasSuffix(r, ApkSuffix)
    ensures r[|TmpDir|..] == NormalizeName(BaseName(source))
    ensures (exists i :: 0 <= i < |source| && source[i] != '/') ==> '/' !in r[|TmpDir|..]
  {
    var name := NormalizeName(BaseName(source));
    JoinKeepsEnds(TmpDir, name, ApkSuffix);
    NameHasNoSlash(source);
    TmpDir + name
  }

  lemma NameHasNoSlash(source: string)
    ensures (exists i :: 0 <= i < |source| && source[i] != '/') ==> '/' !in NormalizeName(BaseName(source))
  {
    var b := BaseName(source);
    if '/' !in b && !HasSuffix(b, ApkSuffix) {
      assert '/' !in ApkSuffix;
      assert forall c :: c in b + ApkSuffix ==> c in b || c in ApkSuffix;
    }
  }

  lemma JoinKeepsEnds(dir: string, name: string, suffix: string)
    requires HasSuffix(name, suffix)
    ensures HasPrefix(dir + name, dir) && HasSuffix(dir + name, suffix)
    ensures (dir + name)[|dir|..] == name
  {
    assert (dir + name)[..|dir|] == dir;
    assert (dir + name)[|dir|..] == name;
    assert (dir + name)[|dir + name| - |suffix|..] == name[|name| - |suffix|..];
  }

  /** The base name of "dir/name" is "name", whatever the directory. */
  lemma {:induction false} AfterLastSlashOfJoin(dir: string, name: string)
    requires '/' !in name
    ensures AfterLastSlash(dir + "/" + name) == name
  {
    var s := dir + "/" + name;
    if name != [] {
      assert s[..|s| - 1] == dir + "/" + name[..|name| - 1];
      assert s[|s| - 1] == name[|name| - 1];
      AfterLastSlashOfJoin(dir, name[..|name| - 1]);
      assert name[..|name| - 1] + [name[|name| - 1]] == name;
    }
  }

  lemma BaseNameOfJoin(dir: string, name: string)
    requires name != [] && '/' !in name
    ensures BaseName(dir + "/" + name) == name
  {
    var s := dir + "/" + name;
    assert s[|s| - 1] == name[|name| - 1];
    AfterLastSlashOfJoin(dir, name);
  }

  /** A plain file name is its own base name: `install app.apk`. */
  lemma {:induction false} BaseNameOfPlain(name: string)
    requires name != [] && '/' !in name
    ensures BaseName(name) == name
  {
    AfterLastSlashOfPlain(name);
  }

  lemma {:induction false} AfterLastSlashOfPlain(name: string)
    requires '/' !in name
    ensures AfterLastSlash(name) == name
  {
    if name != [] {
      AfterLastSlashOfPlain(name[..|name| - 1]);
      assert name[..|name| - 1] + [name[|name| - 1]] == name;
    }
  }

  /** A package pushed from "dir/name" lands at TmpDir + "name", with
      ".apk" added only when "name" lacks it. */
  lemma DestinationOfJoin(dir: string, name: string)
    requires name != [] && '/' !in name
    ensures HasSuffix(name, ApkSuffix) ==> Destination(dir + "/" + name) == TmpDir + name
    ensures !HasSuffix(name, ApkSuffix) ==> Destination(dir + "/" + name) == TmpDir + name + ApkSuffix
  {
    BaseNameOfJoin(dir, name);
  }

  /** The empty source still gets a name: Go's base name of "" is ".". */
  lemma DestinationOfEmpty()
    ensures Destination("") == "/data/local/tmp/..apk"
  {
    assert !HasSuffix(".", ApkSuffix);
  }

  /** Where the bytes come from. */
  datatype Source = Http(location: string) | Local(location: string)

  /** A source is fetched over HTTP exactly when it starts with "http://"
      or "https://"; anything else is opened as a local file. */
  function Classify(s: string): (r: Source)
    ensures r.location == s
    ensures r.Http? <==> HasPrefix(s, "http://") || HasPrefix(s, "https://")
  {
    if HasPrefix(s, "http://") || HasPrefix(s, "https://") then Http(s) else Local(s)
  }

  /** The prefix test is case-sensitive and anchored at the start. */
  lemma ClassifyExamples()
    ensures Classify("HTTP://host/a.apk").Local?
    ensures Classify("./http://a.apk").Local?
    ensures Classify("https://host/a.apk").Http?
  {
    assert "HTTP://host/a.apk"[0] != "http://"[0];
    assert "./http://a.apk"[0] != "http://"[0];
  }

  /** The arguments of the remote `pm` command: "install", the
      passthrough flags in their order, then the destination. */
  function PmArgs(flags: seq<string>, dest: string): (r: seq<string>)
    ensures |r| == |flags| + 2
    ensures r[0] == "install" && r[|r| - 1] == dest
    ensures r[1..|r| - 1] == flags
  {
    ["install"] + flags + [dest]
  }

  /** Everything `cmdInstall` derives from its arguments. */
  datatype Plan = Plan(flags: seq<string>, source: Source, dest: string)

  /** The last argument is the source, the ones before it pass through to
      `pm install`. With no argument at all the source code indexes past
      the end of the slice and panics; here that is `MissingSource`. */
  function PlanInstall(args: seq<string>): (r: Result<Plan>)
    ensures args == [] <==> r == Failure(MissingSource)
    ensures args != [] <==> r.Success?
    ensures r.Success? ==> r.value.flags + [r.value.source.location] == args
    ensures r.Success? ==> r.value.source == Classify(args[|args| - 1])
    ensures r.Success? ==> r.value.dest == Destination(args[|args| - 1])
  {
    if args == [] then Failure(MissingSource)
    else
      var source := args[|args| - 1];
      assert args[..|args| - 1] + [source] == args;
      Success(Plan(args[..|args| - 1], Classify(source), Destination(source)))
  }
}
