/** The lookup of the manifest entry inside the package archive
    (`readManifestFromZip` in main.go). Parsing the ZIP container is left to
    a library outside this model: the archive is the sequence of its entries
    in directory order, and each entry carries either the bytes that opening
    and reading it yields or the error that doing so reports. */
module Archive {
  import opened Common

  const ManifestName := "AndroidManifest.xml"

  datatype Entry = Entry(name: string, body: Result<seq<byte>>)

  /** The position of the first entry named exactly `name`. */
  function FirstNamed(entries: seq<Entry>, name: string): (r: Option<nat>)
    ensures r.Some? ==> r.value < |entries| && entries[r.value].name == name
    ensures r.Some? ==> forall j :: 0 <= j < r.value ==> entries[j].name != name
    ensures r.None? <==> forall j :: 0 <= j < |entries| ==> entries[j].name != name
  {
    if entries == [] then None
    else if entries[0].name == name then Some(0)
    else
      match FirstNamed(entries[1..], name)
      case None => None
      case Some(k) => Some(k + 1)
  }

  /** What reading the manifest out of `entries` yields: the body of the
      first entry named `AndroidManifest.xml`, or "File not found". */
  function ManifestBytes(entries: seq<Entry>): (r: Result<seq<byte>>)
    ensures (forall j :: 0 <= j < |entries| ==> entries[j].name != ManifestName) ==>
              r == Failure(FileNotFound(ManifestName))
    ensures forall k :: 0 <= k < |entries| && entries[k].name == ManifestName
                        && (forall j :: 0 <= j < k ==> entries[j].name != ManifestName)
                        ==> r == entries[k].body
  {
    match FirstNamed(entries, ManifestName)
    case None => Failure(FileNotFound(ManifestName))
    case Some(k) => entries[k].body
  }

  /** The loop of `readManifestFromZip`: entries with another name are
      skipped; the first one with the manifest's name ends the loop with its
      contents or its read error; running off the end is "not found". */
  method ReadManifestFromZip(entries: seq<Entry>) returns (r: Result<seq<byte>>)
    ensures r == ManifestBytes(entries)
  {
    var i := 0;
    while i < |entries|
      invariant 0 <= i <= |entries|
      invariant forall j :: 0 <= j < i ==> entries[j].name != ManifestName
    {
      if entries[i].name == ManifestName {
        FirstNamedIs(entries, ManifestName, i);
        return entries[i].body;
      }
      i := i + 1;
    }
    r := Failure(FileNotFound(ManifestName));
  }

  /** When entry `i` has the name and none before it does, `i` is the first. */
  lemma {:induction false} FirstNamedIs(entries: seq<Entry>, name: string, i: nat)
    requires i < |entries| && entries[i].name == name
    requires forall j :: 0 <= j < i ==> entries[j].name != name
    ensures FirstNamed(entries, name) == Some(i)
  {
    if i > 0 {
      FirstNamedIs(entries[1..], name, i - 1);
    }
  }

  /** The error of a missing manifest reads as the tool prints it. */
  lemma NotFoundMessage()
    ensures FileNotFound(ManifestName).Message() == "File not found: AndroidManifest.xml"
  {
  }

  /** The match is exact: an entry whose name differs only in letter case
      is not the manifest. */
  lemma CaseSensitive(data: seq<byte>)
    ensures ManifestBytes([Entry("androidmanifest.xml", Success(data))]) == Failure(FileNotFound(ManifestName))
  {
  }

  /** Entries after the first manifest entry never change what is read. */
  lemma {:induction false} LaterEntriesIgnored(entries: seq<Entry>, more: seq<Entry>)
    requires FirstNamed(entries, ManifestName).Some?
    ensures ManifestBytes(entries + more) == ManifestBytes(entries)
  {
    var k := FirstNamed(entries, ManifestName).value;
    assert (entries + more)[k] == entries[k];
    forall j | 0 <= j < k ensures (entries + more)[j].name != ManifestName {
      assert (entries + more)[j] == entries[j];
    }
    FirstNamedIs(entries + more, ManifestName, k);
  }
}
