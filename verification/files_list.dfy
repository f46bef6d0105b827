/** `files list` (src/commands/files/list.js): the files the service yields,
    optionally restricted to a set of purposes, one line each. */
module FilesList {

  import opened Wrappers
  import opened Seqs

  datatype FileInfo = FileInfo(id: string, fileName: string, purpose: string)

  /** `${file.id} (${file.file_name})`. */
  function Line(f: FileInfo): (r: string)
    ensures |r| == |f.id| + |f.fileName| + 3
    ensures r[..|f.id|] == f.id
    ensures r[|f.id|..|f.id| + 2] == " ("
    ensures r[|f.id| + 2..|r| - 1] == f.fileName
    ensures r[|r| - 1] == ')'
  {
    f.id + " (" + f.fileName + ")"
  }

  /** `!args.purpose || args.purpose.includes(file.purpose)`: an array, even
      an empty one, is truthy. */
  predicate Selected(purpose: Option<seq<string>>, f: FileInfo) {
    purpose.None? || f.purpose in purpose.value
  }

  /** The files that are printed, in the order they were yielded. */
  function Shown(purpose: Option<seq<string>>, files: seq<FileInfo>): (r: seq<FileInfo>)
    ensures |r| <= |files|
    ensures forall f :: f in r <==> f in files && (purpose.None? || f.purpose in purpose.value)
  {
    Filter(f => Selected(purpose, f), files)
  }

  /** The printed lines. */
  function Listed(purpose: Option<seq<string>>, files: seq<FileInfo>): (r: seq<string>)
    ensures |r| == |Shown(purpose, files)|
    ensures forall i :: 0 <= i < |r| ==> r[i] == Line(Shown(purpose, files)[i])
  {
    Map(Line, Shown(purpose, files))
  }

  /** Without `--purpose`, every file is listed, in order. */
  lemma NoFilterListsAll(files: seq<FileInfo>)
    ensures Listed(None, files) == Map(Line, files)
  {
    FilterAll(f => Selected(None, f), files);
  }

  /** An empty purpose list is truthy, and matches nothing. */
  lemma EmptyPurposeListsNothing(files: seq<FileInfo>)
    ensures Listed(Some([]), files) == []
  {
    FilterNone(f => Selected(Some([]), f), files);
  }

  /** Listing a stream in two parts gives the two listings one after the
      other: output order is yield order. */
  lemma ListedInYieldOrder(purpose: Option<seq<string>>, first: seq<FileInfo>, rest: seq<FileInfo>)
    ensures Shown(purpose, first + rest) == Shown(purpose, first) + Shown(purpose, rest)
  {
    FilterAppend(f => Selected(purpose, f), first, rest);
  }
}
