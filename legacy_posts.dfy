/** What the legacy corpus's directory listings and post frontmatter look like to the scripts. */
module LegacyPosts {
  import opened Wrappers
  import opened JsText

  /** `Dirent.isFile()` / `Dirent.isDirectory()`; `Other` covers links, sockets and the like. */
  datatype EntryKind = File | Directory | Other

  /** One `readdir(..., { withFileTypes: true })` entry together with what reading it would parse to. */
  datatype DirEntry<M> = DirEntry(name: string, kind: EntryKind, metadata: M)

  /** A post's `remote` block; every field may be missing in the legacy data. */
  datatype Remote = Remote(date: Option<string>, url: Option<string>, publisher: Option<string>)

  /**
   * `metadata.remote?.date && metadata.remote.publisher && metadata.remote.url`
   * taken as a condition: a remote block whose three fields are all truthy.
   */
  predicate IsRemote(remote: Option<Remote>) {
    remote.Some? && Truthy(remote.value.date) && Truthy(remote.value.publisher) && Truthy(remote.value.url)
  }

  /** The entries that are files, in directory order (`if (!entry.isFile()) continue;`). */
  function Files<M>(entries: seq<DirEntry<M>>): (files: seq<DirEntry<M>>)
    ensures |files| <= |entries|
    ensures forall i :: 0 <= i < |files| ==> files[i].kind == File
  {
    if entries == [] then []
    else
      var n := |entries| - 1;
      Files(entries[..n]) + if entries[n].kind == File then [entries[n]] else []
  }

  lemma FilesSnoc<M>(entries: seq<DirEntry<M>>, e: DirEntry<M>)
    ensures Files(entries + [e]) == Files(entries) + if e.kind == File then [e] else []
  {
    assert (entries + [e])[..|entries|] == entries;
  }

  /** Every kept entry is a listed one, and every listed file is kept. */
  lemma {:induction false} FilesAreListed<M>(entries: seq<DirEntry<M>>)
    ensures forall i :: 0 <= i < |Files(entries)| ==> Files(entries)[i] in entries
    ensures forall e :: e in entries && e.kind == File ==> e in Files(entries)
  {
    if entries != [] {
      var n := |entries| - 1;
      FilesAreListed(entries[..n]);
      assert entries == entries[..n] + [entries[n]];
    }
  }

  /** The entries that are directories, in directory order (`if (!entry.isDirectory()) continue;`). */
  function Directories<M>(entries: seq<DirEntry<M>>): (dirs: seq<DirEntry<M>>)
    ensures |dirs| <= |entries|
    ensures forall i :: 0 <= i < |dirs| ==> dirs[i].kind == Directory
  {
    if entries == [] then []
    else
      var n := |entries| - 1;
      Directories(entries[..n]) + if entries[n].kind == Directory then [entries[n]] else []
  }

  lemma DirectoriesSnoc<M>(entries: seq<DirEntry<M>>, e: DirEntry<M>)
    ensures Directories(entries + [e]) == Directories(entries) + if e.kind == Directory then [e] else []
  {
    assert (entries + [e])[..|entries|] == entries;
  }

  lemma {:induction false} DirectoriesAreListed<M>(entries: seq<DirEntry<M>>)
    ensures forall i :: 0 <= i < |Directories(entries)| ==> Directories(entries)[i] in entries
    ensures forall e :: e in entries && e.kind == Directory ==> e in Directories(entries)
  {
    if entries != [] {
      var n := |entries| - 1;
      DirectoriesAreListed(entries[..n]);
      assert entries == entries[..n] + [entries[n]];
    }
  }
}
