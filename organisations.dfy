/**
 * scripts/organisations.ts: builds the organisation table from the legacy
 * organisations folder, one record per file.
 */
module Organisations {
  import opened Wrappers
  import opened JsText
  import opened Library
  import opened LegacyPosts
  import opened InsertionMaps

  /** The fields of a parsed organisation file that are read; any may be missing. */
  datatype OrganisationSource = OrganisationSource(name: Option<string>, url: Option<string>, logo: Option<string>)

  /** The `org` object; `None` is `undefined`. */
  datatype Organisation = Organisation(name: Option<string>, url: Option<string>, logo: Option<string>)

  /** `name` and `url` verbatim; `logo` joined under the source folder only when it is truthy. */
  function OrganisationOf(lib: Lib, sourceFolder: string, data: OrganisationSource): (org: Organisation)
    ensures org.name == data.name && org.url == data.url
    ensures org.logo.Some? <==> Truthy(data.logo)
    ensures org.logo.Some? ==> org.logo.value == lib.join(sourceFolder, data.logo.value)
  {
    Organisation(data.name, data.url, if Truthy(data.logo) then Some(lib.join(sourceFolder, data.logo.value)) else None)
  }

  /** The `map.set` calls of `save` for the given file entries: keyed by the FULL file name, extension included. */
  function Rows(lib: Lib, sourceFolder: string, files: seq<DirEntry<OrganisationSource>>): (rows: seq<(string, Organisation)>)
    ensures |rows| == |files|
    ensures forall i :: 0 <= i < |files| ==> rows[i] == (files[i].name, OrganisationOf(lib, sourceFolder, files[i].metadata))
  {
    if files == [] then []
    else
      var n := |files| - 1;
      Rows(lib, sourceFolder, files[..n]) + [(files[n].name, OrganisationOf(lib, sourceFolder, files[n].metadata))]
  }

  lemma RowsSnoc(lib: Lib, sourceFolder: string, files: seq<DirEntry<OrganisationSource>>, f: DirEntry<OrganisationSource>)
    ensures Rows(lib, sourceFolder, files + [f]) == Rows(lib, sourceFolder, files) + [(f.name, OrganisationOf(lib, sourceFolder, f.metadata))]
  {
    assert (files + [f])[..|files|] == files;
  }

  /** Each file's record is stored under its full name; a later file with the same name would win. */
  lemma RecordOfFile(lib: Lib, sourceFolder: string, entries: seq<DirEntry<OrganisationSource>>, i: nat)
    requires i < |Files(entries)|
    requires forall j :: i < j < |Files(entries)| ==> Files(entries)[j].name != Files(entries)[i].name
    ensures FromEntries(Rows(lib, sourceFolder, Files(entries))).Get(Files(entries)[i].name)
         == Some(OrganisationOf(lib, sourceFolder, Files(entries)[i].metadata))
  {
    FromEntriesLastWins(Rows(lib, sourceFolder, Files(entries)), i);
  }

  /** Only names of listed files are keys. */
  lemma OnlyFilesAreKeys(lib: Lib, sourceFolder: string, entries: seq<DirEntry<OrganisationSource>>, name: string)
    requires FromEntries(Rows(lib, sourceFolder, Files(entries))).Get(name).Some?
    ensures exists e :: e in entries && e.kind == File && e.name == name
  {
    var rows := Rows(lib, sourceFolder, Files(entries));
    FromEntriesDomain(rows, name);
    var i :| 0 <= i < |rows| && rows[i].0 == name;
    FilesAreListed(entries);
    assert Files(entries)[i] in entries;
  }

  /** One turn of `save`'s loop: a file adds one `set`, any other entry nothing. */
  lemma SaveStep(lib: Lib, sourceFolder: string, entries: seq<DirEntry<OrganisationSource>>, i: nat)
    requires i < |entries|
    ensures FromEntries(Rows(lib, sourceFolder, Files(entries[..i + 1])))
         == if entries[i].kind == File
            then FromEntries(Rows(lib, sourceFolder, Files(entries[..i]))).Set(entries[i].name, OrganisationOf(lib, sourceFolder, entries[i].metadata))
            else FromEntries(Rows(lib, sourceFolder, Files(entries[..i])))
  {
    var entry := entries[i];
    assert entries[..i + 1] == entries[..i] + [entry];
    FilesSnoc(entries[..i], entry);
    if entry.kind == File {
      RowsSnoc(lib, sourceFolder, Files(entries[..i]), entry);
      FromEntriesSnoc(Rows(lib, sourceFolder, Files(entries[..i])), (entry.name, OrganisationOf(lib, sourceFolder, entry.metadata)));
    } else {
      assert Files(entries[..i]) + [] == Files(entries[..i]);
    }
  }

  /** `save`: the table and the `[name, org]` pairs written to organisations.json, in directory order. */
  method Save(lib: Lib, sourceFolder: string, entries: seq<DirEntry<OrganisationSource>>)
    returns (table: InsertionMap<string, Organisation>, written: seq<(string, Organisation)>)
    ensures table == FromEntries(Rows(lib, sourceFolder, Files(entries)))
    ensures written == table.Entries()
  {
    table := Empty();
    var i := 0;
    while i < |entries|
      invariant i <= |entries|
      invariant table == FromEntries(Rows(lib, sourceFolder, Files(entries[..i])))
    {
      var entry := entries[i];
      SaveStep(lib, sourceFolder, entries, i);
      i := i + 1;
      if entry.kind != File {
        continue;
      }
      var data := entry.metadata;
      var org := Organisation(data.name, data.url, if Truthy(data.logo) then Some(lib.join(sourceFolder, data.logo.value)) else None);
      table := table.Set(entry.name, org);
    }
    assert entries[..i] == entries;
    written := table.Entries();
  }
}
