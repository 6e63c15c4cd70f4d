/**
 * scripts/migrate-content.ts, the passes: one loop per legacy collection
 * that fills the collection's map from legacy key to new id and writes one
 * entry per record, skipped as a whole when the collection's checkpoint
 * loads; `migrate` runs people, tags and sources before resources.
 */
module MigrateContent {
  import opened Wrappers
  import opened JsText
  import opened Library
  import opened InsertionMaps
  import opened LegacyPosts
  import opened MigrateIds
  import opened MigrateFrontmatter

  /** A written `index.mdx`: the entry's id (its folder), its frontmatter and its body. */
  datatype Document<F> = Document(id: string, frontmatter: F, body: string)

  /**
   * The map a pass returns: the checkpoint's pairs when it loads (`new Map(entries)`),
   * otherwise the map the loop computed.
   */
  function Checkpointed<V>(stored: Option<seq<(string, V)>>, computed: InsertionMap<string, V>): InsertionMap<string, V> {
    if stored.Some? then FromEntries(stored.value) else computed
  }

  /**
   * A rerun whose checkpoint is what an earlier pass wrote returns that pass's
   * map unchanged, whatever the legacy folder now holds.
   */
  lemma ResumeKeepsMap<V>(m: InsertionMap<string, V>, recomputed: InsertionMap<string, V>)
    requires m.Valid()
    ensures Checkpointed(Some(m.Entries()), recomputed) == m
  {
    FromEntriesOfEntries(m);
  }

  /** `f` applied to each element, in order. */
  function Apply<A, B>(f: A -> B, xs: seq<A>): seq<B> {
    if xs == [] then [] else var n := |xs| - 1; Apply(f, xs[..n]) + [f(xs[n])]
  }

  lemma ApplySnoc<A, B>(f: A -> B, xs: seq<A>, x: A)
    ensures Apply(f, xs + [x]) == Apply(f, xs) + [f(x)]
  {
    assert (xs + [x])[..|xs|] == xs;
  }

  lemma {:induction false} ApplyAppend<A, B>(f: A -> B, a: seq<A>, b: seq<A>)
    ensures Apply(f, a + b) == Apply(f, a) + Apply(f, b)
    decreases |b|
  {
    if b == [] {
      assert a + b == a;
    } else {
      var n := |b| - 1;
      ApplyAppend(f, a, b[..n]);
      assert a + b == (a + b[..n]) + [b[n]];
      assert (a + b)[..|a + b| - 1] == a + b[..n];
    }
  }

  lemma {:induction false} ApplyAt<A, B>(f: A -> B, xs: seq<A>)
    ensures |Apply(f, xs)| == |xs|
    ensures forall j :: 0 <= j < |xs| ==> Apply(f, xs)[j] == f(xs[j])
  {
    if xs != [] {
      ApplyAt(f, xs[..|xs| - 1]);
    }
  }

  /** A file kept by the `isFile` test moves the loop's prefix on by itself; any other entry by nothing. */
  lemma FilesStep<M>(entries: seq<DirEntry<M>>, i: nat)
    requires i < |entries|
    ensures Files(entries[..i + 1]) == Files(entries[..i]) + if entries[i].kind == File then [entries[i]] else []
  {
    assert entries[..i + 1] == entries[..i] + [entries[i]];
    FilesSnoc(entries[..i], entries[i]);
  }

  // People

  /** The `set` a person file makes: its legacy key and the person's new id. */
  function PersonRow(lib: Lib, e: DirEntry<PersonSource>): (string, string) {
    (LegacyKey(e.name), PersonId(lib, e.metadata.firstName, e.metadata.lastName))
  }

  /** The entry a person file is written as. */
  function PersonDocument(lib: Lib, e: DirEntry<PersonSource>): Document<Person> {
    var id := PersonId(lib, e.metadata.firstName, e.metadata.lastName);
    Document(id, PersonOf(id, e.metadata), e.metadata.description.GetOr(""))
  }

  function PersonRows(lib: Lib, files: seq<DirEntry<PersonSource>>): seq<(string, string)> {
    Apply(x => PersonRow(lib, x), files)
  }

  function PersonDocuments(lib: Lib, files: seq<DirEntry<PersonSource>>): seq<Document<Person>> {
    Apply(x => PersonDocument(lib, x), files)
  }

  lemma PeopleSnoc(lib: Lib, files: seq<DirEntry<PersonSource>>, e: DirEntry<PersonSource>)
    ensures PersonRows(lib, files + [e]) == PersonRows(lib, files) + [PersonRow(lib, e)]
    ensures PersonDocuments(lib, files + [e]) == PersonDocuments(lib, files) + [PersonDocument(lib, e)]
  {
    ApplySnoc(x => PersonRow(lib, x), files, e);
    ApplySnoc(x => PersonDocument(lib, x), files, e);
  }

  /** The rows are the person files' rows, one per file and in order. */
  lemma PersonRowsAt(lib: Lib, files: seq<DirEntry<PersonSource>>)
    ensures |PersonRows(lib, files)| == |files|
    ensures forall i :: 0 <= i < |files| ==> PersonRows(lib, files)[i] == PersonRow(lib, files[i])
  {
    ApplyAt(x => PersonRow(lib, x), files);
  }

  /** The people map: from the checkpoint, or one `set` per person file in directory order. */
  function PeopleMap(lib: Lib, stored: Option<seq<(string, string)>>, entries: seq<DirEntry<PersonSource>>): InsertionMap<string, string> {
    Checkpointed(stored, FromEntries(PersonRows(lib, Files(entries))))
  }

  /**
   * `migratePeople`: a loaded checkpoint is returned as it is and nothing is
   * written; otherwise every file is migrated and the map's entries are
   * written as the new checkpoint.
   */
  method MigratePeople(lib: Lib, stored: Option<seq<(string, string)>>, entries: seq<DirEntry<PersonSource>>)
    returns (people: InsertionMap<string, string>, documents: seq<Document<Person>>, checkpoint: Option<seq<(string, string)>>)
    ensures people == PeopleMap(lib, stored, entries) && people.Valid()
    ensures stored.Some? ==> documents == [] && checkpoint == None
    ensures stored.None? ==> documents == PersonDocuments(lib, Files(entries))
    ensures stored.None? ==> checkpoint == Some(people.Entries())
  {
    if stored.Some? {
      people := FromEntries(stored.value);
      documents := [];
      checkpoint := None;
      return;
    }
    people := Empty();
    documents := [];
    var i := 0;
    while i < |entries|
      invariant i <= |entries|
      invariant people == FromEntries(PersonRows(lib, Files(entries[..i])))
      invariant documents == PersonDocuments(lib, Files(entries[..i]))
    {
      var entry := entries[i];
      ghost var files := Files(entries[..i]);
      FilesStep(entries, i);
      i := i + 1;
      if entry.kind != File {
        assert Files(entries[..i]) == files;
        continue;
      }
      var id, person := MigratePerson(lib, entry.metadata);
      assert Files(entries[..i]) == files + [entry];
      PeopleSnoc(lib, files, entry);
      FromEntriesSnoc(PersonRows(lib, files), PersonRow(lib, entry));
      people := people.Set(LegacyKey(entry.name), id);
      documents := documents + [Document(id, person, entry.metadata.description.GetOr(""))];
    }
    assert entries[..i] == entries;
    checkpoint := Some(people.Entries());
  }

  // Tags

  function TagRow(lib: Lib, e: DirEntry<TagSource>): (string, string) {
    (LegacyKey(e.name), NameId(lib, e.metadata.name))
  }

  function TagDocument(lib: Lib, e: DirEntry<TagSource>): Document<Tag> {
    Document(NameId(lib, e.metadata.name), Tag(e.metadata.name), e.metadata.description.GetOr(""))
  }

  function TagRows(lib: Lib, files: seq<DirEntry<TagSource>>): seq<(string, string)> {
    Apply(x => TagRow(lib, x), files)
  }

  function TagDocuments(lib: Lib, files: seq<DirEntry<TagSource>>): seq<Document<Tag>> {
    Apply(x => TagDocument(lib, x), files)
  }

  lemma TagsSnoc(lib: Lib, files: seq<DirEntry<TagSource>>, e: DirEntry<TagSource>)
    ensures TagRows(lib, files + [e]) == TagRows(lib, files) + [TagRow(lib, e)]
    ensures TagDocuments(lib, files + [e]) == TagDocuments(lib, files) + [TagDocument(lib, e)]
  {
    ApplySnoc(x => TagRow(lib, x), files, e);
    ApplySnoc(x => TagDocument(lib, x), files, e);
  }

  lemma TagRowsAt(lib: Lib, files: seq<DirEntry<TagSource>>)
    ensures |TagRows(lib, files)| == |files|
    ensures forall i :: 0 <= i < |files| ==> TagRows(lib, files)[i] == TagRow(lib, files[i])
  {
    ApplyAt(x => TagRow(lib, x), files);
  }

  function TagsMap(lib: Lib, stored: Option<seq<(string, string)>>, entries: seq<DirEntry<TagSource>>): InsertionMap<string, string> {
    Checkpointed(stored, FromEntries(TagRows(lib, Files(entries))))
  }

  /** `migrateTags`: as `migratePeople`, the frontmatter being the name alone. */
  method MigrateTags(lib: Lib, stored: Option<seq<(string, string)>>, entries: seq<DirEntry<TagSource>>)
    returns (tags: InsertionMap<string, string>, documents: seq<Document<Tag>>, checkpoint: Option<seq<(string, string)>>)
    ensures tags == TagsMap(lib, stored, entries) && tags.Valid()
    ensures stored.Some? ==> documents == [] && checkpoint == None
    ensures stored.None? ==> documents == TagDocuments(lib, Files(entries))
    ensures stored.None? ==> checkpoint == Some(tags.Entries())
  {
    if stored.Some? {
      tags := FromEntries(stored.value);
      documents := [];
      checkpoint := None;
      return;
    }
    tags := Empty();
    documents := [];
    var i := 0;
    while i < |entries|
      invariant i <= |entries|
      invariant tags == FromEntries(TagRows(lib, Files(entries[..i])))
      invariant documents == TagDocuments(lib, Files(entries[..i]))
    {
      var entry := entries[i];
      ghost var files := Files(entries[..i]);
      FilesStep(entries, i);
      i := i + 1;
      if entry.kind != File {
        assert Files(entries[..i]) == files;
        continue;
      }
      var id := ToLowerCase(ReplaceFirstWhitespaceRun(lib.slugify(entry.metadata.name)));
      NameIdParts(lib, entry.metadata.name);
      assert Files(entries[..i]) == files + [entry];
      TagsSnoc(lib, files, entry);
      FromEntriesSnoc(TagRows(lib, files), TagRow(lib, entry));
      tags := tags.Set(LegacyKey(entry.name), id);
      documents := documents + [Document(id, Tag(entry.metadata.name), entry.metadata.description.GetOr(""))];
    }
    assert entries[..i] == entries;
    checkpoint := Some(tags.Entries());
  }

  // Sources

  function SourceRow(lib: Lib, e: DirEntry<SourceSource>): (string, string) {
    (LegacyKey(e.name), NameId(lib, e.metadata.name))
  }

  function SourceDocument(lib: Lib, e: DirEntry<SourceSource>): Document<Source> {
    var id := NameId(lib, e.metadata.name);
    Document(id, Source(e.metadata.name, SourceImage(id, e.metadata.image)), e.metadata.description.GetOr(""))
  }

  function SourceRows(lib: Lib, files: seq<DirEntry<SourceSource>>): seq<(string, string)> {
    Apply(x => SourceRow(lib, x), files)
  }

  function SourceDocuments(lib: Lib, files: seq<DirEntry<SourceSource>>): seq<Document<Source>> {
    Apply(x => SourceDocument(lib, x), files)
  }

  lemma SourcesSnoc(lib: Lib, files: seq<DirEntry<SourceSource>>, e: DirEntry<SourceSource>)
    ensures SourceRows(lib, files + [e]) == SourceRows(lib, files) + [SourceRow(lib, e)]
    ensures SourceDocuments(lib, files + [e]) == SourceDocuments(lib, files) + [SourceDocument(lib, e)]
  {
    ApplySnoc(x => SourceRow(lib, x), files, e);
    ApplySnoc(x => SourceDocument(lib, x), files, e);
  }

  lemma SourceRowsAt(lib: Lib, files: seq<DirEntry<SourceSource>>)
    ensures |SourceRows(lib, files)| == |files|
    ensures forall i :: 0 <= i < |files| ==> SourceRows(lib, files)[i] == SourceRow(lib, files[i])
  {
    ApplyAt(x => SourceRow(lib, x), files);
  }

  function SourcesMap(lib: Lib, stored: Option<seq<(string, string)>>, entries: seq<DirEntry<SourceSource>>): InsertionMap<string, string> {
    Checkpointed(stored, FromEntries(SourceRows(lib, Files(entries))))
  }

  /** `migrateSources`: as `migratePeople`, over the legacy categories folder. */
  method MigrateSources(lib: Lib, stored: Option<seq<(string, string)>>, entries: seq<DirEntry<SourceSource>>)
    returns (sources: InsertionMap<string, string>, documents: seq<Document<Source>>, checkpoint: Option<seq<(string, string)>>)
    ensures sources == SourcesMap(lib, stored, entries) && sources.Valid()
    ensures stored.Some? ==> documents == [] && checkpoint == None
    ensures stored.None? ==> documents == SourceDocuments(lib, Files(entries))
    ensures stored.None? ==> checkpoint == Some(sources.Entries())
  {
    if stored.Some? {
      sources := FromEntries(stored.value);
      documents := [];
      checkpoint := None;
      return;
    }
    sources := Empty();
    documents := [];
    var i := 0;
    while i < |entries|
      invariant i <= |entries|
      invariant sources == FromEntries(SourceRows(lib, Files(entries[..i])))
      invariant documents == SourceDocuments(lib, Files(entries[..i]))
    {
      var entry := entries[i];
      ghost var files := Files(entries[..i]);
      FilesStep(entries, i);
      i := i + 1;
      if entry.kind != File {
        assert Files(entries[..i]) == files;
        continue;
      }
      var id, source := MigrateSource(lib, entry.metadata);
      assert Files(entries[..i]) == files + [entry];
      SourcesSnoc(lib, files, entry);
      FromEntriesSnoc(SourceRows(lib, files), SourceRow(lib, entry));
      sources := sources.Set(LegacyKey(entry.name), id);
      documents := documents + [Document(id, source, entry.metadata.description.GetOr(""))];
    }
    assert entries[..i] == entries;
    checkpoint := Some(sources.Entries());
  }

  // What the maps resolve

  /**
   * A person file's legacy key resolves to that person's new id, unless a
   * later file has the same key (the later `set` wins) or the id is empty.
   */
  lemma PersonKeyResolves(lib: Lib, entries: seq<DirEntry<PersonSource>>, i: nat)
    requires i < |Files(entries)|
    requires forall j :: i < j < |Files(entries)| ==> LegacyKey(Files(entries)[j].name) != LegacyKey(Files(entries)[i].name)
    requires var m := Files(entries)[i].metadata; PersonId(lib, m.firstName, m.lastName) != ""
    ensures var m := Files(entries)[i].metadata;
      Resolve(PeopleMap(lib, None, entries), PersonRef, LegacyKey(Files(entries)[i].name))
        == Success(PersonId(lib, m.firstName, m.lastName))
  {
    PersonRowsAt(lib, Files(entries));
    FromEntriesLastWins(PersonRows(lib, Files(entries)), i);
  }

  /** Only legacy keys of listed person files resolve. */
  lemma ResolvedPersonIsListed(lib: Lib, entries: seq<DirEntry<PersonSource>>, key: string)
    requires Resolve(PeopleMap(lib, None, entries), PersonRef, key).Success?
    ensures exists e :: e in entries && e.kind == File && LegacyKey(e.name) == key
  {
    var files := Files(entries);
    var rows := PersonRows(lib, files);
    PersonRowsAt(lib, files);
    FromEntriesDomain(rows, key);
    var i :| 0 <= i < |rows| && rows[i].0 == key;
    FilesAreListed(entries);
    assert files[i] in entries;
  }

  /** A tag file's legacy key resolves to the tag's new id, on the same terms. */
  lemma TagKeyResolves(lib: Lib, entries: seq<DirEntry<TagSource>>, i: nat)
    requires i < |Files(entries)|
    requires forall j :: i < j < |Files(entries)| ==> LegacyKey(Files(entries)[j].name) != LegacyKey(Files(entries)[i].name)
    requires NameId(lib, Files(entries)[i].metadata.name) != ""
    ensures Resolve(TagsMap(lib, None, entries), TagRef, LegacyKey(Files(entries)[i].name))
         == Success(NameId(lib, Files(entries)[i].metadata.name))
  {
    TagRowsAt(lib, Files(entries));
    FromEntriesLastWins(TagRows(lib, Files(entries)), i);
  }

  /** A source file's legacy key resolves to the source's new id, on the same terms. */
  lemma SourceKeyResolves(lib: Lib, entries: seq<DirEntry<SourceSource>>, i: nat)
    requires i < |Files(entries)|
    requires forall j :: i < j < |Files(entries)| ==> LegacyKey(Files(entries)[j].name) != LegacyKey(Files(entries)[i].name)
    requires NameId(lib, Files(entries)[i].metadata.name) != ""
    ensures Resolve(SourcesMap(lib, None, entries), SourceRef, LegacyKey(Files(entries)[i].name))
         == Success(NameId(lib, Files(entries)[i].metadata.name))
  {
    SourceRowsAt(lib, Files(entries));
    FromEntriesLastWins(SourceRows(lib, Files(entries)), i);
  }

  // Resources

  /** A legacy post folder's `index.mdx`: frontmatter and body. */
  datatype Post = Post(frontmatter: ResourceSource, body: string)

  /** What the resources map would hold per legacy key; the pass never fills it. */
  datatype ResourceRef = ResourceRef(collection: Collection, id: string)

  /** A written resource entry, in its collection. */
  datatype ResourceDocument = ResourceDocument(collection: Collection, document: Document<Resource>)

  /**
   * One post directory: its frontmatter, and its body passed through (the
   * markdown visitor's cases rewrite nothing).
   */
  function PostDocument(lib: Lib, maps: Maps, contentTypes: seq<string>, e: DirEntry<Post>): Result<ResourceDocument, MigrationError> {
    var r :- ResourceOf(lib, maps, contentTypes, e.name, e.metadata.frontmatter);
    Success(ResourceDocument(r.collection, Document(r.id, r.frontmatter, e.metadata.body)))
  }

  /** What each post directory would give, in directory order. */
  function Outcomes(lib: Lib, maps: Maps, contentTypes: seq<string>, dirs: seq<DirEntry<Post>>): seq<Result<ResourceDocument, MigrationError>> {
    Apply(d => PostDocument(lib, maps, contentTypes, d), dirs)
  }

  /** The results kept and the error that stopped the loop, if any. */
  datatype Progress<T, E> = Progress(done: seq<T>, error: Option<E>)

  /** A loop over `outcomes` that keeps each success and stops at the first failure. */
  function UntilFailure<T, E>(outcomes: seq<Result<T, E>>): Progress<T, E> {
    if outcomes == [] then Progress([], None)
    else
      var n := |outcomes| - 1;
      var before := UntilFailure(outcomes[..n]);
      if before.error.Some? then before
      else match outcomes[n]
        case Failure(e) => Progress(before.done, Some(e))
        case Success(x) => Progress(before.done + [x], None)
  }

  /** Once an outcome has failed, later outcomes change nothing. */
  lemma {:induction false} UntilFailureStops<T, E>(outcomes: seq<Result<T, E>>, more: seq<Result<T, E>>)
    requires UntilFailure(outcomes).error.Some?
    ensures UntilFailure(outcomes + more) == UntilFailure(outcomes)
    decreases |more|
  {
    if more == [] {
      assert outcomes + more == outcomes;
    } else {
      var n := |more| - 1;
      UntilFailureStops(outcomes, more[..n]);
      assert (outcomes + more)[..|outcomes + more| - 1] == outcomes + more[..n];
    }
  }

  lemma ApplyUntilFailure<A, T, E>(f: A -> Result<T, E>, a: seq<A>, b: seq<A>)
    requires UntilFailure(Apply(f, a)).error.Some?
    ensures UntilFailure(Apply(f, a + b)) == UntilFailure(Apply(f, a))
  {
    ApplyAppend(f, a, b);
    UntilFailureStops(Apply(f, a), Apply(f, b));
  }

  /**
   * The values kept are those of the outcomes before the first failure, in
   * order; there is no error exactly when no outcome fails, and otherwise the
   * error is that of the first failure.
   */
  lemma {:induction false} UntilFailurePrefix<T, E>(outcomes: seq<Result<T, E>>)
    ensures var p := UntilFailure(outcomes);
      var k := |p.done|;
      && k <= |outcomes|
      && (forall j :: 0 <= j < k ==> outcomes[j] == Success(p.done[j]))
      && (p.error.None? <==> k == |outcomes|)
      && (p.error.Some? ==> outcomes[k] == Failure(p.error.value))
  {
    if outcomes != [] {
      var n := |outcomes| - 1;
      UntilFailurePrefix(outcomes[..n]);
    }
  }

  /** The loop over the post directories, which stops at the first post that fails. */
  function Migrated(lib: Lib, maps: Maps, contentTypes: seq<string>, dirs: seq<DirEntry<Post>>): Progress<ResourceDocument, MigrationError> {
    UntilFailure(Outcomes(lib, maps, contentTypes, dirs))
  }

  /**
   * The documents written are those of the posts before the first failing
   * one, in directory order; the run succeeds exactly when no post fails, and
   * otherwise reports the error of the first post that fails.
   */
  lemma MigratedStopsAtFirstFailure(lib: Lib, maps: Maps, contentTypes: seq<string>, dirs: seq<DirEntry<Post>>)
    ensures var p := Migrated(lib, maps, contentTypes, dirs);
      var k := |p.done|;
      && k <= |dirs|
      && (forall j :: 0 <= j < k ==> PostDocument(lib, maps, contentTypes, dirs[j]) == Success(p.done[j]))
      && (p.error.None? <==> k == |dirs|)
      && (p.error.Some? ==> PostDocument(lib, maps, contentTypes, dirs[k]) == Failure(p.error.value))
  {
    ApplyAt(d => PostDocument(lib, maps, contentTypes, d), dirs);
    UntilFailurePrefix(Outcomes(lib, maps, contentTypes, dirs));
  }

  /** One more post directory is one more step of the loop. */
  lemma MigratedSnoc(lib: Lib, maps: Maps, contentTypes: seq<string>, dirs: seq<DirEntry<Post>>, d: DirEntry<Post>)
    ensures var before := Migrated(lib, maps, contentTypes, dirs);
      Migrated(lib, maps, contentTypes, dirs + [d])
        == if before.error.Some? then before
           else match PostDocument(lib, maps, contentTypes, d)
             case Failure(e) => Progress(before.done, Some(e))
             case Success(x) => Progress(before.done + [x], None)
  {
    var f := d => PostDocument(lib, maps, contentTypes, d);
    assert (dirs + [d])[..|dirs|] == dirs;
    var outcomes := Apply(f, dirs + [d]);
    assert outcomes[..|outcomes| - 1] == Apply(f, dirs);
  }

  /** Once a post has failed, later posts change nothing. */
  lemma MigratedKeepsFailure(lib: Lib, maps: Maps, contentTypes: seq<string>, dirs: seq<DirEntry<Post>>, more: seq<DirEntry<Post>>)
    requires Migrated(lib, maps, contentTypes, dirs).error.Some?
    ensures Migrated(lib, maps, contentTypes, dirs + more) == Migrated(lib, maps, contentTypes, dirs)
  {
    ApplyUntilFailure(d => PostDocument(lib, maps, contentTypes, d), dirs, more);
  }

  /** A run over posts none of which fails writes one document per post. */
  lemma MigratedAll(lib: Lib, maps: Maps, contentTypes: seq<string>, dirs: seq<DirEntry<Post>>)
    requires forall j :: 0 <= j < |dirs| ==> PostDocument(lib, maps, contentTypes, dirs[j]).Success?
    ensures Migrated(lib, maps, contentTypes, dirs).error.None?
    ensures |Migrated(lib, maps, contentTypes, dirs).done| == |dirs|
  {
    MigratedStopsAtFirstFailure(lib, maps, contentTypes, dirs);
  }

  lemma DirectoriesStep<M>(entries: seq<DirEntry<M>>, i: nat)
    requires i < |entries|
    ensures Directories(entries[..i + 1]) == Directories(entries[..i]) + if entries[i].kind == Directory then [entries[i]] else []
  {
    assert entries[..i + 1] == entries[..i] + [entries[i]];
    DirectoriesSnoc(entries[..i], entries[i]);
  }

  /** The directories of a listing are those of its first part followed by those of the rest. */
  lemma {:induction false} DirectoriesAppend<M>(a: seq<DirEntry<M>>, b: seq<DirEntry<M>>)
    ensures Directories(a + b) == Directories(a) + Directories(b)
    decreases |b|
  {
    if b == [] {
      assert a + b == a;
    } else {
      var n := |b| - 1;
      var init, last := b[..n], b[n];
      DirectoriesAppend(a, init);
      assert a + b == (a + init) + [last];
      assert b == init + [last];
      DirectoriesSnoc(a + init, last);
      DirectoriesSnoc(init, last);
      var da, di := Directories(a), Directories(init);
      var dl := if last.kind == Directory then [last] else [];
      assert (da + di) + dl == da + (di + dl);
    }
  }

  /**
   * One directory entry of a loop over a listing's directories that stops at
   * the first failure: a failure ends the run, a success is kept.
   */
  lemma {:induction false} UntilFailureStep<M, T, E>(f: DirEntry<M> -> Result<T, E>, entries: seq<DirEntry<M>>, i: nat, done: seq<T>)
    requires i < |entries| && entries[i].kind == Directory
    requires UntilFailure(Apply(f, Directories(entries[..i]))) == Progress(done, None)
    ensures f(entries[i]).Failure? ==> UntilFailure(Apply(f, Directories(entries))) == Progress(done, Some(f(entries[i]).error))
    ensures f(entries[i]).Success? ==> UntilFailure(Apply(f, Directories(entries[..i + 1]))) == Progress(done + [f(entries[i]).value], None)
  {
    var dirs := Directories(entries[..i]);
    var next := dirs + [entries[i]];
    DirectoriesStep(entries, i);
    ApplySnoc(f, dirs, entries[i]);
    var outcomes := Apply(f, next);
    assert outcomes[..|outcomes| - 1] == Apply(f, dirs);
    if f(entries[i]).Failure? {
      var head, tail := entries[..i + 1], entries[i + 1..];
      assert head + tail == entries;
      DirectoriesAppend(head, tail);
      ApplyUntilFailure(f, next, Directories(tail));
    }
  }

  /** A post's outcome is its frontmatter's migration, with its body as the document body. */
  lemma PostDocumentOf(lib: Lib, maps: Maps, contentTypes: seq<string>, e: DirEntry<Post>, r: Result<MigratedResource, MigrationError>)
    requires r == ResourceOf(lib, maps, contentTypes, e.name, e.metadata.frontmatter)
    ensures r.Failure? ==> PostDocument(lib, maps, contentTypes, e) == Failure(r.error)
    ensures r.Success? ==>
      PostDocument(lib, maps, contentTypes, e) == Success(ResourceDocument(r.value.collection, Document(r.value.id, r.value.frontmatter, e.metadata.body)))
  {
  }

  /** One post directory of the loop: a failure ends the run, otherwise its document is written. */
  lemma MigratedStep(lib: Lib, maps: Maps, contentTypes: seq<string>, entries: seq<DirEntry<Post>>, i: nat,
                     documents: seq<ResourceDocument>)
    requires i < |entries| && entries[i].kind == Directory
    requires Migrated(lib, maps, contentTypes, Directories(entries[..i])) == Progress(documents, None)
    ensures var o := PostDocument(lib, maps, contentTypes, entries[i]);
      o.Failure? ==> Migrated(lib, maps, contentTypes, Directories(entries)) == Progress(documents, Some(o.error))
    ensures var o := PostDocument(lib, maps, contentTypes, entries[i]);
      o.Success? ==> Migrated(lib, maps, contentTypes, Directories(entries[..i + 1])) == Progress(documents + [o.value], None)
  {
    UntilFailureStep(d => PostDocument(lib, maps, contentTypes, d), entries, i, documents);
  }

  /**
   * `migrateResources`: a loaded checkpoint is returned as it is and nothing
   * is written. Otherwise every post directory is migrated in directory order
   * until one fails; the map is never filled, so the checkpoint written is
   * the empty list.
   */
  method MigrateResources(lib: Lib, maps: Maps, contentTypes: seq<string>, stored: Option<seq<(string, ResourceRef)>>, entries: seq<DirEntry<Post>>)
    returns (resources: InsertionMap<string, ResourceRef>, documents: seq<ResourceDocument>, error: Option<MigrationError>,
             checkpoint: Option<seq<(string, ResourceRef)>>)
    ensures resources == Checkpointed(stored, Empty())
    ensures stored.Some? ==> documents == [] && error == None && checkpoint == None
    ensures stored.None? ==> Progress(documents, error) == Migrated(lib, maps, contentTypes, Directories(entries))
    ensures stored.None? && error.None? ==> checkpoint == Some([])
    ensures error.Some? ==> checkpoint == None
  {
    checkpoint := None;
    error := None;
    documents := [];
    if stored.Some? {
      resources := FromEntries(stored.value);
      return;
    }
    resources := Empty();
    var i := 0;
    while i < |entries|
      invariant i <= |entries|
      invariant Migrated(lib, maps, contentTypes, Directories(entries[..i])) == Progress(documents, None)
    {
      var entry := entries[i];
      ghost var dirs := Directories(entries[..i]);
      DirectoriesStep(entries, i);
      i := i + 1;
      if entry.kind != Directory {
        assert Directories(entries[..i]) == dirs;
        continue;
      }
      var r := MigrateResource(lib, maps, contentTypes, entry.name, entry.metadata.frontmatter);
      PostDocumentOf(lib, maps, contentTypes, entry, r);
      MigratedStep(lib, maps, contentTypes, entries, i - 1, documents);
      if r.Failure? {
        error := Some(r.error);
        return;
      }
      var migrated := r.value;
      documents := documents + [ResourceDocument(migrated.collection, Document(migrated.id, migrated.frontmatter, entry.metadata.body))];
    }
    assert entries[..i] == entries;
    checkpoint := Some(resources.Entries());
  }

  // The whole run

  /** The checkpoint each pass finds, `None` where importing it fails. */
  datatype Checkpoints = Checkpoints(
    people: Option<seq<(string, string)>>,
    tags: Option<seq<(string, string)>>,
    sources: Option<seq<(string, string)>>,
    resources: Option<seq<(string, ResourceRef)>>)

  /** The listings of the legacy folders people, tags, categories and posts. */
  datatype Legacy = Legacy(
    people: seq<DirEntry<PersonSource>>,
    tags: seq<DirEntry<TagSource>>,
    categories: seq<DirEntry<SourceSource>>,
    posts: seq<DirEntry<Post>>)

  /** Everything a run writes: the entries of each collection and the checkpoints. */
  datatype Written = Written(
    people: seq<Document<Person>>,
    tags: seq<Document<Tag>>,
    sources: seq<Document<Source>>,
    resources: seq<ResourceDocument>,
    checkpoints: Checkpoints)

  /**
   * `migrate`: people, tags and sources are migrated (or loaded) first, and
   * the posts' references are resolved through the three maps they return.
   */
  method Migrate(lib: Lib, contentTypes: seq<string>, stored: Checkpoints, legacy: Legacy)
    returns (written: Written, error: Option<MigrationError>)
    ensures var maps := Maps(
        PeopleMap(lib, stored.people, legacy.people),
        TagsMap(lib, stored.tags, legacy.tags),
        SourcesMap(lib, stored.sources, legacy.categories));
      && (stored.resources.None? ==>
            Progress(written.resources, error) == Migrated(lib, maps, contentTypes, Directories(legacy.posts)))
      && (stored.resources.Some? ==> written.resources == [] && error == None)
    ensures stored.people.None? ==> written.people == PersonDocuments(lib, Files(legacy.people))
    ensures stored.tags.None? ==> written.tags == TagDocuments(lib, Files(legacy.tags))
    ensures stored.sources.None? ==> written.sources == SourceDocuments(lib, Files(legacy.categories))
    ensures stored.people.Some? ==> written.people == [] && written.checkpoints.people == None
    ensures stored.tags.Some? ==> written.tags == [] && written.checkpoints.tags == None
    ensures stored.sources.Some? ==> written.sources == [] && written.checkpoints.sources == None
    ensures stored.resources.Some? ==> written.checkpoints.resources == None
    ensures error.Some? ==> written.checkpoints.resources == None
    ensures stored.people.None? ==> written.checkpoints.people == Some(PeopleMap(lib, None, legacy.people).Entries())
    ensures stored.tags.None? ==> written.checkpoints.tags == Some(TagsMap(lib, None, legacy.tags).Entries())
    ensures stored.sources.None? ==> written.checkpoints.sources == Some(SourcesMap(lib, None, legacy.categories).Entries())
    ensures stored.resources.None? && error.None? ==> written.checkpoints.resources == Some([])
  {
    var people, peopleWritten, peopleCheckpoint := MigratePeople(lib, stored.people, legacy.people);
    var tags, tagsWritten, tagsCheckpoint := MigrateTags(lib, stored.tags, legacy.tags);
    var sources, sourcesWritten, sourcesCheckpoint := MigrateSources(lib, stored.sources, legacy.categories);
    var resources, resourcesWritten, failure, resourcesCheckpoint :=
      MigrateResources(lib, Maps(people, tags, sources), contentTypes, stored.resources, legacy.posts);
    written := Written(peopleWritten, tagsWritten, sourcesWritten, resourcesWritten,
      Checkpoints(peopleCheckpoint, tagsCheckpoint, sourcesCheckpoint, resourcesCheckpoint));
    error := failure;
  }

  /**
   * Rerunning with the checkpoints a first run wrote for people, tags and
   * sources gives the resources pass the very maps the first run gave it.
   */
  lemma RerunSeesSameMaps(lib: Lib, legacy: Legacy, later: Legacy)
    ensures var first := Maps(PeopleMap(lib, None, legacy.people), TagsMap(lib, None, legacy.tags), SourcesMap(lib, None, legacy.categories));
      Maps(
        PeopleMap(lib, Some(first.people.Entries()), later.people),
        TagsMap(lib, Some(first.tags.Entries()), later.tags),
        SourcesMap(lib, Some(first.sources.Entries()), later.categories)) == first
  {
    var people := PeopleMap(lib, None, legacy.people);
    var tags := TagsMap(lib, None, legacy.tags);
    var sources := SourcesMap(lib, None, legacy.categories);
    ResumeKeepsMap(people, FromEntries(PersonRows(lib, Files(later.people))));
    ResumeKeepsMap(tags, FromEntries(TagRows(lib, Files(later.tags))));
    ResumeKeepsMap(sources, FromEntries(SourceRows(lib, Files(later.categories))));
  }
}
