/**
 * scripts/save-uuids.ts: classifies every legacy post and records its uuid
 * with the post's directory name and collection.
 */
module SaveUuids {
  import opened Wrappers
  import opened JsText
  import opened LegacyPosts
  import opened InsertionMaps

  /** The three resource collections, written "external", "pathfinders" and "hosted". */
  datatype ResourceType = External | Pathfinders | Hosted

  function TypeName(t: ResourceType): string {
    match t
    case External => "external"
    case Pathfinders => "pathfinders"
    case Hosted => "hosted"
  }

  /** The frontmatter fields of a post that `save` reads. */
  datatype PostMetadata = PostMetadata(uuid: string, remote: Option<Remote>, contentType: string)

  /** The nested conditional: external before pathfinder before hosted. */
  function Classify(metadata: PostMetadata): (t: ResourceType)
    ensures t == External <==> IsRemote(metadata.remote)
    ensures t == Pathfinders <==> !IsRemote(metadata.remote) && metadata.contentType == "pathfinder"
    ensures t == Hosted <==> !IsRemote(metadata.remote) && metadata.contentType != "pathfinder"
  {
    if IsRemote(metadata.remote) then External
    else if metadata.contentType == "pathfinder" then Pathfinders
    else Hosted
  }

  /** A remote block missing any one of its three fields does not make a post external. */
  lemma OneMissingRemoteFieldFallsThrough(uuid: string, contentType: string, date: Option<string>, url: Option<string>, publisher: Option<string>)
    requires !Truthy(date) || !Truthy(url) || !Truthy(publisher)
    ensures Classify(PostMetadata(uuid, Some(Remote(date, url, publisher)), contentType))
         == if contentType == "pathfinder" then Pathfinders else Hosted
  {
  }

  /** The remote test comes first: a complete remote block wins over the "pathfinder" content type. */
  lemma RemoteTakesPrecedence(uuid: string, date: string, url: string, publisher: string)
    requires date != "" && url != "" && publisher != ""
    ensures Classify(PostMetadata(uuid, Some(Remote(Some(date), Some(url), Some(publisher))), "pathfinder")) == External
  {
  }

  /** The value stored under a post's uuid. */
  datatype UuidRecord = UuidRecord(name: string, resourceType: ResourceType)

  function Row(entry: DirEntry<PostMetadata>): (string, UuidRecord) {
    (entry.metadata.uuid, UuidRecord(entry.name, Classify(entry.metadata)))
  }

  /** The `map.set` calls of `save` for the posts of `entries`, in directory order. */
  function Rows(entries: seq<DirEntry<PostMetadata>>): (rows: seq<(string, UuidRecord)>)
    ensures |rows| == |entries|
    ensures forall i :: 0 <= i < |entries| ==> rows[i] == Row(entries[i])
  {
    if entries == [] then [] else Rows(entries[..|entries| - 1]) + [Row(entries[|entries| - 1])]
  }

  /** One more post is one more `map.set`, of its uuid to its record. */
  lemma SaveStep(entries: seq<DirEntry<PostMetadata>>, i: nat)
    requires i < |entries|
    ensures FromEntries(Rows(entries[..i + 1]))
         == FromEntries(Rows(entries[..i])).Set(entries[i].metadata.uuid, UuidRecord(entries[i].name, Classify(entries[i].metadata)))
  {
    assert entries[..i + 1][..i] == entries[..i];
    var rows := Rows(entries[..i + 1]);
    assert rows == Rows(entries[..i]) + [Row(entries[i])];
    FromEntriesSnoc(Rows(entries[..i]), Row(entries[i]));
  }

  /**
   * The position of the first entry that is not a post folder, where reading
   * its `index.mdx` throws; `|entries|` when every entry is a folder.
   */
  function FirstNonFolder(entries: seq<DirEntry<PostMetadata>>): (k: nat)
    ensures k <= |entries|
    ensures forall i :: 0 <= i < k ==> entries[i].kind == Directory
    ensures k < |entries| ==> entries[k].kind != Directory
  {
    if entries == [] || entries[0].kind != Directory then 0
    else
      var k := 1 + FirstNonFolder(entries[1..]);
      assert forall i :: 1 <= i < k ==> entries[i] == entries[1..][i - 1];
      k
  }

  /**
   * `save`: fills the map entry by entry and returns it with the pairs written
   * to uuid.json. An entry that is not a folder makes `read` throw: the map
   * holds the posts before it, and nothing is written.
   */
  method Save(entries: seq<DirEntry<PostMetadata>>) returns (table: InsertionMap<string, UuidRecord>, written: Option<seq<(string, UuidRecord)>>)
    ensures table == FromEntries(Rows(entries[..FirstNonFolder(entries)]))
    ensures written.Some? <==> forall i :: 0 <= i < |entries| ==> entries[i].kind == Directory
    ensures written.Some? ==> table == FromEntries(Rows(entries)) && written.value == table.Entries()
  {
    table := Empty();
    var i := 0;
    while i < |entries|
      invariant i <= FirstNonFolder(entries)
      invariant table == FromEntries(Rows(entries[..i]))
    {
      var entry := entries[i];
      if entry.kind != Directory {
        written := None;
        return;
      }
      var resourceType :=
        if IsRemote(entry.metadata.remote) then External
        else if entry.metadata.contentType == "pathfinder" then Pathfinders
        else Hosted;
      SaveStep(entries, i);
      table := table.Set(entry.metadata.uuid, UuidRecord(entry.name, resourceType));
      i := i + 1;
    }
    assert entries[..i] == entries;
    written := Some(table.Entries());
  }

  /** Each uuid maps to the directory name and collection of the LAST post carrying it. */
  lemma SavedRecordOfLastPost(entries: seq<DirEntry<PostMetadata>>, i: nat)
    requires i < |entries|
    requires forall j :: i < j < |entries| ==> entries[j].metadata.uuid != entries[i].metadata.uuid
    ensures FromEntries(Rows(entries)).Get(entries[i].metadata.uuid)
         == Some(UuidRecord(entries[i].name, Classify(entries[i].metadata)))
  {
    FromEntriesLastWins(Rows(entries), i);
  }

  /** Only uuids of listed posts are recorded. */
  lemma SavedUuidsAreListed(entries: seq<DirEntry<PostMetadata>>, uuid: string)
    ensures FromEntries(Rows(entries)).Get(uuid).Some? <==> exists i :: 0 <= i < |entries| && entries[i].metadata.uuid == uuid
  {
    FromEntriesDomain(Rows(entries), uuid);
    if FromEntries(Rows(entries)).Get(uuid).Some? {
      var i :| 0 <= i < |entries| && Rows(entries)[i].0 == uuid;
      assert entries[i].metadata.uuid == uuid;
    }
  }

  /** With distinct uuids the written table lists every post in directory order. */
  lemma WrittenInDirectoryOrder(entries: seq<DirEntry<PostMetadata>>)
    requires forall i, j :: 0 <= i < j < |entries| ==> entries[i].metadata.uuid != entries[j].metadata.uuid
    ensures FromEntries(Rows(entries)).Entries() == Rows(entries)
  {
    FromEntriesDistinct(Rows(entries));
  }
}
