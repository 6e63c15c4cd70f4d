/**
 * scripts/migrate-content.ts, frontmatter: how one legacy person, tag,
 * source or post record becomes the frontmatter of its new entry.
 */
module MigrateFrontmatter {
  import opened Wrappers
  import opened JsText
  import opened Library
  import opened NodePath
  import opened InsertionMaps
  import opened LegacyPosts
  import opened MigrateIds

  /** `/${relative(publicFolder, join(publicFolder, "assets", "content", "assets", "en", folder, id, file))}`. */
  function AssetUrl(folder: string, id: string, file: string): string {
    "/assets/content/assets/en/" + folder + "/" + id + "/" + file
  }

  const DefaultAvatar := "/assets/images/default-avatar.svg"
  const DefaultSourceImage := "/assets/images/default-source.svg"

  /** A copied asset's url never coincides with a default image. */
  lemma AssetUrlIsNotDefault(folder: string, id: string, file: string)
    ensures AssetUrl(folder, id, file) != DefaultAvatar
    ensures AssetUrl(folder, id, file) != DefaultSourceImage
  {
    var u := AssetUrl(folder, id, file);
    assert u[8] == 'c';
    assert DefaultAvatar[8] == 'i' && DefaultSourceImage[8] == 'i';
  }

  /** Appending a file `<name><ext>` after a slash. */
  lemma FileAfterSlash(a: string, name: string, ext: string)
    ensures a + "/" + (name + ext) == a + ("/" + name) + ext
  {
  }

  /** A copied asset's url, read as the folder's own prefix, the id, then "/<name><ext>". */
  lemma AssetUrlOf(folder: string, prefix: string, id: string, name: string, ext: string)
    requires prefix == "/assets/content/assets/en/" + folder + "/"
    ensures AssetUrl(folder, id, name + ext) == prefix + id + ("/" + name) + ext
  {
    FileAfterSlash(prefix + id, name, ext);
  }

  // People

  /** A legacy person file, as parsed. */
  datatype PersonSource = PersonSource(
    avatar: Option<string>,
    description: Option<string>,
    email: Option<string>,
    firstName: string,
    lastName: string,
    orcid: Option<string>,
    twitter: Option<string>,
    website: Option<string>)

  datatype SocialKind = Email | Orcid | Twitter | Website

  datatype SocialLink = SocialLink(kind: SocialKind, href: string)

  /** A new person entry's frontmatter. */
  datatype Person = Person(name: string, image: string, social: seq<SocialLink>)

  /** The legacy field each kind of link is taken from. */
  function SocialField(m: PersonSource, kind: SocialKind): Option<string> {
    match kind
    case Email => m.email
    case Orcid => m.orcid
    case Twitter => m.twitter
    case Website => m.website
  }

  /** The position of each kind in the fixed order of the pushes. */
  function Rank(kind: SocialKind): nat {
    match kind
    case Email => 0
    case Orcid => 1
    case Twitter => 2
    case Website => 3
  }

  function LinkOf(m: PersonSource, kind: SocialKind): seq<SocialLink> {
    if Truthy(SocialField(m, kind)) then [SocialLink(kind, SocialField(m, kind).value)] else []
  }

  /** The `social` list after the four conditional pushes. */
  function SocialOf(m: PersonSource): seq<SocialLink> {
    LinkOf(m, Email) + LinkOf(m, Orcid) + LinkOf(m, Twitter) + LinkOf(m, Website)
  }

  /** The default avatar, unless an avatar that is not a web address was copied next to the entry. */
  function PersonImage(id: string, avatar: Option<string>): string {
    if Truthy(avatar) && !StartsWith(avatar.value, "http")
    then AssetUrl("people", id, "image" + Extname(avatar.value))
    else DefaultAvatar
  }

  function PersonOf(id: string, m: PersonSource): Person {
    Person(Join([m.firstName, m.lastName], " "), PersonImage(id, m.avatar), SocialOf(m))
  }

  /** The rank of the link at position `i`: each kind contributes at most one link, in rank order. */
  lemma SocialRankAt(m: PersonSource, i: nat)
    requires i < |SocialOf(m)|
    ensures var e, o, t := |LinkOf(m, Email)|, |LinkOf(m, Orcid)|, |LinkOf(m, Twitter)|;
      Rank(SocialOf(m)[i].kind) == if i < e then 0 else if i < e + o then 1 else if i < e + o + t then 2 else 3
  {
    var e, o, t, w := LinkOf(m, Email), LinkOf(m, Orcid), LinkOf(m, Twitter), LinkOf(m, Website);
    var s := SocialOf(m);
    assert s == ((e + o) + t) + w;
    if i < |e| {
      assert s[i] == e[i];
    } else if i < |e| + |o| {
      assert s[i] == o[i - |e|];
    } else if i < |e| + |o| + |t| {
      assert s[i] == t[i - |e| - |o|];
    } else {
      assert s[i] == w[i - |e| - |o| - |t|];
    }
  }

  /** One link per truthy field, in the order email, orcid, twitter, website. */
  lemma SocialLinksOrdered(m: PersonSource)
    ensures var s := SocialOf(m); forall i, j :: 0 <= i < j < |s| ==> Rank(s[i].kind) < Rank(s[j].kind)
  {
    var s := SocialOf(m);
    forall i, j | 0 <= i < j < |s|
      ensures Rank(s[i].kind) < Rank(s[j].kind)
    {
      SocialRankAt(m, i);
      SocialRankAt(m, j);
    }
  }

  /** Every link carries the value of the field of its kind, which is truthy. */
  lemma SocialLinksCarryFields(m: PersonSource)
    ensures var s := SocialOf(m);
      forall i :: 0 <= i < |s| ==> Truthy(SocialField(m, s[i].kind)) && s[i].href == SocialField(m, s[i].kind).value
  {
    var e, o, t, w := LinkOf(m, Email), LinkOf(m, Orcid), LinkOf(m, Twitter), LinkOf(m, Website);
    var s := SocialOf(m);
    assert s == ((e + o) + t) + w;
    forall i | 0 <= i < |s|
      ensures Truthy(SocialField(m, s[i].kind)) && s[i].href == SocialField(m, s[i].kind).value
    {
      if i < |e| {
        assert s[i] == e[i];
      } else if i < |e| + |o| {
        assert s[i] == o[i - |e|];
      } else if i < |e| + |o| + |t| {
        assert s[i] == t[i - |e| - |o|];
      } else {
        assert s[i] == w[i - |e| - |o| - |t|];
      }
    }
  }

  /** Every truthy field gives a link of its kind. */
  lemma SocialLinksCoverFields(m: PersonSource, kind: SocialKind)
    requires Truthy(SocialField(m, kind))
    ensures exists i :: 0 <= i < |SocialOf(m)| && SocialOf(m)[i].kind == kind
  {
    var e, o, t, w := LinkOf(m, Email), LinkOf(m, Orcid), LinkOf(m, Twitter), LinkOf(m, Website);
    var s := SocialOf(m);
    assert s == ((e + o) + t) + w;
    match kind
    case Email => assert s[0] == e[0];
    case Orcid => assert s[|e|] == o[0];
    case Twitter => assert s[|e| + |o|] == t[0];
    case Website => assert s[|e| + |o| + |t|] == w[0];
  }

  /** Without truthy contact fields the list stays empty. */
  lemma NoSocialLinks(m: PersonSource)
    requires forall kind :: !Truthy(SocialField(m, kind))
    ensures SocialOf(m) == []
  {
    assert !Truthy(SocialField(m, Email)) && !Truthy(SocialField(m, Orcid));
    assert !Truthy(SocialField(m, Twitter)) && !Truthy(SocialField(m, Website));
  }

  /**
   * The name is "<firstName> <lastName>"; the image stays the default avatar
   * exactly when there is no avatar or it starts with "http".
   */
  lemma PersonNameAndImage(id: string, m: PersonSource)
    ensures PersonOf(id, m).name == m.firstName + " " + m.lastName
    ensures PersonOf(id, m).image == DefaultAvatar <==> !Truthy(m.avatar) || StartsWith(m.avatar.value, "http")
    ensures PersonOf(id, m).image != DefaultAvatar ==>
      PersonOf(id, m).image == "/assets/content/assets/en/people/" + id + "/image" + Extname(m.avatar.value)
  {
    assert Join([m.firstName, m.lastName], " ") == m.firstName + " " + Join([m.lastName], " ");
    if Truthy(m.avatar) && !StartsWith(m.avatar.value, "http") {
      var ext := Extname(m.avatar.value);
      AssetUrlIsNotDefault("people", id, "image" + ext);
      AssetUrlOf("people", "/assets/content/assets/en/people/", id, "image", ext);
      assert "/" + "image" == "/image";
    }
  }
  /** The loop body of `migratePeople` for one file: the new id and the frontmatter built step by step. */
  method MigratePerson(lib: Lib, m: PersonSource) returns (id: string, person: Person)
    ensures id == PersonId(lib, m.firstName, m.lastName)
    ensures person == PersonOf(id, m)
  {
    id := ToLowerCase(ReplaceFirstWhitespaceRun(lib.slugify(Join([m.lastName, m.firstName], "-"))));
    var social: seq<SocialLink> := [];
    if Truthy(m.email) {
      social := social + [SocialLink(Email, m.email.value)];
    }
    assert social == LinkOf(m, Email);
    if Truthy(m.orcid) {
      social := social + [SocialLink(Orcid, m.orcid.value)];
    }
    assert social == LinkOf(m, Email) + LinkOf(m, Orcid);
    if Truthy(m.twitter) {
      social := social + [SocialLink(Twitter, m.twitter.value)];
    }
    assert social == LinkOf(m, Email) + LinkOf(m, Orcid) + LinkOf(m, Twitter);
    if Truthy(m.website) {
      social := social + [SocialLink(Website, m.website.value)];
    }
    assert social == SocialOf(m);
    var image := DefaultAvatar;
    if Truthy(m.avatar) {
      if !StartsWith(m.avatar.value, "http") {
        image := AssetUrl("people", id, "image" + Extname(m.avatar.value));
      }
    }
    assert image == PersonImage(id, m.avatar);
    person := Person(Join([m.firstName, m.lastName], " "), image, social);
  }

  // Tags

  datatype TagSource = TagSource(description: Option<string>, name: string)

  datatype Tag = Tag(name: string)

  // Sources

  datatype SourceSource = SourceSource(description: Option<string>, image: Option<string>, name: string)

  datatype Source = Source(name: string, image: string)

  /** The default source image, unless an image was copied next to the entry. */
  function SourceImage(id: string, image: Option<string>): string {
    if Truthy(image) then AssetUrl("sources", id, "image" + Extname(image.value)) else DefaultSourceImage
  }

  /** The image stays the default exactly when there is no image; web addresses are not told apart here. */
  lemma SourceImageRule(id: string, image: Option<string>)
    ensures SourceImage(id, image) == DefaultSourceImage <==> !Truthy(image)
    ensures Truthy(image) ==>
      SourceImage(id, image) == "/assets/content/assets/en/sources/" + id + "/image" + Extname(image.value)
  {
    if Truthy(image) {
      var ext := Extname(image.value);
      AssetUrlIsNotDefault("sources", id, "image" + ext);
      AssetUrlOf("sources", "/assets/content/assets/en/sources/", id, "image", ext);
      assert "/" + "image" == "/image";
    }
  }
  /** The loop body of `migrateSources` for one file. */
  method MigrateSource(lib: Lib, m: SourceSource) returns (id: string, source: Source)
    ensures id == NameId(lib, m.name)
    ensures source == Source(m.name, SourceImage(id, m.image))
  {
    id := ToLowerCase(ReplaceFirstWhitespaceRun(lib.slugify(m.name)));
    NameIdParts(lib, m.name);
    var image := DefaultSourceImage;
    if Truthy(m.image) {
      image := AssetUrl("sources", id, "image" + Extname(m.image.value));
    }
    source := Source(m.name, image);
  }

  // Resources

  /** A legacy post's frontmatter. */
  datatype ResourceSource = ResourceSource(
    title: string,
    shortTitle: Option<string>,
    lang: string,
    date: string,
    version: string,
    authors: Option<seq<string>>,
    editors: Option<seq<string>>,
    contributors: Option<seq<string>>,
    tags: seq<string>,
    categories: seq<string>,
    featuredImage: Option<string>,
    abstractText: string,
    contentType: string,
    remote: Option<Remote>,
    licence: string,
    toc: Option<bool>)

  datatype Summary = Summary(title: Option<string>, content: string)

  datatype RemoteBlock = RemoteBlock(publicationDate: string, url: string, publisher: string)

  /** A new resource entry's frontmatter; `remote` is present on external resources only. */
  datatype Resource = Resource(
    title: string,
    locale: string,
    publicationDate: string,
    version: string,
    authors: seq<string>,
    editors: seq<string>,
    contributors: seq<string>,
    tags: seq<string>,
    sources: seq<string>,
    featuredImage: Option<string>,
    license: string,
    tableOfContents: bool,
    summary: Summary,
    remote: Option<RemoteBlock>,
    contentType: string)

  /** The two collections a post can land in. */
  datatype Collection = External | Hosted

  function CollectionName(c: Collection): string {
    match c
    case External => "external"
    case Hosted => "hosted"
  }

  /** The maps the earlier passes built, for resolving a post's references. */
  datatype Maps = Maps(people: InsertionMap<string, string>, tags: InsertionMap<string, string>, sources: InsertionMap<string, string>)

  /** A migrated post: where it goes and its frontmatter. */
  datatype MigratedResource = MigratedResource(collection: Collection, id: string, frontmatter: Resource)

  /** The only licence accepted, and the one written. */
  const LegacyLicence := "ccby-4.0"
  const License := "cc-by-4.0"

  /** Every reference of a post resolves. */
  predicate ReferencesResolve(maps: Maps, m: ResourceSource) {
    && (m.authors.Some? ==> AllResolve(maps.people, m.authors.value))
    && (m.editors.Some? ==> AllResolve(maps.people, m.editors.value))
    && (m.contributors.Some? ==> AllResolve(maps.people, m.contributors.value))
    && AllResolve(maps.tags, m.tags)
    && AllResolve(maps.sources, m.categories)
  }

  /** The id is one of the post's references that does not resolve through the map it belongs to. */
  predicate IsUnresolvedReference(maps: Maps, m: ResourceSource, e: MigrationError) {
    && e.MissingId?
    && match e.reference
       case PersonRef =>
         && !Truthy(maps.people.Get(e.id))
         && (|| (m.authors.Some? && e.id in m.authors.value)
             || (m.editors.Some? && e.id in m.editors.value)
             || (m.contributors.Some? && e.id in m.contributors.value))
       case TagRef => !Truthy(maps.tags.Get(e.id)) && e.id in m.tags
       case SourceRef => !Truthy(maps.sources.Get(e.id)) && e.id in m.categories
  }

  /**
   * `e` names the first id that does not resolve, the lists taken in the order
   * authors, editors, contributors, tags, sources.
   */
  predicate IsFirstUnresolvedReference(maps: Maps, m: ResourceSource, e: MigrationError) {
    if m.authors.Some? && !AllResolve(maps.people, m.authors.value) then
      e == MissingId(PersonRef, m.authors.value[FirstUnresolved(maps.people, m.authors.value)])
    else if m.editors.Some? && !AllResolve(maps.people, m.editors.value) then
      e == MissingId(PersonRef, m.editors.value[FirstUnresolved(maps.people, m.editors.value)])
    else if m.contributors.Some? && !AllResolve(maps.people, m.contributors.value) then
      e == MissingId(PersonRef, m.contributors.value[FirstUnresolved(maps.people, m.contributors.value)])
    else if !AllResolve(maps.tags, m.tags) then
      e == MissingId(TagRef, m.tags[FirstUnresolved(maps.tags, m.tags)])
    else
      && !AllResolve(maps.sources, m.categories)
      && e == MissingId(SourceRef, m.categories[FirstUnresolved(maps.sources, m.categories)])
  }

  /** The five resolved reference lists of a post. */
  datatype Resolved = Resolved(authors: seq<string>, editors: seq<string>, contributors: seq<string>, tags: seq<string>, sources: seq<string>)

  /** Each list has the length of its legacy list and holds, position by position, what the map holds for that id. */
  ghost predicate ResolvedFrom(maps: Maps, m: ResourceSource, r: Resolved) {
    && (m.authors.None? ==> r.authors == [])
    && (m.editors.None? ==> r.editors == [])
    && (m.contributors.None? ==> r.contributors == [])
    && (m.authors.Some? ==>
          && |r.authors| == |m.authors.value|
          && forall i :: 0 <= i < |r.authors| ==> maps.people.Get(m.authors.value[i]) == Some(r.authors[i]))
    && (m.editors.Some? ==>
          && |r.editors| == |m.editors.value|
          && forall i :: 0 <= i < |r.editors| ==> maps.people.Get(m.editors.value[i]) == Some(r.editors[i]))
    && (m.contributors.Some? ==>
          && |r.contributors| == |m.contributors.value|
          && forall i :: 0 <= i < |r.contributors| ==> maps.people.Get(m.contributors.value[i]) == Some(r.contributors[i]))
    && |r.tags| == |m.tags| && (forall i :: 0 <= i < |r.tags| ==> maps.tags.Get(m.tags[i]) == Some(r.tags[i]))
    && |r.sources| == |m.categories| && (forall i :: 0 <= i < |r.sources| ==> maps.sources.Get(m.categories[i]) == Some(r.sources[i]))
  }

  lemma ResolveAllFailure(m: InsertionMap<string, string>, reference: Reference, ids: seq<string>)
    requires ResolveAll(m, reference, ids).Failure?
    ensures var e := ResolveAll(m, reference, ids).error;
      e == MissingId(reference, e.id) && e.id in ids && !Truthy(m.Get(e.id))
  {
  }

  /**
   * The `.map` calls of the frontmatter object, in the order authors, editors,
   * contributors, tags, sources: the first id that does not resolve ends the
   * migration.
   */
  function ResolveReferences(maps: Maps, m: ResourceSource): (r: Result<Resolved, MigrationError>)
    ensures r.Success? <==> ReferencesResolve(maps, m)
    ensures r.Success? ==> ResolvedFrom(maps, m, r.value)
    ensures r.Failure? ==> IsUnresolvedReference(maps, m, r.error)
    ensures r.Failure? ==> IsFirstUnresolvedReference(maps, m, r.error)
  {
    var authors := ResolveOptional(maps.people, PersonRef, m.authors);
    if authors.Failure? then ResolveAllFailure(maps.people, PersonRef, m.authors.value); authors.PropagateFailure()
    else
    var editors := ResolveOptional(maps.people, PersonRef, m.editors);
    if editors.Failure? then ResolveAllFailure(maps.people, PersonRef, m.editors.value); editors.PropagateFailure()
    else
    var contributors := ResolveOptional(maps.people, PersonRef, m.contributors);
    if contributors.Failure? then ResolveAllFailure(maps.people, PersonRef, m.contributors.value); contributors.PropagateFailure()
    else
    var tags := ResolveAll(maps.tags, TagRef, m.tags);
    if tags.Failure? then ResolveAllFailure(maps.tags, TagRef, m.tags); tags.PropagateFailure()
    else
    var sources := ResolveAll(maps.sources, SourceRef, m.categories);
    if sources.Failure? then ResolveAllFailure(maps.sources, SourceRef, m.categories); sources.PropagateFailure()
    else Success(Resolved(authors.value, editors.value, contributors.value, tags.value, sources.value))
  }

  /** The collection a post goes to: external exactly when its remote block is complete. */
  function CollectionOf(m: ResourceSource): Collection {
    if IsRemote(m.remote) then External else Hosted
  }

  /** The `featured-image` field: where a featured image is copied to, when the post has one. */
  function FeaturedImage(c: Collection, id: string, featuredImage: Option<string>): Option<string> {
    if Truthy(featuredImage)
    then Some(AssetUrl("resources/" + CollectionName(c), id, "featured-image" + Extname(featuredImage.value)))
    else None
  }

  /** The `remote` block of an external post. */
  function RemoteBlockOf(remote: Option<Remote>): Option<RemoteBlock> {
    if IsRemote(remote) then Some(RemoteBlock(remote.value.date.value, remote.value.url.value, remote.value.publisher.value)) else None
  }

  /** The frontmatter of a post whose references resolved to `refs`, going to collection `c` under `id`. */
  function FrontmatterOf(c: Collection, id: string, m: ResourceSource, refs: Resolved): Resource {
    Resource(
      Trim(m.title),
      m.lang,
      m.date,
      m.version,
      refs.authors,
      refs.editors,
      refs.contributors,
      refs.tags,
      refs.sources,
      FeaturedImage(c, id, m.featuredImage),
      License,
      m.toc == Some(true),
      Summary(m.shortTitle, Trim(m.abstractText)),
      RemoteBlockOf(m.remote),
      m.contentType)
  }

  /**
   * The post's frontmatter: the licence and the content type are checked
   * first, then every reference is resolved; the first failure ends the
   * migration.
   */
  function ResourceOf(lib: Lib, maps: Maps, contentTypes: seq<string>, slug: string, m: ResourceSource): (r: Result<MigratedResource, MigrationError>)
    ensures r.Success? <==> m.licence == LegacyLicence && m.contentType in contentTypes && ReferencesResolve(maps, m)
    ensures m.licence != LegacyLicence ==> r == Failure(InvalidLicense(m.licence))
    ensures m.licence == LegacyLicence && m.contentType !in contentTypes ==> r == Failure(InvalidContentType(m.contentType))
    ensures m.licence == LegacyLicence && m.contentType in contentTypes && r.Failure? ==> IsUnresolvedReference(maps, m, r.error)
    ensures r.Success? ==> ResolvedFrom(maps, m, Resolved(r.value.frontmatter.authors, r.value.frontmatter.editors,
      r.value.frontmatter.contributors, r.value.frontmatter.tags, r.value.frontmatter.sources))
  {
    if m.licence != LegacyLicence then Failure(InvalidLicense(m.licence))
    else if m.contentType !in contentTypes then Failure(InvalidContentType(m.contentType))
    else
      var refs :- ResolveReferences(maps, m);
      var c, id := CollectionOf(m), lib.slugify(slug);
      Success(MigratedResource(c, id, FrontmatterOf(c, id, m, refs)))
  }

  /**
   * A post is external, and carries a `remote` block, exactly when its remote
   * date, publisher and url are all truthy; the block copies the three.
   */
  lemma ResourceRemoteSplit(lib: Lib, maps: Maps, contentTypes: seq<string>, slug: string, m: ResourceSource)
    requires ResourceOf(lib, maps, contentTypes, slug, m).Success?
    ensures var r := ResourceOf(lib, maps, contentTypes, slug, m).value;
      && (r.collection == External <==> IsRemote(m.remote))
      && (r.frontmatter.remote.Some? <==> IsRemote(m.remote))
      && (IsRemote(m.remote) ==>
            r.frontmatter.remote.value == RemoteBlock(m.remote.value.date.value, m.remote.value.url.value, m.remote.value.publisher.value))
  {
  }

  /**
   * The licence is rewritten, the title and the abstract are trimmed, the
   * table of contents is `Boolean(toc)`, the id is the slugified directory
   * name, and the other scalar fields are copied.
   */
  lemma ResourceFields(lib: Lib, maps: Maps, contentTypes: seq<string>, slug: string, m: ResourceSource)
    requires ResourceOf(lib, maps, contentTypes, slug, m).Success?
    ensures var r := ResourceOf(lib, maps, contentTypes, slug, m).value;
      var f := r.frontmatter;
      && r.id == lib.slugify(slug)
      && f.license == License
      && f.title == Trim(m.title) && Trimmed(f.title)
      && f.summary == Summary(m.shortTitle, Trim(m.abstractText)) && Trimmed(f.summary.content)
      && f.tableOfContents == (m.toc == Some(true))
      && f.locale == m.lang && f.publicationDate == m.date && f.version == m.version
      && f.contentType == m.contentType
  {
    TrimLeavesTrimmed(m.title);
    TrimLeavesTrimmed(m.abstractText);
  }

  /** A resource's copied asset lives under `resources/<collection>`. */
  lemma ResourceAssetUrl(collection: string, id: string, name: string, ext: string)
    ensures AssetUrl("resources/" + collection, id, name + ext)
      == "/assets/content/assets/en/resources/" + collection + "/" + id + ("/" + name) + ext
  {
    var prefix := "/assets/content/assets/en/resources/" + collection + "/";
    assert prefix == "/assets/content/assets/en/" + ("resources/" + collection) + "/" by {
      assert "/assets/content/assets/en/resources/" == "/assets/content/assets/en/" + "resources/";
    }
    AssetUrlOf("resources/" + collection, prefix, id, name, ext);
  }

  /**
   * A featured image is copied to
   * `/assets/content/assets/en/resources/<external|hosted>/<id>/featured-image<ext>`;
   * without one the field stays unset.
   */
  lemma FeaturedImagePath(c: Collection, id: string, featuredImage: Option<string>)
    ensures FeaturedImage(c, id, featuredImage).Some? <==> Truthy(featuredImage)
    ensures Truthy(featuredImage) ==>
      FeaturedImage(c, id, featuredImage).value
        == "/assets/content/assets/en/resources/" + CollectionName(c) + "/" + id + "/featured-image" + Extname(featuredImage.value)
  {
    if Truthy(featuredImage) {
      var ext := Extname(featuredImage.value);
      ResourceAssetUrl(CollectionName(c), id, "featured-image", ext);
      assert "/" + "featured-image" == "/featured-image";
    }
  }

  /** A migrated post's featured image follows that rule, in the post's collection and under its id. */
  lemma ResourceFeaturedImage(lib: Lib, maps: Maps, contentTypes: seq<string>, slug: string, m: ResourceSource)
    requires ResourceOf(lib, maps, contentTypes, slug, m).Success?
    ensures var r := ResourceOf(lib, maps, contentTypes, slug, m).value;
      && (r.frontmatter.featuredImage.Some? <==> Truthy(m.featuredImage))
      && (Truthy(m.featuredImage) ==>
            r.frontmatter.featuredImage.value
              == "/assets/content/assets/en/resources/" + CollectionName(r.collection) + "/" + r.id
                 + "/featured-image" + Extname(m.featuredImage.value))
  {
    var r := ResourceOf(lib, maps, contentTypes, slug, m).value;
    assert r.frontmatter.featuredImage == FeaturedImage(r.collection, r.id, m.featuredImage);
    FeaturedImagePath(r.collection, r.id, m.featuredImage);
  }

  /**
   * The loop body of `migrateResources` for one post directory: the checks,
   * the frontmatter object, then the `remote` block and the featured image
   * added to it in place.
   */
  method MigrateResource(lib: Lib, maps: Maps, contentTypes: seq<string>, slug: string, m: ResourceSource)
    returns (r: Result<MigratedResource, MigrationError>)
    ensures r == ResourceOf(lib, maps, contentTypes, slug, m)
  {
    var isRemote := IsRemote(m.remote);
    var outputSlug := lib.slugify(slug);
    var collection := if isRemote then External else Hosted;
    if m.licence != LegacyLicence {
      return Failure(InvalidLicense(m.licence));
    }
    if m.contentType !in contentTypes {
      return Failure(InvalidContentType(m.contentType));
    }
    var refs :- ResolveReferences(maps, m);
    var frontmatter := Resource(
      Trim(m.title), m.lang, m.date, m.version, refs.authors, refs.editors, refs.contributors, refs.tags, refs.sources,
      None, License, m.toc == Some(true), Summary(m.shortTitle, Trim(m.abstractText)), None, m.contentType);
    if isRemote {
      frontmatter := frontmatter.(remote := Some(RemoteBlock(m.remote.value.date.value, m.remote.value.url.value, m.remote.value.publisher.value)));
    }
    if Truthy(m.featuredImage) {
      frontmatter := frontmatter.(featuredImage := Some(AssetUrl("resources/" + CollectionName(collection), outputSlug, "featured-image" + Extname(m.featuredImage.value))));
    }
    r := Success(MigratedResource(collection, outputSlug, frontmatter));
  }
}
