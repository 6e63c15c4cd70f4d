# dariah-campus legacy-content migration, modelled in Dafny

DARIAH-Campus moved its content from a legacy layout (`content-source/`:
YAML files for people, tags, categories and organisations, and one folder
per post holding an `index.mdx` with YAML frontmatter) to Keystatic
collections under `content/en/…`, with copied assets under
`public/assets/content/assets/en/…`. A set of one-off Node scripts does the
move. This project models those scripts and proves what they do:

- `migrate-content.ts` (modules `MigrateIds`, `MigrateFrontmatter`,
  `MigrateContent`): four passes. People, tags and sources are migrated first;
  each pass builds a `Map` from legacy key to new slug id, and each can be
  resumed from a JSON checkpoint. The resource pass then rewrites every post
  directory's frontmatter. It checks the licence and the content type, and it
  resolves authors, editors, contributors, tags and sources through the three
  maps. The first failed assertion aborts the whole run.
- `save-uuids.ts` (`SaveUuids`): classifies each post as external,
  pathfinders or hosted, and records its uuid in `uuid.json`.
- `organisations.ts` (`Organisations`): one record per organisation file,
  keyed by the full file name, written to `organisations.json`.
- `download-images.ts` (`DownloadImages`): rewrites the web-address `src` of
  `<Figure>` JSX elements in place to `images/<file name>`, then fetches the
  collected pairs in order.
- `download-content-images.ts` (`DownloadContentImages`): rewrites markdown
  image nodes in place and fetches them. It rejects responses that are not
  `image/*`. It adds the mime subtype as an extension to both the file and
  the node url when the file name has none.
- `sanitize-resources.ts` (`SanitizeResources`): replaces curly single
  quotes and no-break spaces in post bodies.
- `typesense/seed-collection.ts` (`SeedCollection`): projects the entries of
  five collections onto search documents and imports them in a fixed order.

Shared modules:

- `JsText`: `\s`, `trim`, `replace(/\s+/, "-")`, `toLowerCase`, truthiness,
  `join`.
- `NodePath`: `path.basename` and `path.extname` on a POSIX path.
- `InsertionMaps`: a JavaScript `Map` with insertion order, `new Map(entries)`
  and `Array.from(map.entries())`.
- `LegacyPosts`: directory listings, `isFile`/`isDirectory`, and the "remote"
  test.
- `Library`: the third-party helpers (`slugify`, `isUrl`, the URL basename,
  `path.join`), passed in as uninterpreted function values.
- `Wrappers`: `Option` and `Result`.

Every `assert(...)` and `throw` of the scripts is an error value (`Result`,
or an `error` field). A loop over a folder is a method whose result is tied
to a specification function over the listing. Objects the scripts mutate in
place are classes: AST image nodes and JSX elements. Their loops are proved
against those same functions.

Two behaviours of the code are modelled as written:

- `migrateResources` declares its legacy-to-new map but never fills it, so
  `resources.json` is always `[]`.
- `entry.name.slice(0, -extname(entry.name).length)` gives `""` for a file
  without an extension, because `-0` is `0`.

## Model

| member | source | states |
|---|---|---|
| JsText.ToLowerCase | scripts/migrate-content.ts:171-173 | ASCII letters 'A' to 'Z' become lower case, character by character; every other character is kept |
| JsText.FirstWhitespace | scripts/migrate-content.ts:172 | the index where `/\s+/` starts matching: no whitespace before it, whitespace at it |
| JsText.RunEnd | scripts/migrate-content.ts:172 | `\s+` is greedy: the run is all whitespace and ends before a non-whitespace character |
| JsText.ReplaceFirstWhitespaceRun | scripts/migrate-content.ts:172 | a string without whitespace is unchanged |
| JsText.ReplaceFirstWhitespaceRunAt | scripts/migrate-content.ts:172 | without the `g` flag, only the first maximal whitespace run becomes a single "-"; the rest is untouched |
| JsText.TrimStart | scripts/migrate-content.ts:407 | removes exactly the leading whitespace: a suffix of the input that starts with a non-whitespace character |
| JsText.TrimEnd | scripts/migrate-content.ts:444 | removes exactly the trailing whitespace: a prefix of the input that ends with a non-whitespace character |
| JsText.TrimLeavesTrimmed | scripts/migrate-content.ts:407 | `trim` leaves no whitespace at either end; it gives "" exactly when the input is all whitespace |
| JsText.TrimIsPiece | scripts/migrate-content.ts:407 | what `trim` returns is a contiguous piece of its input |
| JsText.TrimCutsTrailingWhitespace | scripts/migrate-content.ts:444 | everything cut after the kept piece is whitespace |
| JsText.TrimCutsOnlyWhitespace | scripts/migrate-content.ts:407 | `trim` returns a contiguous piece of its input and cuts off only whitespace |
| JsText.TrimKeepsTrimmed | scripts/migrate-content.ts:444 | a string with no whitespace at either end is left unchanged |
| JsText.TrimIdempotent | scripts/migrate-content.ts:407 | trimming twice gives the same as trimming once |
| NodePath.StripTrailingSlashes | scripts/migrate-content.ts:178 | the result is a prefix of the path, everything cut is '/', and the result does not end in '/' |
| NodePath.AfterLastSlash | scripts/migrate-content.ts:178 | the last segment starts within the path, right after a '/' or at the start, and holds no '/' |
| NodePath.BasenameIsLastSegment | scripts/migrate-content.ts:178 | `basename` is the slash-free run of the path that ends where its trailing '/' characters begin and starts after a '/' or at the start |
| NodePath.SegmentExtIsSuffix | scripts/migrate-content.ts:178 | a segment's extension is "" or a proper suffix starting with its last '.'; it is "" exactly when the segment is ".." or has no '.' after its first character |
| NodePath.ExtnameIsSuffixOfBasename | scripts/migrate-content.ts:178 | `extname` of any path is "" or a proper suffix of its basename starting with the basename's last '.', "" exactly for ".." or a basename without a '.' after its first character |
| NodePath.LastDot | scripts/migrate-content.ts:178 | the position of the extension dot lies within the segment, or there is none |
| NodePath.AfterLastSlashOfName | scripts/migrate-content.ts:178 | a directory entry's name has no separator to cut at |
| NodePath.LastDotIsLast | scripts/migrate-content.ts:178 | the dot found is a '.', and no '.' follows it |
| NodePath.BasenameOfName | scripts/migrate-content.ts:178 | a directory entry's name is its own basename |
| NodePath.ExtnameOfName | scripts/migrate-content.ts:178 | `extname` of a name is "" or a proper suffix starting with its last '.', and the name is the stem followed by it |
| InsertionMaps.InsertionMap.Set | scripts/migrate-content.ts:178 | `map.set` stores the value, leaves other keys alone, and appends a new key (a present key keeps its position) |
| InsertionMaps.InsertionMap.Entries | scripts/migrate-content.ts:229 | `Array.from(map.entries())` lists every key with its value, in insertion order |
| InsertionMaps.Empty | scripts/migrate-content.ts:162 | `new Map()` holds nothing |
| InsertionMaps.FromEntries | scripts/migrate-content.ts:149-152 | `new Map(entries)` is a well-formed map |
| InsertionMaps.FromEntriesSnoc | scripts/migrate-content.ts:149-152 | loading one more pair is one more `set` |
| InsertionMaps.FromEntriesDomain | scripts/migrate-content.ts:149-152 | a key is present exactly when some pair carries it |
| InsertionMaps.FromEntriesLastWins | scripts/save-uuids.ts:28 | a key maps to the value of its last pair |
| InsertionMaps.FromEntriesDistinctKeys | scripts/migrate-content.ts:149-152 | with no repeated key, the key order is the pair order |
| InsertionMaps.FromEntriesDistinct | scripts/migrate-content.ts:149-152 | with no repeated key, `entries()` gives back exactly the pairs loaded |
| InsertionMaps.FromEntriesOfEntries | scripts/migrate-content.ts:149-152 | writing a map's entries and loading them back gives the same map (the checkpoint round trip) |
| LegacyPosts.Files | scripts/migrate-content.ts:164-165 | `if (!entry.isFile()) continue` keeps only files, never more than were listed |
| LegacyPosts.FilesSnoc | scripts/migrate-content.ts:164-165 | one more listed entry adds itself if it is a file, otherwise nothing |
| LegacyPosts.FilesAreListed | scripts/organisations.ts:14-15 | every kept entry was listed, and every listed file is kept |
| LegacyPosts.Directories | scripts/migrate-content.ts:371-372 | `if (!entry.isDirectory()) continue` keeps only directories |
| LegacyPosts.DirectoriesSnoc | scripts/migrate-content.ts:371-372 | one more listed entry adds itself if it is a directory, otherwise nothing |
| LegacyPosts.DirectoriesAreListed | scripts/migrate-content.ts:371-372 | every kept entry was listed, and every listed directory is kept |
| MigrateIds.NewIdIsLowerCase | scripts/migrate-content.ts:171-173 | a new id holds no upper-case ASCII letter |
| MigrateIds.NewIdOfSlug | scripts/migrate-content.ts:171-173 | a slug without whitespace becomes the id by lower-casing alone |
| MigrateIds.NewIdReplacesFirstRun | scripts/migrate-content.ts:171-173 | otherwise only the slug's first whitespace run becomes "-" before lower-casing |
| MigrateIds.PersonIdParts | scripts/migrate-content.ts:171 | a person's id comes from the slug of "lastName-firstName" |
| MigrateIds.NameIdParts | scripts/migrate-content.ts:258 | a tag's or source's id comes from the slug of its name |
| MigrateIds.LegacyKey | scripts/migrate-content.ts:178 | `slice(0, -extname.length)`: "" when there is no extension, never longer than the name |
| MigrateIds.LegacyKeyDropsExtension | scripts/migrate-content.ts:263 | for a name with an extension, the key followed by the extension is the name, and the key is not empty |
| MigrateIds.LegacyKeyOfDottedName | scripts/migrate-content.ts:310 | only the last extension is dropped ("a.tar.gz" gives "a.tar") |
| MigrateIds.LegacyKeyOfBareName | scripts/migrate-content.ts:178 | a file without an extension gets the empty key |
| MigrateIds.Resolve | scripts/migrate-content.ts:413-415 | `map.get` plus `assert(_id)`: success exactly when the mapped id is present and non-empty, with the error naming the id |
| MigrateIds.FirstUnresolved | scripts/migrate-content.ts:429-433 | the first id that does not resolve; all ids before it resolve |
| MigrateIds.ResolveAll | scripts/migrate-content.ts:429-438 | `ids.map(...)` succeeds exactly when every id resolves, keeping order and length; otherwise it fails on the first unresolved id |
| MigrateIds.ResolveOptional | scripts/migrate-content.ts:411-428 | `?.map(...) ?? []`: an absent list gives `[]` |
| MigrateFrontmatter.AssetUrlIsNotDefault | scripts/migrate-content.ts:218 | a copied asset's url is never one of the default images |
| MigrateFrontmatter.AssetUrlOf | scripts/migrate-content.ts:206-218 | the asset url is the folder prefix, then the id, then "/<name><ext>" |
| MigrateFrontmatter.SocialRankAt | scripts/migrate-content.ts:186-197 | the link at each position comes from the push of its kind |
| MigrateFrontmatter.SocialLinksOrdered | scripts/migrate-content.ts:186-197 | links appear in the order email, orcid, twitter, website, each at most once |
| MigrateFrontmatter.SocialLinksCarryFields | scripts/migrate-content.ts:186-197 | every link's href is the truthy field of its kind |
| MigrateFrontmatter.SocialLinksCoverFields | scripts/migrate-content.ts:186-197 | every truthy contact field gives a link of its kind |
| MigrateFrontmatter.NoSocialLinks | scripts/migrate-content.ts:183 | without truthy contact fields the list stays empty |
| MigrateFrontmatter.PersonNameAndImage | scripts/migrate-content.ts:180-220 | the name is "first last"; the avatar stays the default exactly when absent or starting with "http"; otherwise it is `/assets/content/assets/en/people/<id>/image<ext>` |
| MigrateFrontmatter.MigratePerson | scripts/migrate-content.ts:171-220 | the loop body builds the id from the names and the frontmatter step by step, ending at the person record above |
| MigrateFrontmatter.SourceImageRule | scripts/migrate-content.ts:312-334 | a source image stays the default exactly when there is none; otherwise it is `/assets/content/assets/en/sources/<id>/image<ext>` |
| MigrateFrontmatter.MigrateSource | scripts/migrate-content.ts:305-334 | the loop body gives the slug id and a source record with the name and that image |
| MigrateFrontmatter.ResolveAllFailure | scripts/migrate-content.ts:429-438 | a failed list resolution names an id of that list that does not resolve |
| MigrateFrontmatter.ResolveReferences | scripts/migrate-content.ts:411-438 | authors, editors, contributors, tags, sources in that order: success exactly when all resolve, each list resolved position by position; otherwise the error names the first id that does not resolve, the lists taken in that order |
| MigrateFrontmatter.ResourceOf | scripts/migrate-content.ts:394-460 | success exactly when the licence is "ccby-4.0", the content type is known and all references resolve; the licence is checked first, then the type, then the references |
| MigrateFrontmatter.ResourceRemoteSplit | scripts/migrate-content.ts:382-387 | a post is external and carries a `remote` block (copying date, url, publisher) exactly when all three are truthy |
| MigrateFrontmatter.ResourceFields | scripts/migrate-content.ts:406-447 | licence rewritten to "cc-by-4.0", title and abstract trimmed, `Boolean(toc)`, id is the slugified folder name, other scalars copied |
| MigrateFrontmatter.ResourceAssetUrl | scripts/migrate-content.ts:464-480 | a resource's asset url is under `resources/<collection>/<id>/` |
| MigrateFrontmatter.FeaturedImagePath | scripts/migrate-content.ts:462-481 | the featured image is set exactly when the legacy one is truthy, to `/assets/content/assets/en/resources/<external/hosted>/<id>/featured-image<ext>` |
| MigrateFrontmatter.ResourceFeaturedImage | scripts/migrate-content.ts:462-481 | a migrated post's featured image follows that rule, in its own collection and under its id |
| MigrateFrontmatter.MigrateResource | scripts/migrate-content.ts:382-481 | the loop body (checks, the frontmatter object, then `remote` and the featured image assigned in place) computes `ResourceOf` |
| MigrateContent.ResumeKeepsMap | scripts/migrate-content.ts:148-156 | a checkpoint that is what an earlier pass wrote gives back that pass's map, whatever the folder holds now |
| MigrateContent.ApplyAt | scripts/migrate-content.ts:371 | a per-entry map keeps the length, and position j holds the value for entry j |
| MigrateContent.FilesStep | scripts/migrate-content.ts:164-165 | one loop turn adds the entry to the files seen exactly when it is a file |
| MigrateContent.PeopleSnoc | scripts/migrate-content.ts:164-227 | one more person file is one more `set` and one more written entry |
| MigrateContent.PersonRowsAt | scripts/migrate-content.ts:178 | the `set` calls are the person files' rows, one per file and in order |
| MigrateContent.MigratePeople | scripts/migrate-content.ts:147-232 | a loaded checkpoint is returned and nothing is written; otherwise one entry per file is written, and the map's entries become the checkpoint |
| MigrateContent.TagsSnoc | scripts/migrate-content.ts:251-274 | one more tag file is one more `set` and one more written entry |
| MigrateContent.TagRowsAt | scripts/migrate-content.ts:263 | the `set` calls are the tag files' rows, in order |
| MigrateContent.MigrateTags | scripts/migrate-content.ts:234-279 | as for people, with the name as the only frontmatter |
| MigrateContent.SourcesSnoc | scripts/migrate-content.ts:298-341 | one more category file is one more `set` and one more written entry |
| MigrateContent.SourceRowsAt | scripts/migrate-content.ts:310 | the `set` calls are the category files' rows, in order |
| MigrateContent.MigrateSources | scripts/migrate-content.ts:281-346 | as for people, over the legacy categories folder |
| MigrateContent.PersonKeyResolves | scripts/migrate-content.ts:178 | a person file's legacy key resolves to its new id unless a later file has the same key or the id is empty |
| MigrateContent.ResolvedPersonIsListed | scripts/migrate-content.ts:413-414 | only legacy keys of listed person files resolve |
| MigrateContent.TagKeyResolves | scripts/migrate-content.ts:263 | a tag file's legacy key resolves to the tag's new id, on the same terms |
| MigrateContent.SourceKeyResolves | scripts/migrate-content.ts:310 | a category file's legacy key resolves to the source's new id, on the same terms |
| MigrateContent.UntilFailureStops | scripts/migrate-content.ts:371-666 | after a failure, later outcomes change nothing |
| MigrateContent.ApplyUntilFailure | scripts/migrate-content.ts:371-666 | once a prefix of the listing has failed, the rest of the listing changes nothing |
| MigrateContent.UntilFailurePrefix | scripts/migrate-content.ts:371-666 | the kept values are those before the first failure; no error exactly when nothing fails, otherwise the first failure's error |
| MigrateContent.MigratedStopsAtFirstFailure | scripts/migrate-content.ts:371-666 | the documents written are those of the posts before the first failing one; the run fails exactly when some post fails, with the first error |
| MigrateContent.MigratedSnoc | scripts/migrate-content.ts:371-666 | one more post directory is one more step of the loop |
| MigrateContent.MigratedKeepsFailure | scripts/migrate-content.ts:371-666 | once a post has failed, later posts change nothing |
| MigrateContent.MigratedAll | scripts/migrate-content.ts:371-666 | when no post fails, one document is written per post |
| MigrateContent.DirectoriesStep | scripts/migrate-content.ts:371-372 | one loop turn adds the entry to the directories seen exactly when it is a directory |
| MigrateContent.DirectoriesAppend | scripts/migrate-content.ts:371-372 | the directories of a listing are those of its first part, then those of the rest |
| MigrateContent.UntilFailureStep | scripts/migrate-content.ts:371-666 | one directory of the loop: its failure ends the run with that error, and its success is kept |
| MigrateContent.PostDocumentOf | scripts/migrate-content.ts:658-665 | a post's outcome is its frontmatter's migration, with the body passed through |
| MigrateContent.MigratedStep | scripts/migrate-content.ts:371-666 | one post directory: a failure ends the run, otherwise its document is written |
| MigrateContent.MigrateResources | scripts/migrate-content.ts:348-673 | a loaded checkpoint is returned and nothing is written; otherwise the posts are migrated in order until one fails, and the checkpoint is `[]` (the map is never filled) and is written only when nothing failed |
| MigrateContent.Migrate | scripts/migrate-content.ts:675-680 | people, tags, sources, then resources resolved through those three maps; each pass without a checkpoint writes its documents and its map's entries; each pass with a checkpoint writes nothing |
| MigrateContent.RerunSeesSameMaps | scripts/migrate-content.ts:147-346 | rerunning with the first run's checkpoints gives the resources pass the same three maps |
| SaveUuids.Classify | scripts/save-uuids.ts:21-26 | external exactly when the remote block is complete; otherwise pathfinders exactly when the type is "pathfinder"; otherwise hosted |
| SaveUuids.OneMissingRemoteFieldFallsThrough | scripts/save-uuids.ts:22 | a remote block missing any of its three fields does not make a post external |
| SaveUuids.RemoteTakesPrecedence | scripts/save-uuids.ts:21-24 | a complete remote block wins over the "pathfinder" type |
| SaveUuids.Rows | scripts/save-uuids.ts:15-28 | one `set` per listed post, in directory order |
| SaveUuids.SaveStep | scripts/save-uuids.ts:28 | one more post is one more `set` of its uuid to its directory name and collection |
| SaveUuids.FirstNonFolder | scripts/save-uuids.ts:15-17 | the first entry that is not a post folder, where reading its `index.mdx` throws; every entry before it is a folder |
| SaveUuids.Save | scripts/save-uuids.ts:10-31 | the map holds the posts before the first non-folder; uuid.json is written exactly when every entry is a folder, and then holds the entries of the map of all rows |
| SaveUuids.SavedRecordOfLastPost | scripts/save-uuids.ts:28 | each uuid maps to the record of the last post carrying it |
| SaveUuids.SavedUuidsAreListed | scripts/save-uuids.ts:28 | a uuid is recorded exactly when some listed post carries it |
| SaveUuids.WrittenInDirectoryOrder | scripts/save-uuids.ts:31 | with distinct uuids, the written table lists every post in directory order |
| Organisations.OrganisationOf | scripts/organisations.ts:21-25 | name and url are copied; logo is set exactly when truthy, to `join(sourceFolder, logo)` |
| Organisations.Rows | scripts/organisations.ts:14-27 | one `set` per file, keyed by the full file name |
| Organisations.RowsSnoc | scripts/organisations.ts:27 | one more file is one more row |
| Organisations.RecordOfFile | scripts/organisations.ts:27 | each file's record is stored under its full name, unless a later file has the same name |
| Organisations.OnlyFilesAreKeys | scripts/organisations.ts:15 | only names of listed files are keys |
| Organisations.SaveStep | scripts/organisations.ts:14-27 | one loop turn: a file adds one `set`, any other entry nothing |
| Organisations.Save | scripts/organisations.ts:9-33 | the table equals loading the file rows, and the pairs written are its entries |
| SanitizeResources.ReplaceCurlyQuotes | scripts/sanitize-resources.ts:13 | every ‘ and ’ becomes ', and every other character stays at its position |
| SanitizeResources.ReplaceNoBreakSpaces | scripts/sanitize-resources.ts:13 | every U+00A0 becomes a space, and every other character stays at its position |
| SanitizeResources.SanitizePointwise | scripts/sanitize-resources.ts:13 | the length is kept, and each character is replaced on its own |
| SanitizeResources.SanitizeLeavesNoneBehind | scripts/sanitize-resources.ts:13 | no curly single quote and no no-break space remains |
| SanitizeResources.SanitizeKeepsOthers | scripts/sanitize-resources.ts:13 | every other character is kept where it was |
| SanitizeResources.SanitizeIdempotent | scripts/sanitize-resources.ts:13 | running the script twice changes nothing more |
| SeedCollection.CreateResource | scripts/typesense/seed-collection.ts:34-54 | the title is the summary title when truthy, else the title; the other six fields are copied |
| SeedCollection.CreateResourceReadsOnlyProjectedFields | scripts/typesense/seed-collection.ts:45-53 | entries that agree on the projected fields give the same document |
| SeedCollection.MapCreateResource | scripts/typesense/seed-collection.ts:56-60 | `entries.map(createResource)` keeps order and length |
| SeedCollection.Seed | scripts/typesense/seed-collection.ts:8-61 | fails exactly when the admin key is missing or empty; otherwise five imports in order (events, external, hosted, pathfinders, curricula), each projecting its collection |
| DownloadImages.JsxElement.constructor | scripts/download-images.ts:38 | a parsed element holds its name and attributes |
| DownloadImages.Snapshot | scripts/download-images.ts:38 | the elements' current names and attributes, in traversal order |
| DownloadImages.FindSrc | scripts/download-images.ts:41-44 | `find` returns the first attribute named "src", or none |
| DownloadImages.VisitOf | scripts/download-images.ts:39-60 | the callback throws exactly on a `Figure` without a truthy `src` |
| DownloadImages.VisitLeavesOthers | scripts/download-images.ts:39-51 | a non-`Figure`, or a `Figure` with a local `src`, is unchanged and pushes nothing |
| DownloadImages.VisitRewritesWebSrc | scripts/download-images.ts:51-59 | a web `src` becomes `images/<file name>`, other attributes are kept, and the pushed pair targets that same file in the post's `images` folder |
| DownloadImages.FindSrcOfUpdate | scripts/download-images.ts:59 | assigning the found attribute's value keeps it the first `src` |
| DownloadImages.VisitWith | scripts/download-images.ts:38-62 | the visit leaves one attribute list per element |
| DownloadImages.VisitWithSnoc | scripts/download-images.ts:38-62 | one more element is one more callback, unless the visit has already thrown |
| DownloadImages.VisitWithStops | scripts/download-images.ts:38-62 | once the visit has thrown, later elements keep their attributes |
| DownloadImages.VisitAll | scripts/download-images.ts:38-62 | the visit leaves one attribute list per element |
| DownloadImages.VisitAllFails | scripts/download-images.ts:47-48 | the visit fails exactly when some `Figure` has no truthy `src` |
| DownloadImages.VisitAllAt | scripts/download-images.ts:38-62 | when the visit completes, each element holds what its own callback made of it |
| DownloadImages.VisitAllPromises | scripts/download-images.ts:51-57 | every pushed pair comes from a web address, and its target is named after that address |
| DownloadImages.FirstFailing | scripts/download-images.ts:64-70 | the number of pairs fetched before the first failed fetch |
| DownloadImages.VisitElement | scripts/download-images.ts:39-60 | the callback on one element, assigning `urlAttr.value` in place, agrees with `VisitOf` and leaves the element unchanged when it throws |
| DownloadImages.AttributesOf | scripts/download-images.ts:38 | the elements' current attribute lists |
| DownloadImages.VisitWithFails | scripts/download-images.ts:48 | a visit that throws at one element leaves it and the later elements as they were |
| DownloadImages.VisitFails | scripts/download-images.ts:48 | when the i-th element throws, the visit ends with its error and the current attributes |
| DownloadImages.VisitStep | scripts/download-images.ts:38-62 | a completed callback keeps its new attributes and pushes its pairs |
| DownloadImages.AttributesAre | scripts/download-images.ts:38 | tracked attribute lists that agree element by element are the elements' attributes |
| DownloadImages.VisitAt | scripts/download-images.ts:38-62 | the callback on the i-th element moves the visit past it, or ends it with its error |
| DownloadImages.VisitElements | scripts/download-images.ts:38-62 | the in-place visit leaves the attributes, pairs and error of `VisitAll` on the elements as they were |
| DownloadImages.FetchAll | scripts/download-images.ts:64-70 | the pairs are fetched in order up to the first failure, whose url is the error |
| DownloadImages.FirstFailingAt | scripts/download-images.ts:64-70 | the first failed fetch is at k when all before k succeed and k fails |
| DownloadImages.Transform | scripts/download-images.ts:35-71 | the visit, then the fetch loop; a throwing visit fetches nothing |
| DownloadImages.Parse | scripts/download-images.ts:80 | one fresh, distinct object per element, with its name and attributes |
| DownloadImages.RunWithSnoc | scripts/download-images.ts:23-83 | one more listing entry is one more loop turn, unless the run has already failed |
| DownloadImages.RunWithStopsAt | scripts/download-images.ts:23-83 | once an entry has failed, later entries change nothing |
| DownloadImages.RunWithPrefix | scripts/download-images.ts:23-83 | the posts written back are the leading entries up to the first failure; the run fails exactly when some entry fails |
| DownloadImages.RunWithStep | scripts/download-images.ts:80-82 | an entry without error is written back and the loop moves on |
| DownloadImages.RunWithFails | scripts/download-images.ts:80 | an entry with an error ends the run with it, its post not written |
| DownloadImages.RunStops | scripts/download-images.ts:23-83 | once an entry has failed, later entries change nothing |
| DownloadImages.RunWritesPrefix | scripts/download-images.ts:23-83 | posts are written back in order up to the first entry that fails (a non-folder at `mkdir`, a missing `src`, a failed fetch), whose error ends the run |
| DownloadImages.RunStep | scripts/download-images.ts:23-83 | one entry of the run: a failure ends it, otherwise the post is written and the loop moves on |
| DownloadImages.DownloadPost | scripts/download-images.ts:27-82 | parsing, transforming and serializing one post gives `PostOutcome` |
| DownloadImages.DownloadAll | scripts/download-images.ts:20-84 | the whole run's posts written, downloads and error are those of `RunOf` |
| DownloadContentImages.ImageNode.constructor | scripts/download-content-images.ts:38 | a parsed image node holds its url |
| DownloadContentImages.UrlsOf | scripts/download-content-images.ts:38 | the node urls, in traversal order |
| DownloadContentImages.RewriteAll | scripts/download-content-images.ts:42-52 | the first phase rewrites each node on its own |
| DownloadContentImages.Plan | scripts/download-content-images.ts:42-50 | the `images` array holds only web-address nodes, each with the target `join(images folder, file name)` |
| DownloadContentImages.PlanOrdered | scripts/download-content-images.ts:38-54 | the schedule lists nodes in traversal order, each at most once |
| DownloadContentImages.PlanCovers | scripts/download-content-images.ts:42-50 | every web-address node is scheduled, after those before it |
| DownloadContentImages.Fetch | scripts/download-content-images.ts:56-72 | the fetch phase keeps one url per node |
| DownloadContentImages.FirstRejected | scripts/download-content-images.ts:61-64 | the first scheduled image whose response is not `image/*` |
| DownloadContentImages.FetchDownloads | scripts/download-content-images.ts:56-72 | the downloads are the accepted prefix of the schedule, each target extended by its suffix; the error is the first rejected image's |
| DownloadContentImages.FetchKeepsUnplanned | scripts/download-content-images.ts:56-72 | an unscheduled node keeps its url |
| DownloadContentImages.FetchSuffixesFirst | scripts/download-content-images.ts:65-68 | the first scheduled node gets its suffix exactly when its fetch is accepted |
| DownloadContentImages.FetchSuffixesPlanned | scripts/download-content-images.ts:65-68 | the k-th scheduled node gets its suffix exactly when its fetch was reached and accepted |
| DownloadContentImages.LocalImageKeepsUrl | scripts/download-content-images.ts:42 | an image that is not a web address keeps its url |
| DownloadContentImages.RemoteImagePointsAtDownload | scripts/download-content-images.ts:42-71 | a web image's new url is `images/<file name><suffix>`, and its download writes the same file name with the same suffix |
| DownloadContentImages.FetchAt | scripts/download-content-images.ts:56-72 | one turn of the fetch loop on the remaining schedule |
| DownloadContentImages.TracksStep | scripts/download-content-images.ts:38-54 | one visited node adds its pending download exactly when it is a web address |
| DownloadContentImages.VisitNode | scripts/download-content-images.ts:39-53 | the callback rewrites a web-address node's url in place and returns its pending triple, and leaves other nodes alone |
| DownloadContentImages.VisitAt | scripts/download-content-images.ts:38-54 | one node of the `visit`: that node is rewritten and the pending triples gathered so far follow the schedule up to it |
| DownloadContentImages.RewriteAddresses | scripts/download-content-images.ts:38-54 | every node is rewritten, and the pending triples follow the schedule, each holding its own node |
| DownloadContentImages.RemainingAccepted | scripts/download-content-images.ts:56-72 | an accepted fetch moves the loop one image on |
| DownloadContentImages.RemainingRejected | scripts/download-content-images.ts:61-64 | a rejected fetch ends the loop with that image's error |
| DownloadContentImages.AddMissingExtension | scripts/download-content-images.ts:65-68 | a target without an extension gets "." plus the mime subtype, and so does the node's url |
| DownloadContentImages.FetchImages | scripts/download-content-images.ts:56-72 | the in-place fetch loop leaves the urls, downloads and error of `Fetch` |
| DownloadContentImages.Transform | scripts/download-content-images.ts:35-73 | the visit then the fetch loop, on the nodes in place, give `Outcome` of the urls before |
| DownloadContentImages.RunOf | scripts/download-content-images.ts:23-85 | never more posts written back than there are folders |
| DownloadContentImages.RunWritesPrefix | scripts/download-content-images.ts:23-85 | posts written back are the leading folders, with their transformed urls; the run fails exactly at the first failed transform, with its error; the downloads are those of the transforms that ran, in order |
| DownloadContentImages.RunStep | scripts/download-content-images.ts:82-84 | one post: a failure ends the run unwritten, otherwise it is written |
| DownloadContentImages.Parse | scripts/download-content-images.ts:82 | one fresh, distinct node per image, with its url |
| DownloadContentImages.DownloadPost | scripts/download-content-images.ts:27-84 | parsing, transforming and serializing one post gives `Outcome` |
| DownloadContentImages.DownloadAll | scripts/download-content-images.ts:20-86 | the run's written posts, downloads and error are those of `RunOf` |

## Left out

- File system, YAML and JSON parsing and printing, and the markdown parse and
  serialize: listings and parsed files are inputs, and written files are
  results.
- The third-party helpers (`slugify` with and without `preserveCharacters`,
  `isUrl`, `basename(new URL(u).pathname)`, `path.join`) are uninterpreted
  function values. Nothing about them is assumed.
- The markdown visitors in `migrate-content.ts` (`mdxJsxTextElement` and
  `mdxJsxFlowElement`): every case only breaks. The smart-quotes plugin is
  not part of this model. A post body is passed through unchanged.
- `lib/keystatic/options` is not part of this model: the list of content types
  is a parameter.
- Asset output urls are built by plain "/"-concatenation. `path.join`
  normalisation of ids such as "" or ".." is not modelled. The extension is
  taken from the legacy file name rather than from the joined path.
- YAML values that are not strings, and JavaScript's coercion of them, are
  not modelled. Every text field is a string or absent. A missing `tags` or
  `categories` list, where `.map` would throw, is not modelled.
- `log.warn` (no authors, avatar web address) and the final success or error
  log lines only print, so they are not modelled.
- Network and stream errors are not modelled. In `download-images.ts` a fetch
  either succeeds or fails, as a predicate on the url. In
  `download-content-images.ts` it returns the response's `content-type`
  header, or none. The streamed bytes are not modelled.
- Expression-valued JSX attributes are not modelled: an attribute's value is
  a string or absent.
- Symbolic links and other non-file entries count as neither file nor
  directory. In `save-uuids.ts`, which reads every entry, such an entry ends
  the run like a file does, even a link to a post folder.
- A post folder without `index.mdx`, where `read` throws, is not modelled.
- `sanitize-resources.ts`'s folder loop (read, replace, write per entry) is
  I/O. Only the text transform is modelled.
- The Typesense client and `createCollectionResource(...).all()` are
  modelled as inputs: the collections' entries, and the list of imports that
  would be sent. The connection settings are not modelled.
- DownloadContentImages.DownloadAll: takes the post folders as given. A
  listing entry that is not a folder, on which `mkdir` would fail, is not
  modelled for this script, unlike `DownloadImages.RunOf`.
- DownloadContentImages.RunOf: its own contract states only a bound. What it
  means is stated by `RunWritesPrefix`.
- DownloadContentImages.Fetch: its own contract states only the length. What
  it means is stated by `FetchDownloads`, `FetchKeepsUnplanned` and
  `FetchSuffixesPlanned`.
- JsText.ToLowerCase: only the ASCII letters 'A' to 'Z' are lowered. The
  Unicode case mapping of `String.prototype.toLowerCase`, under which a
  character can change and the length can grow (U+0130), is not modelled.
- The concurrency of `async` calls is not modelled. Every awaited call runs
  in program order.
