/**
 * scripts/typesense/seed-collection.ts: every entry of the five searchable
 * collections is projected onto a search document, and the five batches are
 * imported one after another.
 */
module SeedCollection {
  import opened Wrappers
  import opened JsText

  datatype EntrySummary = EntrySummary(title: Option<string>, content: string)

  /**
   * The part of an entry's data the projection reads; `rest` stands for every
   * other field of the entry (authors, body, images, ...), by name.
   */
  datatype EntryData = EntryData(
    title: string,
    locale: string,
    publicationDate: string,
    summary: EntrySummary,
    tags: seq<string>,
    rest: map<string, string>)

  datatype CollectionEntry = CollectionEntry(id: string, collection: string, data: EntryData)

  /** A search document: exactly these seven fields. */
  datatype SearchDocument = SearchDocument(
    id: string,
    collection: string,
    title: string,
    locale: string,
    publicationDate: string,
    summary: string,
    tags: seq<string>)

  /** `createResource`: the short title when it is non-empty, else the title. */
  function CreateResource(input: CollectionEntry): (d: SearchDocument)
    ensures Truthy(input.data.summary.title) ==> d.title == input.data.summary.title.value
    ensures !Truthy(input.data.summary.title) ==> d.title == input.data.title
    ensures d.summary == input.data.summary.content
    ensures d.id == input.id && d.collection == input.collection && d.locale == input.data.locale
    ensures d.publicationDate == input.data.publicationDate && d.tags == input.data.tags
  {
    SearchDocument(
      input.id,
      input.collection,
      if Truthy(input.data.summary.title) then input.data.summary.title.value else input.data.title,
      input.data.locale,
      input.data.publicationDate,
      input.data.summary.content,
      input.data.tags)
  }

  /** Two entries that agree on the projected fields give the same document: nothing else is carried over. */
  lemma CreateResourceReadsOnlyProjectedFields(a: CollectionEntry, b: CollectionEntry)
    requires a.id == b.id && a.collection == b.collection
    requires a.data.title == b.data.title && a.data.locale == b.data.locale
    requires a.data.publicationDate == b.data.publicationDate && a.data.tags == b.data.tags
    requires a.data.summary == b.data.summary
    ensures CreateResource(a) == CreateResource(b)
  {
  }

  /** `entries.map(createResource)`. */
  function MapCreateResource(entries: seq<CollectionEntry>): (docs: seq<SearchDocument>)
    ensures |docs| == |entries|
    ensures forall i :: 0 <= i < |entries| ==> docs[i] == CreateResource(entries[i])
  {
    if entries == [] then [] else [CreateResource(entries[0])] + MapCreateResource(entries[1..])
  }

  datatype SeedError = MissingAdminApiKey

  function Message(e: SeedError): string {
    "Missing TYPESENSE_ADMIN_API_KEY environment variable."
  }

  /** One `documents().import(...)` call: the target collection's entries, projected. */
  datatype Import = Import(source: string, documents: seq<SearchDocument>)

  /**
   * `seed`: fails on a missing (or empty) admin key before importing anything;
   * otherwise imports events, external resources, hosted resources,
   * pathfinders and curricula, in that order. The Typesense client is not
   * part of this model: the result is the sequence of imports it receives.
   */
  function Seed(
    adminApiKey: Option<string>,
    events: seq<CollectionEntry>,
    external: seq<CollectionEntry>,
    hosted: seq<CollectionEntry>,
    pathfinders: seq<CollectionEntry>,
    curricula: seq<CollectionEntry>): (r: Result<seq<Import>, SeedError>)
    ensures r.Failure? <==> !Truthy(adminApiKey)
    ensures r.Success? ==>
      && |r.value| == 5
      && r.value[0].source == "resources-events" && r.value[1].source == "resources-external"
      && r.value[2].source == "resources-hosted" && r.value[3].source == "resources-pathfinders"
      && r.value[4].source == "curricula"
      && |r.value[0].documents| == |events| && |r.value[1].documents| == |external|
      && |r.value[2].documents| == |hosted| && |r.value[3].documents| == |pathfinders|
      && |r.value[4].documents| == |curricula|
    ensures r.Success? ==>
      && (forall i :: 0 <= i < |events| ==> r.value[0].documents[i] == CreateResource(events[i]))
      && (forall i :: 0 <= i < |external| ==> r.value[1].documents[i] == CreateResource(external[i]))
      && (forall i :: 0 <= i < |hosted| ==> r.value[2].documents[i] == CreateResource(hosted[i]))
      && (forall i :: 0 <= i < |pathfinders| ==> r.value[3].documents[i] == CreateResource(pathfinders[i]))
      && (forall i :: 0 <= i < |curricula| ==> r.value[4].documents[i] == CreateResource(curricula[i]))
  {
    if !Truthy(adminApiKey) then Failure(MissingAdminApiKey)
    else
      Success([
        Import("resources-events", MapCreateResource(events)),
        Import("resources-external", MapCreateResource(external)),
        Import("resources-hosted", MapCreateResource(hosted)),
        Import("resources-pathfinders", MapCreateResource(pathfinders)),
        Import("curricula", MapCreateResource(curricula))
      ])
  }
}
