/**
 * scripts/migrate-content.ts, identifiers: the new slug id of a migrated
 * entry, the legacy key it is registered under, and the resolution of a
 * legacy cross-reference through a collection's map.
 */
module MigrateIds {
  import opened Wrappers
  import opened JsText
  import opened Library
  import opened NodePath
  import opened InsertionMaps

  /** `sanitize(parts.join("-")).replace(/\s+/, "-").toLowerCase()`. */
  function NewId(lib: Lib, parts: seq<string>): string {
    ToLowerCase(ReplaceFirstWhitespaceRun(lib.slugify(Join(parts, "-"))))
  }

  /** A person's id is built from the last name, then the first name. */
  function PersonId(lib: Lib, firstName: string, lastName: string): string {
    NewId(lib, [lastName, firstName])
  }

  /** A tag's or a source's id is built from its name alone. */
  function NameId(lib: Lib, name: string): string {
    NewId(lib, [name])
  }

  /** A new id holds no upper-case ASCII letter. */
  lemma NewIdIsLowerCase(lib: Lib, parts: seq<string>)
    ensures forall k :: 0 <= k < |NewId(lib, parts)| ==> !('A' <= NewId(lib, parts)[k] <= 'Z')
  {
  }

  /** When the slug has no whitespace, the id is the slug lower-cased. */
  lemma NewIdOfSlug(lib: Lib, parts: seq<string>)
    requires NoWhitespace(lib.slugify(Join(parts, "-")))
    ensures NewId(lib, parts) == ToLowerCase(lib.slugify(Join(parts, "-")))
  {
  }

  /**
   * Otherwise only the FIRST run of whitespace becomes one hyphen: a slug made
   * of a whitespace-free head, a run of whitespace and a rest that does not
   * start with whitespace gives the head, "-", the rest, lower-cased.
   */
  lemma NewIdReplacesFirstRun(lib: Lib, parts: seq<string>, head: string, run: string, rest: string)
    requires lib.slugify(Join(parts, "-")) == head + run + rest
    requires NoWhitespace(head) && run != []
    requires forall k :: 0 <= k < |run| ==> IsWhitespace(run[k])
    requires rest != [] ==> !IsWhitespace(rest[0])
    ensures NewId(lib, parts) == ToLowerCase(head + "-" + rest)
  {
    var s := head + run + rest;
    var i, j := |head|, |head| + |run|;
    assert forall k :: 0 <= k < i ==> s[k] == head[k];
    assert forall k :: i <= k < j ==> s[k] == run[k - i];
    assert j < |s| ==> s[j] == rest[0];
    ReplaceFirstWhitespaceRunAt(s, i, j);
    assert s[..i] == head && s[j..] == rest;
  }

  /** The slug a person's id comes from is "<lastName>-<firstName>". */
  lemma PersonIdParts(lib: Lib, firstName: string, lastName: string)
    ensures PersonId(lib, firstName, lastName) == ToLowerCase(ReplaceFirstWhitespaceRun(lib.slugify(lastName + "-" + firstName)))
  {
    assert Join([lastName, firstName], "-") == lastName + "-" + Join([firstName], "-");
  }

  /** The slug a tag's or a source's id comes from is the name itself. */
  lemma NameIdParts(lib: Lib, name: string)
    ensures NameId(lib, name) == ToLowerCase(ReplaceFirstWhitespaceRun(lib.slugify(name)))
  {
    assert Join([name], "-") == name;
  }

  /**
   * `name.slice(0, -extname(name).length)`. A negative end counts from the
   * end of the string, but `-0` is `0`: a name without extension gives "".
   */
  function LegacyKey(name: string): (key: string)
    ensures Extname(name) == "" ==> key == ""
    ensures |key| <= |name|
  {
    var n := |Extname(name)|;
    if n == 0 then "" else if n <= |name| then name[..|name| - n] else ""
  }

  /** A directory entry's name (it holds no '/') with an extension gives its key by dropping that extension. */
  lemma LegacyKeyDropsExtension(name: string)
    requires NoSlash(name) && Extname(name) != ""
    ensures LegacyKey(name) + Extname(name) == name
    ensures |LegacyKey(name)| > 0
  {
    ExtnameOfName(name);
  }

  /** Only the last extension is dropped. */
  lemma LegacyKeyOfDottedName()
    ensures LegacyKey("a.tar.gz") == "a.tar"
  {
    var name := "a.tar.gz";
    assert NoSlash(name);
    BasenameOfName(name);
    assert LastDot(name) == 5 by {
      assert name[|name| - 1] != '.' && name[|name| - 2] != '.' && name[|name| - 3] == '.';
      assert name[..|name| - 1][..|name| - 2] == name[..|name| - 2];
    }
    assert Extname(name) == ".gz";
  }

  /** A file without extension gets the empty key. */
  lemma LegacyKeyOfBareName()
    ensures LegacyKey("README") == ""
  {
    var name := "README";
    assert NoSlash(name);
    BasenameOfName(name);
    LastDotIsLast(name);
    assert Extname(name) == "";
  }

  /** The collections a resource's cross-references point into. */
  datatype Reference = PersonRef | TagRef | SourceRef

  /** Why a resource cannot be migrated; every one of them aborts the run. */
  datatype MigrationError =
    | InvalidLicense(licence: string)
    | InvalidContentType(contentType: string)
    | MissingId(reference: Reference, id: string)

  function Message(e: MigrationError): string {
    match e
    case InvalidLicense(l) => "Invalid license: " + l
    case InvalidContentType(t) => "Invalid content type: " + t
    case MissingId(PersonRef, id) => "Missing person id for " + id
    case MissingId(TagRef, id) => "Missing tag id for " + id
    case MissingId(SourceRef, id) => "Missing source id for " + id
  }

  /**
   * `const _id = map.get(id); assert(_id, ...)`: the mapped id, which must be
   * present and, being tested for truthiness, not empty.
   */
  function Resolve(m: InsertionMap<string, string>, reference: Reference, id: string): (r: Result<string, MigrationError>)
    ensures r.Success? <==> Truthy(m.Get(id))
    ensures r.Success? ==> m.Get(id) == Some(r.value)
    ensures r.Failure? ==> r.error == MissingId(reference, id)
  {
    var mapped := m.Get(id);
    if Truthy(mapped) then Success(mapped.value) else Failure(MissingId(reference, id))
  }

  /** Every id of `ids` resolves. */
  predicate AllResolve(m: InsertionMap<string, string>, ids: seq<string>) {
    forall i :: 0 <= i < |ids| ==> Truthy(m.Get(ids[i]))
  }

  /** The position of the first id that does not resolve, or `|ids|`. */
  function FirstUnresolved(m: InsertionMap<string, string>, ids: seq<string>): (i: nat)
    ensures i <= |ids|
    ensures AllResolve(m, ids[..i])
    ensures i < |ids| ==> !Truthy(m.Get(ids[i]))
    ensures i == |ids| <==> AllResolve(m, ids)
  {
    if ids == [] || !Truthy(m.Get(ids[0])) then 0
    else
      var i := 1 + FirstUnresolved(m, ids[1..]);
      assert forall k :: 1 <= k < i ==> ids[..i][k] == ids[1..][..i - 1][k - 1];
      i
  }

  /**
   * `ids.map((id) => { ... })` with the assertion above: fails on the first id
   * that does not resolve, naming it; otherwise keeps the order and length.
   */
  function ResolveAll(m: InsertionMap<string, string>, reference: Reference, ids: seq<string>): (r: Result<seq<string>, MigrationError>)
    ensures r.Success? <==> AllResolve(m, ids)
    ensures r.Success? ==> |r.value| == |ids| && forall i :: 0 <= i < |ids| ==> m.Get(ids[i]) == Some(r.value[i])
    ensures r.Failure? ==> r.error == MissingId(reference, ids[FirstUnresolved(m, ids)])
  {
    if ids == [] then Success([])
    else
      var head :- Resolve(m, reference, ids[0]);
      var tail :- ResolveAll(m, reference, ids[1..]);
      assert forall i :: 1 <= i < |ids| ==> ids[1..][i - 1] == ids[i];
      Success([head] + tail)
  }

  /** `ids?.map(...) ?? []`: an absent list resolves to the empty list. */
  function ResolveOptional(m: InsertionMap<string, string>, reference: Reference, ids: Option<seq<string>>): (r: Result<seq<string>, MigrationError>)
    ensures ids.None? ==> r == Success([])
    ensures ids.Some? ==> r == ResolveAll(m, reference, ids.value)
  {
    if ids.None? then Success([]) else ResolveAll(m, reference, ids.value)
  }
}
