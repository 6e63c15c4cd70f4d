/**
 * scripts/download-images.ts: in each legacy post, every `Figure` JSX element
 * whose `src` is a web address gets `src="images/<file name>"`, and the
 * images are then fetched one at a time into the post's `images` folder.
 */
module DownloadImages {
  import opened Wrappers
  import opened JsText
  import opened Library
  import opened LegacyPosts

  /** An `mdxJsxAttribute`; a missing or `null` value is `None`. */
  datatype Attribute = Attribute(name: string, value: Option<string>)

  /** An `mdxJsxFlowElement`; the transform assigns the `value` of one of its attributes in place. */
  class JsxElement {
    const name: string
    var attributes: seq<Attribute>

    constructor (name: string, attributes: seq<Attribute>)
      ensures this.name == name && this.attributes == attributes
    {
      this.name := name;
      this.attributes := attributes;
    }
  }

  /** A JSX element as a value: its name and its attributes. */
  type Element = (string, seq<Attribute>)

  /** The elements as they are now, in traversal order. */
  function Snapshot(elements: seq<JsxElement>): (s: seq<Element>)
    reads elements
    ensures |s| == |elements|
    ensures forall i :: 0 <= i < |elements| ==> s[i] == (elements[i].name, elements[i].attributes)
  {
    if elements == [] then []
    else
      var n := |elements| - 1;
      Snapshot(elements[..n]) + [(elements[n].name, elements[n].attributes)]
  }

  /** `attributes.find((a) => a.name === "src")`: the position of the first `src`, or the length. */
  function FindSrc(attributes: seq<Attribute>): (i: nat)
    ensures i <= |attributes|
    ensures forall j :: 0 <= j < i ==> attributes[j].name != "src"
    ensures i < |attributes| ==> attributes[i].name == "src"
  {
    if attributes == [] || attributes[0].name == "src" then 0
    else 1 + FindSrc(attributes[1..])
  }

  /** `urlAttr?.value`. */
  function SrcOf(attributes: seq<Attribute>): Option<string> {
    var i := FindSrc(attributes);
    if i < |attributes| then attributes[i].value else None
  }

  /** Why a run stops: a `Figure` without a truthy `src`, an entry that is no folder, a failed fetch. */
  datatype DownloadError = MissingSrc(entryName: string) | NotAFolder(entryName: string) | FetchFailed(url: string)

  /** The prefix every rewritten `src` starts with. */
  const ImagesPrefix := "images/"

  /** `slugify(basename(new URL(url).pathname))`. */
  function FileName(lib: Lib, url: string): string {
    lib.slugify(lib.urlBasename(url))
  }

  /** `join(sourceFolder, entry.name, "images")`. */
  function ImagesFolder(lib: Lib, sourceFolder: string, entryName: string): string {
    lib.join(lib.join(sourceFolder, entryName), "images")
  }

  /** The `[url, targetFilePath]` pair pushed for a web address. */
  function Promise(lib: Lib, sourceFolder: string, entryName: string, url: string): (string, string) {
    (url, lib.join(ImagesFolder(lib, sourceFolder, entryName), FileName(lib, url)))
  }

  /** What the `visit` callback leaves on one element: its attributes and the pair it pushed, if any. */
  datatype Visited = Visited(attributes: seq<Attribute>, pushed: seq<(string, string)>)

  /** The `visit` callback on one `mdxJsxFlowElement`. */
  function VisitOf(lib: Lib, sourceFolder: string, entryName: string, element: Element): (r: Result<Visited, DownloadError>)
    ensures r.Failure? <==> element.0 == "Figure" && !Truthy(SrcOf(element.1))
    ensures r.Failure? ==> r.error == MissingSrc(entryName)
  {
    var (name, attributes) := element;
    if name != "Figure" then Success(Visited(attributes, []))
    else
      var url := SrcOf(attributes);
      if !Truthy(url) then Failure(MissingSrc(entryName))
      else if !lib.isUrl(url.value) then Success(Visited(attributes, []))
      else
        var i := FindSrc(attributes);
        Success(Visited(attributes[i := attributes[i].(value := Some(ImagesPrefix + FileName(lib, url.value)))],
                        [Promise(lib, sourceFolder, entryName, url.value)]))
  }

  /**
   * Elements other than a `Figure`, and a `Figure` whose `src` is a local path,
   * are left as they are and push nothing.
   */
  lemma VisitLeavesOthers(lib: Lib, sourceFolder: string, entryName: string, element: Element)
    requires element.0 != "Figure" || (Truthy(SrcOf(element.1)) && !lib.isUrl(SrcOf(element.1).value))
    ensures VisitOf(lib, sourceFolder, entryName, element) == Success(Visited(element.1, []))
  {
  }

  /**
   * A `Figure` with a web-address `src` keeps every other attribute, and its
   * `src`, found by the same `find`, now names `images/<file name>`: the very
   * file name the pushed download is written to, in the post's `images` folder.
   */
  lemma VisitRewritesWebSrc(lib: Lib, sourceFolder: string, entryName: string, element: Element)
    requires element.0 == "Figure" && Truthy(SrcOf(element.1)) && lib.isUrl(SrcOf(element.1).value)
    ensures var url := SrcOf(element.1).value;
      var r := VisitOf(lib, sourceFolder, entryName, element);
      && r.Success?
      && |r.value.attributes| == |element.1|
      && (forall j :: 0 <= j < |element.1| && j != FindSrc(element.1) ==> r.value.attributes[j] == element.1[j])
      && SrcOf(r.value.attributes) == Some(ImagesPrefix + FileName(lib, url))
      && r.value.pushed == [(url, lib.join(ImagesFolder(lib, sourceFolder, entryName), FileName(lib, url)))]
  {
    var attributes := element.1;
    var i := FindSrc(attributes);
    var after := VisitOf(lib, sourceFolder, entryName, element).value.attributes;
    FindSrcOfUpdate(attributes, i, attributes[i].(value := Some(ImagesPrefix + FileName(lib, SrcOf(attributes).value))));
  }

  /** Changing the value of the first `src` leaves it the first `src`. */
  lemma {:induction false} FindSrcOfUpdate(attributes: seq<Attribute>, i: nat, a: Attribute)
    requires i == FindSrc(attributes) && i < |attributes| && a.name == "src"
    ensures FindSrc(attributes[i := a]) == i
  {
    if i > 0 {
      assert attributes[i := a][1..] == attributes[1..][i - 1 := a];
      FindSrcOfUpdate(attributes[1..], i - 1, a);
    }
  }

  /** The state the `visit` leaves: every element's attributes, the pairs pushed, and the error it threw. */
  datatype Visit = Visit(attributes: seq<seq<Attribute>>, promises: seq<(string, string)>, error: Option<DownloadError>)

  /**
   * A `visit` that runs `callback` on the elements in traversal order. An
   * element whose callback throws ends it: the elements after it keep their
   * attributes.
   */
  function VisitWith(callback: Element -> Result<Visited, DownloadError>, elements: seq<Element>): (v: Visit)
    ensures |v.attributes| == |elements|
  {
    if elements == [] then Visit([], [], None)
    else
      var n := |elements| - 1;
      var before := VisitWith(callback, elements[..n]);
      if before.error.Some? then Visit(before.attributes + [elements[n].1], before.promises, before.error)
      else match callback(elements[n])
        case Failure(e) => Visit(before.attributes + [elements[n].1], before.promises, Some(e))
        case Success(x) => Visit(before.attributes + [x.attributes], before.promises + x.pushed, None)
  }

  lemma VisitWithSnoc(callback: Element -> Result<Visited, DownloadError>, elements: seq<Element>, e: Element)
    ensures var before := VisitWith(callback, elements);
      VisitWith(callback, elements + [e])
        == if before.error.Some? then Visit(before.attributes + [e.1], before.promises, before.error)
           else match callback(e)
             case Failure(err) => Visit(before.attributes + [e.1], before.promises, Some(err))
             case Success(x) => Visit(before.attributes + [x.attributes], before.promises + x.pushed, None)
  {
    assert (elements + [e])[..|elements|] == elements;
  }

  /** Once the `visit` has thrown, the later elements keep their attributes. */
  lemma {:induction false} VisitWithStops(callback: Element -> Result<Visited, DownloadError>, elements: seq<Element>, more: seq<Element>)
    requires VisitWith(callback, elements).error.Some?
    ensures var before := VisitWith(callback, elements);
      VisitWith(callback, elements + more)
        == Visit(before.attributes + seq(|more|, j requires 0 <= j < |more| => more[j].1), before.promises, before.error)
    decreases |more|
  {
    if more == [] {
      assert elements + more == elements;
    } else {
      var n := |more| - 1;
      VisitWithStops(callback, elements, more[..n]);
      assert elements + more == (elements + more[..n]) + [more[n]];
      VisitWithSnoc(callback, elements + more[..n], more[n]);
    }
  }

  /** The `visit` of download-images.ts over the elements of one post. */
  function VisitAll(lib: Lib, sourceFolder: string, entryName: string, elements: seq<Element>): (v: Visit)
    ensures |v.attributes| == |elements|
  {
    VisitWith(e => VisitOf(lib, sourceFolder, entryName, e), elements)
  }

  /** The `visit` fails exactly when some `Figure` has no truthy `src`. */
  lemma {:induction false} VisitAllFails(lib: Lib, sourceFolder: string, entryName: string, elements: seq<Element>)
    ensures VisitAll(lib, sourceFolder, entryName, elements).error.Some?
        <==> exists p :: 0 <= p < |elements| && elements[p].0 == "Figure" && !Truthy(SrcOf(elements[p].1))
  {
    if elements != [] {
      var n := |elements| - 1;
      VisitAllFails(lib, sourceFolder, entryName, elements[..n]);
      if exists p :: 0 <= p < n && elements[p].0 == "Figure" && !Truthy(SrcOf(elements[p].1)) {
        var p :| 0 <= p < n && elements[p].0 == "Figure" && !Truthy(SrcOf(elements[p].1));
        assert elements[..n][p] == elements[p];
      }
    }
  }

  /** When the `visit` completes, every element carries what its own callback made of it. */
  lemma {:induction false} VisitAllAt(lib: Lib, sourceFolder: string, entryName: string, elements: seq<Element>)
    requires VisitAll(lib, sourceFolder, entryName, elements).error.None?
    ensures forall p :: 0 <= p < |elements| ==>
      && VisitOf(lib, sourceFolder, entryName, elements[p]).Success?
      && VisitAll(lib, sourceFolder, entryName, elements).attributes[p] == VisitOf(lib, sourceFolder, entryName, elements[p]).value.attributes
  {
    if elements != [] {
      var n := |elements| - 1;
      VisitAllAt(lib, sourceFolder, entryName, elements[..n]);
      assert forall p :: 0 <= p < n ==> elements[..n][p] == elements[p];
    }
  }

  /** Every pushed pair comes from a web-address `src`, and its file is named after that address. */
  lemma {:induction false} VisitAllPromises(lib: Lib, sourceFolder: string, entryName: string, elements: seq<Element>)
    ensures forall k :: 0 <= k < |VisitAll(lib, sourceFolder, entryName, elements).promises| ==>
      var (url, target) := VisitAll(lib, sourceFolder, entryName, elements).promises[k];
      && lib.isUrl(url)
      && target == lib.join(ImagesFolder(lib, sourceFolder, entryName), FileName(lib, url))
  {
    if elements != [] {
      var n := |elements| - 1;
      VisitAllPromises(lib, sourceFolder, entryName, elements[..n]);
      var before := VisitAll(lib, sourceFolder, entryName, elements[..n]);
      var o := VisitOf(lib, sourceFolder, entryName, elements[n]);
      if before.error.None? && o.Success? {
        assert VisitAll(lib, sourceFolder, entryName, elements).promises == before.promises + o.value.pushed;
      } else {
        assert VisitAll(lib, sourceFolder, entryName, elements).promises == before.promises;
      }
    }
  }

  /** The number of pairs fetched before the first fetch that fails, or the number of pairs. */
  function FirstFailing(fetchOk: string -> bool, promises: seq<(string, string)>): (k: nat)
    ensures k <= |promises|
    ensures forall j :: 0 <= j < k ==> fetchOk(promises[j].0)
    ensures k < |promises| ==> !fetchOk(promises[k].0)
  {
    if promises == [] || !fetchOk(promises[0].0) then 0
    else 1 + FirstFailing(fetchOk, promises[1..])
  }

  /** What one post leaves: its elements' attributes, the downloads made, and the error that ended it. */
  datatype Stage = Stage(attributes: seq<seq<Attribute>>, downloads: seq<(string, string)>, error: Option<DownloadError>)

  /**
   * The `transform` plugin on one post: the `visit`, then the pairs fetched in
   * order; a fetch that fails ends it.
   */
  function PostOutcome(lib: Lib, sourceFolder: string, entryName: string, fetchOk: string -> bool, elements: seq<Element>): Stage {
    var v := VisitAll(lib, sourceFolder, entryName, elements);
    if v.error.Some? then Stage(v.attributes, [], v.error)
    else
      var k := FirstFailing(fetchOk, v.promises);
      Stage(v.attributes, v.promises[..k], if k < |v.promises| then Some(FetchFailed(v.promises[k].0)) else None)
  }

  /** The `visit` callback on one element, assigning `urlAttr.value` in place. */
  method VisitElement(lib: Lib, sourceFolder: string, entryName: string, element: JsxElement)
    returns (r: Result<seq<(string, string)>, DownloadError>)
    modifies element
    ensures var v := VisitOf(lib, sourceFolder, entryName, (element.name, old(element.attributes)));
      && (v.Success? ==> r == Success(v.value.pushed) && element.attributes == v.value.attributes)
      && (v.Failure? ==> r == Failure(v.error) && element.attributes == old(element.attributes))
  {
    if element.name != "Figure" {
      return Success([]);
    }
    var i := FindSrc(element.attributes);
    var url := if i < |element.attributes| then element.attributes[i].value else None;
    if !Truthy(url) {
      return Failure(MissingSrc(entryName));
    }
    if !lib.isUrl(url.value) {
      return Success([]);
    }
    var targetFolder := ImagesFolder(lib, sourceFolder, entryName);
    var fileName := FileName(lib, url.value);
    var targetFilePath := lib.join(targetFolder, fileName);
    element.attributes := element.attributes[i := element.attributes[i].(value := Some(ImagesPrefix + fileName))];
    return Success([(url.value, targetFilePath)]);
  }

  /** The attribute lists of the elements, as they are now. */
  function AttributesOf(elements: seq<JsxElement>): (s: seq<seq<Attribute>>)
    reads elements
    ensures |s| == |elements|
    ensures forall i :: 0 <= i < |elements| ==> s[i] == elements[i].attributes
  {
    if elements == [] then [] else AttributesOf(elements[..|elements| - 1]) + [elements[|elements| - 1].attributes]
  }

  /** A `visit` that throws at element `e` leaves the elements after it as they were. */
  lemma VisitWithFails(callback: Element -> Result<Visited, DownloadError>, before: seq<Element>, e: Element, after: seq<Element>)
    requires VisitWith(callback, before).error.None?
    requires callback(e).Failure?
    ensures var v := VisitWith(callback, before);
      VisitWith(callback, before + [e] + after)
        == Visit(v.attributes + [e.1] + seq(|after|, j requires 0 <= j < |after| => after[j].1), v.promises, Some(callback(e).error))
  {
    VisitWithSnoc(callback, before, e);
    VisitWithStops(callback, before + [e], after);
  }

  /** The element at `i` throws: the `visit` ends with its error, and it and the elements after it keep their attributes. */
  lemma VisitFails(lib: Lib, sourceFolder: string, entryName: string, tree: seq<Element>, i: nat,
                   now: seq<seq<Attribute>>, promises: seq<(string, string)>)
    requires i < |tree| == |now|
    requires VisitAll(lib, sourceFolder, entryName, tree[..i]) == Visit(now[..i], promises, None)
    requires forall j :: i <= j < |tree| ==> now[j] == tree[j].1
    requires VisitOf(lib, sourceFolder, entryName, tree[i]).Failure?
    ensures VisitAll(lib, sourceFolder, entryName, tree) == Visit(now, promises, Some(VisitOf(lib, sourceFolder, entryName, tree[i]).error))
  {
    var before, e, after := tree[..i], tree[i], tree[i + 1..];
    assert tree == before + [e] + after;
    assert now == now[..i] + [e.1] + seq(|after|, j requires 0 <= j < |after| => after[j].1);
    VisitWithFails(e => VisitOf(lib, sourceFolder, entryName, e), before, e, after);
  }

  /** An element whose callback completes: its new attributes are kept and its pairs pushed. */
  lemma VisitStep(lib: Lib, sourceFolder: string, entryName: string, tree: seq<Element>, i: nat,
                  now: seq<seq<Attribute>>, next: seq<seq<Attribute>>, promises: seq<(string, string)>,
                  r: Result<seq<(string, string)>, DownloadError>)
    requires i < |tree| == |now| == |next|
    requires VisitAll(lib, sourceFolder, entryName, tree[..i]) == Visit(now[..i], promises, None)
    requires forall j :: 0 <= j < i ==> next[j] == now[j]
    requires var v := VisitOf(lib, sourceFolder, entryName, tree[i]);
      v.Success? && r == Success(v.value.pushed) && next[i] == v.value.attributes
    ensures VisitAll(lib, sourceFolder, entryName, tree[..i + 1]) == Visit(next[..i + 1], promises + r.value, None)
  {
    assert next[..i + 1] == now[..i] + [next[i]];
    assert tree[..i + 1] == tree[..i] + [tree[i]];
    VisitWithSnoc(e => VisitOf(lib, sourceFolder, entryName, e), tree[..i], tree[i]);
  }

  lemma AttributesAre(elements: seq<JsxElement>, now: seq<seq<Attribute>>)
    requires |now| == |elements|
    requires forall j :: 0 <= j < |elements| ==> elements[j].attributes == now[j]
    ensures AttributesOf(elements) == now
  {
  }

  /**
   * The callback on the `i`-th element, with `now` tracking every element's
   * attributes: the `visit` moves on past it, or ends with its error.
   */
  method VisitAt(lib: Lib, sourceFolder: string, entryName: string, elements: seq<JsxElement>, i: nat,
                 ghost tree: seq<Element>, ghost now: seq<seq<Attribute>>, ghost promises: seq<(string, string)>)
    returns (r: Result<seq<(string, string)>, DownloadError>, ghost next: seq<seq<Attribute>>)
    requires forall i, j :: 0 <= i < j < |elements| ==> elements[i] != elements[j]
    requires i < |elements| == |now| == |tree|
    requires forall j :: 0 <= j < |elements| ==> elements[j].attributes == now[j]
    requires tree[i] == (elements[i].name, now[i])
    requires forall j :: i <= j < |tree| ==> now[j] == tree[j].1
    requires VisitAll(lib, sourceFolder, entryName, tree[..i]) == Visit(now[..i], promises, None)
    modifies elements[i]
    ensures |next| == |now|
    ensures forall j :: 0 <= j < |elements| ==> elements[j].attributes == next[j]
    ensures r.Success? ==> forall j :: i < j < |tree| ==> next[j] == tree[j].1
    ensures r.Success? ==> VisitAll(lib, sourceFolder, entryName, tree[..i + 1]) == Visit(next[..i + 1], promises + r.value, None)
    ensures r.Failure? ==> VisitAll(lib, sourceFolder, entryName, tree) == Visit(next, promises, Some(r.error))
  {
    r := VisitElement(lib, sourceFolder, entryName, elements[i]);
    next := now[i := elements[i].attributes];
    if r.Failure? {
      VisitFails(lib, sourceFolder, entryName, tree, i, next, promises);
    } else {
      VisitStep(lib, sourceFolder, entryName, tree, i, now, next, promises, r);
    }
  }

  /** The `visit` over the elements of one post. */
  method VisitElements(lib: Lib, sourceFolder: string, entryName: string, elements: seq<JsxElement>)
    returns (promises: seq<(string, string)>, error: Option<DownloadError>)
    requires forall i, j :: 0 <= i < j < |elements| ==> elements[i] != elements[j]
    modifies elements
    ensures Visit(AttributesOf(elements), promises, error) == VisitAll(lib, sourceFolder, entryName, old(Snapshot(elements)))
  {
    ghost var tree := Snapshot(elements);
    ghost var now := AttributesOf(elements);
    promises, error := [], None;
    var i := 0;
    while i < |elements|
      invariant i <= |elements| == |now|
      invariant forall j :: 0 <= j < |elements| ==> elements[j].attributes == now[j]
      invariant forall j :: i <= j < |elements| ==> now[j] == tree[j].1
      invariant VisitAll(lib, sourceFolder, entryName, tree[..i]) == Visit(now[..i], promises, None)
    {
      var r;
      r, now := VisitAt(lib, sourceFolder, entryName, elements, i, tree, now, promises);
      if r.Failure? {
        error := Some(r.error);
        AttributesAre(elements, now);
        return;
      }
      promises := promises + r.value;
      i := i + 1;
    }
    assert tree[..i] == tree && now[..i] == now;
    AttributesAre(elements, now);
  }

  /** The fetch loop: each pair in order, until a fetch fails. */
  method FetchAll(fetchOk: string -> bool, promises: seq<(string, string)>)
    returns (downloads: seq<(string, string)>, error: Option<DownloadError>)
    ensures var k := FirstFailing(fetchOk, promises);
      downloads == promises[..k] && error == if k < |promises| then Some(FetchFailed(promises[k].0)) else None
  {
    downloads := [];
    var k := 0;
    while k < |promises|
      invariant k <= |promises|
      invariant downloads == promises[..k]
      invariant forall j :: 0 <= j < k ==> fetchOk(promises[j].0)
    {
      var (url, targetFilePath) := promises[k];
      if !fetchOk(url) {
        FirstFailingAt(fetchOk, promises, k);
        return downloads, Some(FetchFailed(url));
      }
      downloads := downloads + [(url, targetFilePath)];
      k := k + 1;
      assert promises[..k] == promises[..k - 1] + [promises[k - 1]];
    }
    FirstFailingAt(fetchOk, promises, k);
    error := None;
  }

  /** The first fetch that fails is the first pair whose fetch fails. */
  lemma {:induction false} FirstFailingAt(fetchOk: string -> bool, promises: seq<(string, string)>, k: nat)
    requires k <= |promises|
    requires forall j :: 0 <= j < k ==> fetchOk(promises[j].0)
    requires k < |promises| ==> !fetchOk(promises[k].0)
    ensures FirstFailing(fetchOk, promises) == k
  {
    if k > 0 {
      FirstFailingAt(fetchOk, promises[1..], k - 1);
    }
  }

  /** The `transform` plugin on the elements of one post. */
  method Transform(lib: Lib, sourceFolder: string, entryName: string, fetchOk: string -> bool, elements: seq<JsxElement>)
    returns (downloads: seq<(string, string)>, error: Option<DownloadError>)
    requires forall i, j :: 0 <= i < j < |elements| ==> elements[i] != elements[j]
    modifies elements
    ensures Stage(AttributesOf(elements), downloads, error) == PostOutcome(lib, sourceFolder, entryName, fetchOk, old(Snapshot(elements)))
  {
    var promises, failure := VisitElements(lib, sourceFolder, entryName, elements);
    if failure.Some? {
      return [], failure;
    }
    downloads, error := FetchAll(fetchOk, promises);
  }

  /** `unified().parse(...)`, as far as the JSX elements go: a fresh object per element. */
  method Parse(tree: seq<Element>) returns (elements: seq<JsxElement>)
    ensures Snapshot(elements) == tree
    ensures forall j :: 0 <= j < |elements| ==> fresh(elements[j])
    ensures forall i, j :: 0 <= i < j < |elements| ==> elements[i] != elements[j]
  {
    elements := [];
    while |elements| < |tree|
      invariant |elements| <= |tree|
      invariant forall j :: 0 <= j < |elements| ==> fresh(elements[j]) && (elements[j].name, elements[j].attributes) == tree[j]
      invariant forall i, j :: 0 <= i < j < |elements| ==> elements[i] != elements[j]
    {
      var element := new JsxElement(tree[|elements|].0, tree[|elements|].1);
      elements := elements + [element];
    }
  }

  /** What a run leaves: the posts written back (name and attributes), the downloads, the error that ended it. */
  datatype Run = Run(written: seq<(string, seq<seq<Attribute>>)>, downloads: seq<(string, string)>, error: Option<DownloadError>)

  /**
   * One listing entry: `mkdir` of its `images` folder fails unless it is a
   * folder; otherwise its `index.mdx` is transformed.
   */
  function EntryOutcome(lib: Lib, sourceFolder: string, fetchOk: string -> bool, entry: DirEntry<seq<Element>>): Stage {
    if entry.kind != Directory then Stage([], [], Some(NotAFolder(entry.name)))
    else PostOutcome(lib, sourceFolder, entry.name, fetchOk, entry.metadata)
  }

  /**
   * A loop over listing entries that applies `outcome` to each in order; a
   * post is written back once its outcome has no error, and the first error
   * ends the run.
   */
  function RunWith<M>(outcome: DirEntry<M> -> Stage, entries: seq<DirEntry<M>>): Run {
    if entries == [] then Run([], [], None)
    else
      var n := |entries| - 1;
      var before := RunWith(outcome, entries[..n]);
      if before.error.Some? then before
      else
        var s := outcome(entries[n]);
        if s.error.Some? then Run(before.written, before.downloads + s.downloads, s.error)
        else Run(before.written + [(entries[n].name, s.attributes)], before.downloads + s.downloads, None)
  }

  lemma RunWithSnoc<M>(outcome: DirEntry<M> -> Stage, entries: seq<DirEntry<M>>, e: DirEntry<M>)
    ensures var before := RunWith(outcome, entries);
      var s := outcome(e);
      RunWith(outcome, entries + [e])
        == if before.error.Some? then before
           else if s.error.Some? then Run(before.written, before.downloads + s.downloads, s.error)
           else Run(before.written + [(e.name, s.attributes)], before.downloads + s.downloads, None)
  {
    assert (entries + [e])[..|entries|] == entries;
  }

  /** Once the first `k` entries have failed, the entries after them change nothing. */
  lemma {:induction false} RunWithStopsAt<M>(outcome: DirEntry<M> -> Stage, entries: seq<DirEntry<M>>, k: nat)
    requires k <= |entries|
    requires RunWith(outcome, entries[..k]).error.Some?
    ensures RunWith(outcome, entries) == RunWith(outcome, entries[..k])
    decreases |entries|
  {
    if k < |entries| {
      var n := |entries| - 1;
      assert entries[..n][..k] == entries[..k];
      RunWithStopsAt(outcome, entries[..n], k);
    } else {
      assert entries[..k] == entries;
    }
  }

  lemma {:induction false} RunWithPrefix<M>(outcome: DirEntry<M> -> Stage, entries: seq<DirEntry<M>>)
    ensures var r := RunWith(outcome, entries);
      var k := |r.written|;
      && k <= |entries|
      && (forall j :: 0 <= j < k ==> outcome(entries[j]).error.None? && r.written[j] == (entries[j].name, outcome(entries[j]).attributes))
      && (r.error.None? <==> k == |entries|)
      && (r.error.Some? ==> r.error == outcome(entries[k]).error)
  {
    if entries != [] {
      var n := |entries| - 1;
      RunWithPrefix(outcome, entries[..n]);
      assert forall j :: 0 <= j < n ==> entries[..n][j] == entries[j];
    }
  }

  /** An entry whose outcome has no error is written back and the loop moves on. */
  lemma RunWithStep<M>(outcome: DirEntry<M> -> Stage, entries: seq<DirEntry<M>>, i: nat,
                       written: seq<(string, seq<seq<Attribute>>)>, downloads: seq<(string, string)>)
    requires i < |entries|
    requires RunWith(outcome, entries[..i]) == Run(written, downloads, None)
    requires outcome(entries[i]).error.None?
    ensures RunWith(outcome, entries[..i + 1])
         == Run(written + [(entries[i].name, outcome(entries[i]).attributes)], downloads + outcome(entries[i]).downloads, None)
  {
    assert entries[..i + 1] == entries[..i] + [entries[i]];
    RunWithSnoc(outcome, entries[..i], entries[i]);
  }

  /** An entry whose outcome has an error ends the run with that error. */
  lemma RunWithFails<M>(outcome: DirEntry<M> -> Stage, before: seq<DirEntry<M>>, e: DirEntry<M>, after: seq<DirEntry<M>>)
    requires RunWith(outcome, before).error.None?
    requires outcome(e).error.Some?
    ensures var r := RunWith(outcome, before);
      RunWith(outcome, before + [e] + after) == Run(r.written, r.downloads + outcome(e).downloads, outcome(e).error)
  {
    var entries := before + [e] + after;
    assert entries[..|before| + 1] == before + [e];
    RunWithSnoc(outcome, before, e);
    RunWithStopsAt(outcome, entries, |before| + 1);
  }

  /**
   * `download()`: the listing entries in order; a post is written back once its
   * transform has completed, and the first error ends the run.
   */
  function RunOf(lib: Lib, sourceFolder: string, fetchOk: string -> bool, entries: seq<DirEntry<seq<Element>>>): Run {
    RunWith(e => EntryOutcome(lib, sourceFolder, fetchOk, e), entries)
  }

  /** Once an entry has failed, later entries change nothing. */
  lemma RunStops(lib: Lib, sourceFolder: string, fetchOk: string -> bool, entries: seq<DirEntry<seq<Element>>>, more: seq<DirEntry<seq<Element>>>)
    requires RunOf(lib, sourceFolder, fetchOk, entries).error.Some?
    ensures RunOf(lib, sourceFolder, fetchOk, entries + more) == RunOf(lib, sourceFolder, fetchOk, entries)
  {
    assert (entries + more)[..|entries|] == entries;
    RunWithStopsAt(e => EntryOutcome(lib, sourceFolder, fetchOk, e), entries + more, |entries|);
  }

  /**
   * The posts written back are the leading entries, in order, up to the first
   * that fails; the run fails exactly when some entry fails, with the error of
   * the first one.
   */
  lemma RunWritesPrefix(lib: Lib, sourceFolder: string, fetchOk: string -> bool, entries: seq<DirEntry<seq<Element>>>)
    ensures var r := RunOf(lib, sourceFolder, fetchOk, entries);
      var k := |r.written|;
      && k <= |entries|
      && (forall j :: 0 <= j < k ==>
            && EntryOutcome(lib, sourceFolder, fetchOk, entries[j]).error.None?
            && r.written[j] == (entries[j].name, EntryOutcome(lib, sourceFolder, fetchOk, entries[j]).attributes))
      && (r.error.None? <==> k == |entries|)
      && (r.error.Some? ==> r.error == EntryOutcome(lib, sourceFolder, fetchOk, entries[k]).error)
  {
    RunWithPrefix(e => EntryOutcome(lib, sourceFolder, fetchOk, e), entries);
  }

  /** One entry of the run: a failure ends it, otherwise the post is written and the loop moves on. */
  lemma RunStep(lib: Lib, sourceFolder: string, fetchOk: string -> bool, entries: seq<DirEntry<seq<Element>>>, i: nat,
                written: seq<(string, seq<seq<Attribute>>)>, downloads: seq<(string, string)>, stage: Stage)
    requires i < |entries|
    requires RunOf(lib, sourceFolder, fetchOk, entries[..i]) == Run(written, downloads, None)
    requires stage == EntryOutcome(lib, sourceFolder, fetchOk, entries[i])
    ensures stage.error.Some? ==> RunOf(lib, sourceFolder, fetchOk, entries) == Run(written, downloads + stage.downloads, stage.error)
    ensures stage.error.None? ==>
      RunOf(lib, sourceFolder, fetchOk, entries[..i + 1]) == Run(written + [(entries[i].name, stage.attributes)], downloads + stage.downloads, None)
  {
    var outcome := e => EntryOutcome(lib, sourceFolder, fetchOk, e);
    if stage.error.Some? {
      assert entries == entries[..i] + [entries[i]] + entries[i + 1..];
      RunWithFails(outcome, entries[..i], entries[i], entries[i + 1..]);
    } else {
      RunWithStep(outcome, entries, i, written, downloads);
    }
  }

  /** The loop body on one folder: parse `index.mdx`, transform it, and return what is written back. */
  method DownloadPost(lib: Lib, sourceFolder: string, fetchOk: string -> bool, entryName: string, tree: seq<Element>)
    returns (stage: Stage)
    ensures stage == PostOutcome(lib, sourceFolder, entryName, fetchOk, tree)
  {
    var elements := Parse(tree);
    var downloads, error := Transform(lib, sourceFolder, entryName, fetchOk, elements);
    stage := Stage(AttributesOf(elements), downloads, error);
  }

  /** `download()`: every listing entry in turn, until one of them fails. */
  method DownloadAll(lib: Lib, sourceFolder: string, fetchOk: string -> bool, entries: seq<DirEntry<seq<Element>>>)
    returns (written: seq<(string, seq<seq<Attribute>>)>, downloads: seq<(string, string)>, error: Option<DownloadError>)
    ensures Run(written, downloads, error) == RunOf(lib, sourceFolder, fetchOk, entries)
  {
    written, downloads, error := [], [], None;
    var i := 0;
    while i < |entries|
      invariant i <= |entries|
      invariant RunOf(lib, sourceFolder, fetchOk, entries[..i]) == Run(written, downloads, None)
    {
      var entry := entries[i];
      var stage: Stage;
      if entry.kind != Directory {
        stage := Stage([], [], Some(NotAFolder(entry.name)));
      } else {
        stage := DownloadPost(lib, sourceFolder, fetchOk, entry.name, entry.metadata);
      }
      RunStep(lib, sourceFolder, fetchOk, entries, i, written, downloads, stage);
      downloads := downloads + stage.downloads;
      if stage.error.Some? {
        error := stage.error;
        return;
      }
      written := written + [(entry.name, stage.attributes)];
      i := i + 1;
    }
    assert entries[..i] == entries;
  }
}
