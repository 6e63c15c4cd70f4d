/**
 * scripts/download-content-images.ts: in each legacy post, every markdown
 * `image` node whose url is a web address is pointed at a local copy under
 * `images/`, and the images are then fetched one at a time; a file name
 * without extension gets one from the subtype of the response's `image/` content type.
 */
module DownloadContentImages {
  import opened Wrappers
  import opened JsText
  import opened Library
  import opened NodePath

  /** An mdast `image` node; the transform rewrites its `url` in place. */
  class ImageNode {
    var url: string

    constructor (url: string)
      ensures this.url == url
    {
      this.url := url;
    }
  }

  /** The urls of the image nodes, in traversal order. */
  function UrlsOf(nodes: seq<ImageNode>): (urls: seq<string>)
    reads set n | n in nodes
    ensures |urls| == |nodes|
    ensures forall i :: 0 <= i < |nodes| ==> urls[i] == nodes[i].url
  {
    if nodes == [] then [] else UrlsOf(nodes[..|nodes| - 1]) + [nodes[|nodes| - 1].url]
  }

  /** `join(sourceFolder, entry.name, "images")`, the posts folder being `<cwd>/content-source/posts`. */
  function ImagesFolder(lib: Lib, sourceFolder: string, entryName: string): string {
    lib.join(lib.join(sourceFolder, entryName), "images")
  }

  /** `slugify(basename(new URL(url).pathname), { preserveCharacters: ["."] })`. */
  function FileName(lib: Lib, url: string): string {
    lib.slugifyKeepingDots(lib.urlBasename(url))
  }

  /** `join(targetFolder, fileName)`. */
  function TargetFilePath(lib: Lib, sourceFolder: string, entryName: string, fileName: string): string {
    lib.join(ImagesFolder(lib, sourceFolder, entryName), fileName)
  }

  /** What the first phase leaves in a node's `url`. */
  function Rewritten(lib: Lib, url: string): string {
    if lib.isUrl(url) then ImagesPrefix + FileName(lib, url) else url
  }

  function RewriteAll(lib: Lib, urls: seq<string>): (r: seq<string>)
    ensures |r| == |urls|
    ensures forall i :: 0 <= i < |urls| ==> r[i] == Rewritten(lib, urls[i])
  {
    if urls == [] then [] else RewriteAll(lib, urls[..|urls| - 1]) + [Rewritten(lib, urls[|urls| - 1])]
  }

  /** One scheduled download: which node (by traversal position), from where, to where. */
  datatype Planned = Planned(position: nat, url: string, targetFilePath: string)

  function Schedule(lib: Lib, sourceFolder: string, entryName: string, position: nat, url: string): Planned {
    Planned(position, url, TargetFilePath(lib, sourceFolder, entryName, FileName(lib, url)))
  }

  /** The `images` array the first phase collects: the web-address nodes, in traversal order. */
  function Plan(lib: Lib, sourceFolder: string, entryName: string, urls: seq<string>): (planned: seq<Planned>)
    ensures |planned| <= |urls|
    ensures forall k :: 0 <= k < |planned| ==>
      && planned[k].position < |urls|
      && lib.isUrl(urls[planned[k].position])
      && planned[k].url == urls[planned[k].position]
      && planned[k] == Schedule(lib, sourceFolder, entryName, planned[k].position, planned[k].url)
  {
    if urls == [] then []
    else
      var n := |urls| - 1;
      Plan(lib, sourceFolder, entryName, urls[..n])
        + if lib.isUrl(urls[n]) then [Schedule(lib, sourceFolder, entryName, n, urls[n])] else []
  }

  ghost predicate InTraversalOrder(planned: seq<Planned>) {
    forall k, l :: 0 <= k < l < |planned| ==> planned[k].position < planned[l].position
  }

  /** The schedule lists the nodes in traversal order, each at most once. */
  lemma {:induction false} PlanOrdered(lib: Lib, sourceFolder: string, entryName: string, urls: seq<string>)
    ensures InTraversalOrder(Plan(lib, sourceFolder, entryName, urls))
  {
    if urls != [] {
      var n := |urls| - 1;
      var before := Plan(lib, sourceFolder, entryName, urls[..n]);
      PlanOrdered(lib, sourceFolder, entryName, urls[..n]);
      var planned := Plan(lib, sourceFolder, entryName, urls);
      if lib.isUrl(urls[n]) {
        assert planned == before + [Schedule(lib, sourceFolder, entryName, n, urls[n])];
        forall k, l | 0 <= k < l < |planned|
          ensures planned[k].position < planned[l].position
        {
          assert planned[k] == before[k];
          if l < |before| {
            assert planned[l] == before[l];
          } else {
            assert before[k].position < |urls[..n]| == n == planned[l].position;
          }
        }
      } else {
        assert planned == before;
      }
    }
  }

  /** A web-address node at position `p` is scheduled, as the `|Plan(urls[..p])|`-th download. */
  lemma {:induction false} PlanCovers(lib: Lib, sourceFolder: string, entryName: string, urls: seq<string>, p: nat)
    requires p < |urls| && lib.isUrl(urls[p])
    ensures |Plan(lib, sourceFolder, entryName, urls[..p])| < |Plan(lib, sourceFolder, entryName, urls)|
    ensures Plan(lib, sourceFolder, entryName, urls)[|Plan(lib, sourceFolder, entryName, urls[..p])|].position == p
    decreases |urls|
  {
    var n := |urls| - 1;
    if p == n {
      assert urls[..n] == urls[..p];
    } else {
      PlanCovers(lib, sourceFolder, entryName, urls[..n], p);
      assert urls[..n][..p] == urls[..p];
    }
  }

  /** A fetched download: the url and the file it is written to. */
  datatype Download = Download(url: string, targetFilePath: string)

  /** Why a fetch aborts the run: no content-type header (`mime.startsWith` throws), or not `image/`. */
  datatype DownloadError = MissingContentType(url: string) | InvalidMimeType(url: string, mime: string)

  predicate Accepts(mime: Option<string>) {
    mime.Some? && StartsWith(mime.value, "image/")
  }

  function Rejection(url: string, mime: Option<string>): DownloadError {
    if mime.None? then MissingContentType(url) else InvalidMimeType(url, mime.value)
  }

  /** `mime.slice(6)`: the subtype after "image/". */
  function Subtype(mime: string): string {
    if |mime| >= 6 then mime[6..] else ""
  }

  /** What the mime step appends to both the target path and the node url. */
  function Suffix(targetFilePath: string, mime: string): string {
    if Extname(targetFilePath) == "" then "." + Subtype(mime) else ""
  }

  /** The state of the node urls and the downloads done when the second phase stops. */
  datatype Stage = Stage(urls: seq<string>, downloads: seq<Download>, error: Option<DownloadError>)

  ghost predicate PositionsBelow(planned: seq<Planned>, n: nat) {
    forall k :: 0 <= k < |planned| ==> planned[k].position < n
  }

  ghost predicate PositionsDistinct(planned: seq<Planned>) {
    forall k, l :: 0 <= k < l < |planned| ==> planned[k].position != planned[l].position
  }

  /** The second phase: fetch each scheduled image in order, stopping at the first rejected response. */
  function Fetch(fetch: string -> Option<string>, urls: seq<string>, planned: seq<Planned>): (r: Stage)
    requires PositionsBelow(planned, |urls|)
    ensures |r.urls| == |urls|
    decreases |planned|
  {
    if planned == [] then Stage(urls, [], None)
    else
      var p := planned[0];
      var mime := fetch(p.url);
      if !Accepts(mime) then Stage(urls, [], Some(Rejection(p.url, mime)))
      else
        var suffix := Suffix(p.targetFilePath, mime.value);
        var rest := Fetch(fetch, urls[p.position := urls[p.position] + suffix], planned[1..]);
        Stage(rest.urls, [Download(p.url, p.targetFilePath + suffix)] + rest.downloads, rest.error)
  }

  /** The index of the first scheduled image whose response is rejected, or the number scheduled. */
  function FirstRejected(fetch: string -> Option<string>, planned: seq<Planned>): (r: nat)
    ensures r <= |planned|
    ensures forall k :: 0 <= k < r ==> Accepts(fetch(planned[k].url))
    ensures r < |planned| ==> !Accepts(fetch(planned[r].url))
  {
    if planned == [] || !Accepts(fetch(planned[0].url)) then 0 else 1 + FirstRejected(fetch, planned[1..])
  }

  /** The whole transform on the node urls as they were before it. */
  function Outcome(lib: Lib, sourceFolder: string, entryName: string, fetch: string -> Option<string>, urls: seq<string>): Stage {
    Fetch(fetch, RewriteAll(lib, urls), Plan(lib, sourceFolder, entryName, urls))
  }

  /** The downloads are the accepted prefix of the schedule, and the error is that of the first rejected image. */
  lemma {:induction false} FetchDownloads(fetch: string -> Option<string>, urls: seq<string>, planned: seq<Planned>)
    requires PositionsBelow(planned, |urls|)
    ensures var r := Fetch(fetch, urls, planned);
      var stop := FirstRejected(fetch, planned);
      && |r.downloads| == stop
      && (forall k :: 0 <= k < stop ==>
            r.downloads[k] == Download(planned[k].url, planned[k].targetFilePath + Suffix(planned[k].targetFilePath, fetch(planned[k].url).value)))
      && r.error == if stop < |planned| then Some(Rejection(planned[stop].url, fetch(planned[stop].url))) else None
    decreases |planned|
  {
    if planned != [] && Accepts(fetch(planned[0].url)) {
      var p := planned[0];
      var suffix := Suffix(p.targetFilePath, fetch(p.url).value);
      var next := urls[p.position := urls[p.position] + suffix];
      FetchDownloads(fetch, next, planned[1..]);
    }
  }

  /** A node that is not scheduled keeps the url it had. */
  lemma {:induction false} FetchKeepsUnplanned(fetch: string -> Option<string>, urls: seq<string>, planned: seq<Planned>, i: nat)
    requires PositionsBelow(planned, |urls|) && i < |urls|
    requires forall k :: 0 <= k < |planned| ==> planned[k].position != i
    ensures Fetch(fetch, urls, planned).urls[i] == urls[i]
    decreases |planned|
  {
    if planned != [] && Accepts(fetch(planned[0].url)) {
      var p := planned[0];
      var next := urls[p.position := urls[p.position] + Suffix(p.targetFilePath, fetch(p.url).value)];
      FetchKeepsUnplanned(fetch, next, planned[1..], i);
    }
  }

  /** The first scheduled node gets its suffix exactly when its fetch is accepted. */
  lemma FetchSuffixesFirst(fetch: string -> Option<string>, urls: seq<string>, planned: seq<Planned>)
    requires PositionsBelow(planned, |urls|) && PositionsDistinct(planned) && planned != []
    ensures var p := planned[0];
      Fetch(fetch, urls, planned).urls[p.position]
        == urls[p.position] + if Accepts(fetch(p.url)) then Suffix(p.targetFilePath, fetch(p.url).value) else ""
  {
    var p := planned[0];
    var mime := fetch(p.url);
    if Accepts(mime) {
      var next := urls[p.position := urls[p.position] + Suffix(p.targetFilePath, mime.value)];
      var tail := planned[1..];
      assert forall l :: 0 <= l < |tail| ==> tail[l] == planned[l + 1];
      FetchKeepsUnplanned(fetch, next, tail, p.position);
    }
  }

  /** The `k`-th scheduled node gets its suffix exactly when its fetch was reached and accepted. */
  lemma {:induction false} FetchSuffixesPlanned(fetch: string -> Option<string>, urls: seq<string>, planned: seq<Planned>, k: nat)
    requires PositionsBelow(planned, |urls|) && PositionsDistinct(planned) && k < |planned|
    ensures var pos := planned[k].position;
      Fetch(fetch, urls, planned).urls[pos]
        == urls[pos] + if k < FirstRejected(fetch, planned) then Suffix(planned[k].targetFilePath, fetch(planned[k].url).value) else ""
    decreases |planned|
  {
    var p := planned[0];
    var mime := fetch(p.url);
    var pos := planned[k].position;
    if k == 0 {
      FetchSuffixesFirst(fetch, urls, planned);
    } else if Accepts(mime) {
      var next := urls[p.position := urls[p.position] + Suffix(p.targetFilePath, mime.value)];
      var tail := planned[1..];
      assert PositionsBelow(tail, |next|);
      assert PositionsDistinct(tail) by {
        assert forall l :: 0 <= l < |tail| ==> tail[l] == planned[l + 1];
      }
      assert tail[k - 1] == planned[k];
      assert next[pos] == urls[pos];
      FetchSuffixesPlanned(fetch, next, tail, k - 1);
      assert FirstRejected(fetch, planned) == 1 + FirstRejected(fetch, tail);
    } else {
      assert Fetch(fetch, urls, planned).urls[pos] == urls[pos] + "";
    }
  }

  /** The prefix every rewritten node url starts with. */
  const ImagesPrefix := "images/"

  /** An image that is not a web address is neither scheduled nor rewritten. */
  lemma LocalImageKeepsUrl(lib: Lib, sourceFolder: string, entryName: string, fetch: string -> Option<string>, urls: seq<string>, i: nat)
    requires i < |urls| && !lib.isUrl(urls[i])
    ensures Outcome(lib, sourceFolder, entryName, fetch, urls).urls[i] == urls[i]
  {
    FetchKeepsUnplanned(fetch, RewriteAll(lib, urls), Plan(lib, sourceFolder, entryName, urls), i);
  }

  /**
   * A web-address image is the `|Plan(urls[..i])|`-th scheduled download. Its new url is
   * `images/<file name><suffix>` and the download, when one was made, writes
   * `join(<images folder>, <file name>)<suffix>`: the mime step extends both by the same suffix,
   * and by none when no download was made.
   */
  lemma RemoteImagePointsAtDownload(lib: Lib, sourceFolder: string, entryName: string, fetch: string -> Option<string>, urls: seq<string>, i: nat)
    requires i < |urls| && lib.isUrl(urls[i])
    ensures var r := Outcome(lib, sourceFolder, entryName, fetch, urls);
      var k := |Plan(lib, sourceFolder, entryName, urls[..i])|;
      var fileName := FileName(lib, urls[i]);
      var target := TargetFilePath(lib, sourceFolder, entryName, fileName);
      var suffix := if k < |r.downloads| then Suffix(target, fetch(urls[i]).GetOr("")) else "";
      && r.urls[i] == ImagesPrefix + fileName + suffix
      && (k < |r.downloads| ==> r.downloads[k] == Download(urls[i], target + suffix))
  {
    var planned := Plan(lib, sourceFolder, entryName, urls);
    var k := |Plan(lib, sourceFolder, entryName, urls[..i])|;
    var now := RewriteAll(lib, urls);
    PlanCovers(lib, sourceFolder, entryName, urls, i);
    PlanOrdered(lib, sourceFolder, entryName, urls);
    FetchSuffixesPlanned(fetch, now, planned, k);
    FetchDownloads(fetch, now, planned);
  }

  /** One turn of the fetch loop, seen on the remaining schedule. */
  lemma FetchAt(fetch: string -> Option<string>, urls: seq<string>, planned: seq<Planned>, k: nat)
    requires PositionsBelow(planned, |urls|) && k < |planned|
    ensures var p := planned[k];
      var mime := fetch(p.url);
      Fetch(fetch, urls, planned[k..])
        == if !Accepts(mime) then Stage(urls, [], Some(Rejection(p.url, mime)))
           else
             var suffix := Suffix(p.targetFilePath, mime.value);
             var rest := Fetch(fetch, urls[p.position := urls[p.position] + suffix], planned[k + 1..]);
             Stage(rest.urls, [Download(p.url, p.targetFilePath + suffix)] + rest.downloads, rest.error)
  {
    assert planned[k..][0] == planned[k];
    assert planned[k..][1..] == planned[k + 1..];
  }

  /** The pending triple `[url, targetFilePath, node]` of the first phase. */
  datatype Pending = Pending(url: string, targetFilePath: string, node: ImageNode)

  /** The pending downloads match the schedule, each holding the node it came from. */
  ghost predicate Tracks(images: seq<Pending>, planned: seq<Planned>, nodes: seq<ImageNode>)
  {
    && |images| == |planned|
    && PositionsBelow(planned, |nodes|)
    && forall k :: 0 <= k < |images| ==>
         && images[k] == Pending(planned[k].url, planned[k].targetFilePath, nodes[planned[k].position])
  }

  /** One node of the `visit`: a web address adds its pending download, anything else adds nothing. */
  lemma TracksStep(lib: Lib, sourceFolder: string, entryName: string, urls: seq<string>, i: nat,
                   images: seq<Pending>, nodes: seq<ImageNode>)
    requires i < |urls| == |nodes|
    requires Tracks(images, Plan(lib, sourceFolder, entryName, urls[..i]), nodes)
    ensures var next := if lib.isUrl(urls[i]) then
                 var target := TargetFilePath(lib, sourceFolder, entryName, FileName(lib, urls[i]));
                 images + [Pending(urls[i], target, nodes[i])]
               else images;
      Tracks(next, Plan(lib, sourceFolder, entryName, urls[..i + 1]), nodes)
  {
    assert urls[..i + 1][..i] == urls[..i];
  }

  /** The `visit` callback on one image node: a web address is rewritten and returned as pending. */
  method VisitNode(lib: Lib, sourceFolder: string, entryName: string, node: ImageNode) returns (pending: Option<Pending>)
    modifies node
    ensures node.url == Rewritten(lib, old(node.url))
    ensures pending == if lib.isUrl(old(node.url))
      then Some(Pending(old(node.url), TargetFilePath(lib, sourceFolder, entryName, FileName(lib, old(node.url))), node))
      else None
  {
    var url := node.url;
    pending := None;
    if lib.isUrl(url) {
      var fileName := FileName(lib, url);
      var targetFilePath := TargetFilePath(lib, sourceFolder, entryName, fileName);
      pending := Some(Pending(url, targetFilePath, node));
      node.url := ImagesPrefix + fileName;
    }
  }

  /** The `visit` over all image nodes: rewrite web addresses, collect them. */
  method RewriteAddresses(lib: Lib, sourceFolder: string, entryName: string, nodes: seq<ImageNode>)
    returns (images: seq<Pending>)
    requires forall i, j :: 0 <= i < j < |nodes| ==> nodes[i] != nodes[j]
    modifies set n | n in nodes
    ensures forall j :: 0 <= j < |nodes| ==> nodes[j].url == Rewritten(lib, old(nodes[j].url))
    ensures Tracks(images, Plan(lib, sourceFolder, entryName, old(UrlsOf(nodes))), nodes)
  {
    ghost var urls0 := UrlsOf(nodes);
    images := [];
    var i := 0;
    while i < |nodes|
      invariant 0 <= i <= |nodes|
      invariant forall j :: 0 <= j < i ==> nodes[j].url == Rewritten(lib, urls0[j])
      invariant forall j :: i <= j < |nodes| ==> nodes[j].url == urls0[j]
      invariant Tracks(images, Plan(lib, sourceFolder, entryName, urls0[..i]), nodes)
    {
      images := VisitAt(lib, sourceFolder, entryName, nodes, i, urls0, images);
      i := i + 1;
    }
    assert urls0[..|nodes|] == urls0;
  }

  /** One turn of the `visit`: node `i` is rewritten and the pending downloads keep tracking the schedule. */
  method VisitAt(lib: Lib, sourceFolder: string, entryName: string, nodes: seq<ImageNode>, i: nat,
                 ghost urls0: seq<string>, images: seq<Pending>) returns (next: seq<Pending>)
    requires i < |nodes| == |urls0| && nodes[i].url == urls0[i]
    requires Tracks(images, Plan(lib, sourceFolder, entryName, urls0[..i]), nodes)
    modifies nodes[i]
    ensures nodes[i].url == Rewritten(lib, urls0[i])
    ensures Tracks(next, Plan(lib, sourceFolder, entryName, urls0[..i + 1]), nodes)
  {
    TracksStep(lib, sourceFolder, entryName, urls0, i, images, nodes);
    var pending := VisitNode(lib, sourceFolder, entryName, nodes[i]);
    next := if pending.Some? then images + [pending.value] else images;
  }

  /** Loop invariant of the fetch loop: what is left of the schedule completes the final stage. */
  ghost predicate Remaining(fetch: string -> Option<string>, now: seq<string>, planned: seq<Planned>, k: nat,
                            downloads: seq<Download>, final: Stage)
  {
    && k <= |planned|
    && PositionsBelow(planned, |now|)
    && var r := Fetch(fetch, now, planned[k..]);
       r.urls == final.urls && downloads + r.downloads == final.downloads && r.error == final.error
  }

  /** An accepted fetch moves the loop one image on. */
  lemma RemainingAccepted(fetch: string -> Option<string>, now: seq<string>, planned: seq<Planned>, k: nat,
                          downloads: seq<Download>, final: Stage)
    requires Remaining(fetch, now, planned, k, downloads, final) && k < |planned|
    requires Accepts(fetch(planned[k].url))
    ensures var p := planned[k];
      var suffix := Suffix(p.targetFilePath, fetch(p.url).value);
      Remaining(fetch, now[p.position := now[p.position] + suffix], planned, k + 1,
                downloads + [Download(p.url, p.targetFilePath + suffix)], final)
  {
    FetchAt(fetch, now, planned, k);
    var p := planned[k];
    var suffix := Suffix(p.targetFilePath, fetch(p.url).value);
    var rest := Fetch(fetch, now[p.position := now[p.position] + suffix], planned[k + 1..]);
    assert downloads + [Download(p.url, p.targetFilePath + suffix)] + rest.downloads
        == downloads + ([Download(p.url, p.targetFilePath + suffix)] + rest.downloads);
  }

  /** A rejected fetch ends the loop with the error of that image. */
  lemma RemainingRejected(fetch: string -> Option<string>, now: seq<string>, planned: seq<Planned>, k: nat,
                          downloads: seq<Download>, final: Stage)
    requires Remaining(fetch, now, planned, k, downloads, final) && k < |planned|
    requires !Accepts(fetch(planned[k].url))
    ensures final == Stage(now, downloads, Some(Rejection(planned[k].url, fetch(planned[k].url))))
  {
    FetchAt(fetch, now, planned, k);
  }

  /** A target path without extension gets the mime subtype, and so does the node's url. */
  method AddMissingExtension(targetFilePath: string, mime: string, node: ImageNode) returns (target: string)
    modifies node
    ensures target == targetFilePath + Suffix(targetFilePath, mime)
    ensures node.url == old(node.url) + Suffix(targetFilePath, mime)
  {
    var ext := "";
    if Extname(targetFilePath) == "" {
      ext := "." + Subtype(mime);
    }
    target := targetFilePath + ext;
    node.url := node.url + ext;
  }

  /** The fetch loop over the collected images; it stops at the first rejected response. */
  method FetchImages(fetch: string -> Option<string>, images: seq<Pending>, ghost planned: seq<Planned>, nodes: seq<ImageNode>)
    returns (downloads: seq<Download>, error: Option<DownloadError>)
    requires forall i, j :: 0 <= i < j < |nodes| ==> nodes[i] != nodes[j]
    requires Tracks(images, planned, nodes)
    modifies set n | n in nodes
    ensures var r := Fetch(fetch, old(UrlsOf(nodes)), planned);
      UrlsOf(nodes) == r.urls && downloads == r.downloads && error == r.error
  {
    ghost var now := UrlsOf(nodes);
    ghost var final := Fetch(fetch, now, planned);
    downloads := [];
    var k := 0;
    while k < |images|
      invariant 0 <= k <= |images|
      invariant |now| == |nodes|
      invariant forall j :: 0 <= j < |nodes| ==> nodes[j].url == now[j]
      invariant Remaining(fetch, now, planned, k, downloads, final)
    {
      var url := images[k].url;
      var targetFilePath := images[k].targetFilePath;
      var node := images[k].node;
      var mime := fetch(url);
      if mime.None? {
        error := Some(MissingContentType(url));
        RemainingRejected(fetch, now, planned, k, downloads, final);
        assert UrlsOf(nodes) == now;
        return;
      }
      if !StartsWith(mime.value, "image/") {
        error := Some(InvalidMimeType(url, mime.value));
        RemainingRejected(fetch, now, planned, k, downloads, final);
        assert UrlsOf(nodes) == now;
        return;
      }
      RemainingAccepted(fetch, now, planned, k, downloads, final);
      ghost var pos := planned[k].position;
      ghost var suffix := Suffix(targetFilePath, mime.value);
      targetFilePath := AddMissingExtension(targetFilePath, mime.value, node);
      now := now[pos := now[pos] + suffix];
      downloads := downloads + [Download(url, targetFilePath)];
      k := k + 1;
    }
    error := None;
    assert planned[k..] == [];
    assert UrlsOf(nodes) == now;
  }

  /**
   * The `transform` plugin on one post: the `visit` that rewrites web addresses and
   * collects them, then the fetch loop.
   */
  method Transform(lib: Lib, sourceFolder: string, entryName: string, fetch: string -> Option<string>, nodes: seq<ImageNode>)
    returns (downloads: seq<Download>, error: Option<DownloadError>)
    requires forall i, j :: 0 <= i < j < |nodes| ==> nodes[i] != nodes[j]
    modifies set n | n in nodes
    ensures var r := Outcome(lib, sourceFolder, entryName, fetch, old(UrlsOf(nodes)));
      UrlsOf(nodes) == r.urls && downloads == r.downloads && error == r.error
  {
    ghost var urls0 := UrlsOf(nodes);
    var images := RewriteAddresses(lib, sourceFolder, entryName, nodes);
    assert UrlsOf(nodes) == RewriteAll(lib, urls0);
    downloads, error := FetchImages(fetch, images, Plan(lib, sourceFolder, entryName, urls0), nodes);
  }

  /** What a run leaves behind: the rewritten url lists written back, the downloads, the error that ended it. */
  datatype Run = Run(written: seq<seq<string>>, downloads: seq<Download>, error: Option<DownloadError>)

  /** The downloads of the transforms of `stages`, in order. */
  function AllDownloads(stages: seq<Stage>): seq<Download> {
    if stages == [] then [] else stages[0].downloads + AllDownloads(stages[1..])
  }

  /**
   * The `download` loop over the post folders, given each post's transform outcome: each
   * post is written back; a failed transform ends the run before its post is written.
   */
  function RunOf(stages: seq<Stage>): (r: Run)
    ensures |r.written| <= |stages|
  {
    if stages == [] then Run([], [], None)
    else if stages[0].error.Some? then Run([], stages[0].downloads, stages[0].error)
    else
      var rest := RunOf(stages[1..]);
      Run([stages[0].urls] + rest.written, stages[0].downloads + rest.downloads, rest.error)
  }

  /** The transform outcome of every post folder, given its name and the urls of its image nodes. */
  function Outcomes(lib: Lib, sourceFolder: string, fetch: string -> Option<string>, posts: seq<(string, seq<string>)>): seq<Stage>
  {
    seq(|posts|, a requires 0 <= a < |posts| => Outcome(lib, sourceFolder, posts[a].0, fetch, posts[a].1))
  }

  /**
   * The posts written back are a prefix of the folders, each with its transformed urls;
   * the run fails exactly when the next folder's transform failed, with that error, and
   * the downloads are those of the transforms that ran.
   */
  lemma {:induction false} RunWritesPrefix(stages: seq<Stage>)
    ensures var r := RunOf(stages);
      && (forall a :: 0 <= a < |r.written| ==> stages[a].error.None? && r.written[a] == stages[a].urls)
      && (r.error.None? <==> |r.written| == |stages|)
      && (r.error.Some? ==> r.error == stages[|r.written|].error)
      && r.downloads == AllDownloads(stages[..|r.written| + if r.error.Some? then 1 else 0])
  {
    if stages != [] && stages[0].error.None? {
      RunWritesPrefix(stages[1..]);
      var r := RunOf(stages);
      var rest := RunOf(stages[1..]);
      assert forall a :: 1 <= a < |r.written| ==> r.written[a] == rest.written[a - 1];
      var ran := |rest.written| + if rest.error.Some? then 1 else 0;
      assert stages[..ran + 1][1..] == stages[1..][..ran];
    } else if stages != [] {
      assert stages[..1][1..] == [];
    }
  }

  /** Loop invariant of the post loop: what is left of the folders completes the run. */
  ghost predicate RunRemaining(stages: seq<Stage>, a: nat, written: seq<seq<string>>, downloads: seq<Download>, final: Run)
  {
    && a <= |stages|
    && var rest := RunOf(stages[a..]);
       Run(written + rest.written, downloads + rest.downloads, rest.error) == final
  }

  /** One post of the loop: a failure ends the run, otherwise the post is written and the loop moves on. */
  lemma RunStep(stages: seq<Stage>, a: nat, written: seq<seq<string>>, downloads: seq<Download>, final: Run)
    requires RunRemaining(stages, a, written, downloads, final) && a < |stages|
    ensures stages[a].error.Some? ==> final == Run(written, downloads + stages[a].downloads, stages[a].error)
    ensures stages[a].error.None? ==>
      RunRemaining(stages, a + 1, written + [stages[a].urls], downloads + stages[a].downloads, final)
  {
    assert stages[a..][0] == stages[a] && stages[a..][1..] == stages[a + 1..];
    var o := stages[a];
    var rest := RunOf(stages[a + 1..]);
    assert written + [o.urls] + rest.written == written + ([o.urls] + rest.written);
    assert downloads + o.downloads + rest.downloads == downloads + (o.downloads + rest.downloads);
  }

  /** `unified().use(fromMarkdown).parse(...)`, as far as the image nodes go: a fresh node per image. */
  method Parse(urls: seq<string>) returns (nodes: seq<ImageNode>)
    ensures |nodes| == |urls|
    ensures forall j :: 0 <= j < |nodes| ==> fresh(nodes[j]) && nodes[j].url == urls[j]
    ensures forall i, j :: 0 <= i < j < |nodes| ==> nodes[i] != nodes[j]
  {
    nodes := [];
    while |nodes| < |urls|
      invariant |nodes| <= |urls|
      invariant forall j :: 0 <= j < |nodes| ==> fresh(nodes[j]) && nodes[j].url == urls[j]
      invariant forall i, j :: 0 <= i < j < |nodes| ==> nodes[i] != nodes[j]
    {
      var node := new ImageNode(urls[|nodes|]);
      nodes := nodes + [node];
    }
  }

  /**
   * The body of the post loop on one folder: parse `index.mdx`, transform it, and
   * serialize it back, returning the urls written and the downloads the transform made.
   */
  method DownloadPost(lib: Lib, sourceFolder: string, fetch: string -> Option<string>, entryName: string, urls: seq<string>)
    returns (rewritten: seq<string>, got: seq<Download>, failure: Option<DownloadError>)
    ensures Stage(rewritten, got, failure) == Outcome(lib, sourceFolder, entryName, fetch, urls)
  {
    var nodes := Parse(urls);
    assert UrlsOf(nodes) == urls;
    got, failure := Transform(lib, sourceFolder, entryName, fetch, nodes);
    rewritten := UrlsOf(nodes);
  }

  /**
   * `download()`: every post folder in turn, each given by its name and the urls of the
   * image nodes of its `index.mdx`, until one of them fails.
   */
  method DownloadAll(lib: Lib, sourceFolder: string, fetch: string -> Option<string>, posts: seq<(string, seq<string>)>)
    returns (written: seq<seq<string>>, downloads: seq<Download>, error: Option<DownloadError>)
    ensures Run(written, downloads, error) == RunOf(Outcomes(lib, sourceFolder, fetch, posts))
  {
    ghost var stages := Outcomes(lib, sourceFolder, fetch, posts);
    ghost var final := RunOf(stages);
    written, downloads, error := [], [], None;
    var a := 0;
    while a < |posts|
      invariant 0 <= a <= |posts|
      invariant RunRemaining(stages, a, written, downloads, final)
    {
      var rewritten, got, failure := DownloadPost(lib, sourceFolder, fetch, posts[a].0, posts[a].1);
      RunStep(stages, a, written, downloads, final);
      if failure.Some? {
        downloads := downloads + got;
        error := failure;
        return;
      }
      written := written + [rewritten];
      downloads := downloads + got;
      a := a + 1;
    }
    assert stages[a..] == [];
  }
}
