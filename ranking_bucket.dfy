/** The Cloudflare ranking-bucket crawler (`iyp/crawlers/cloudflare/ranking_bucket.py`):
    it lists the ranking datasets, downloads each of them, gets or creates a
    DomainName node for every ranked name, and links each name to the Ranking
    node of every dataset it appears in. */
module RankingBucket {
  import opened Common
  import opened Text

  type NodeId = int

  /** The fields of a dataset description the crawler reads; `url` is the
      download URL the crawler stores into it once known. */
  datatype Dataset = Dataset(id: int, title: string, description: string, top: int,
                             targetDateEnd: Option<Date>, url: Option<string>)

  /** The answer to the dataset listing: an HTTP error status, or a JSON body
      with its `success` field (absent, or its truth value) and its datasets. */
  datatype Listing = HttpError | Listing(success: Option<bool>, datasets: seq<Dataset>)

  /** A `RANK` relationship: the domain's node, the ranking's node and the
      modification time carried by the shared reference. */
  datatype RankLink = RankLink(src: NodeId, dst: NodeId, modTime: Option<Date>)

  /** The graph calls the crawler makes, in order. */
  datatype GraphCall =
    | GetNodes(nodeLabel: string, prop: string, values: set<string>)
    | GetNode(nodeLabel: string, name: string, description: string, top: int)
    | AddLinks(relType: string, links: seq<RankLink>)

  /** How `run` ended: it raised on the listing (status or `success`), raised
      `KeyError` on a domain without a node id, or finished. */
  datatype RunResult = HttpRaised | EnvelopeRaised | KeyErrorRaised | Finished

  /** A dataset that was downloaded, with its domains. */
  datatype Kept = Kept(dataset: Dataset, domains: seq<string>)

  /** What the first loop of `run` produces. */
  datatype Collected = Collected(kept: seq<Kept>, allDomains: set<string>, modTime: Option<Date>)

  predicate EnvelopeOk(listing: Listing) {
    listing.Listing? && listing.success == Some(true)
  }

  function Elements(s: seq<string>): set<string> {
    set x | x in s
  }

  // ---------------------------------------------------------------------------
  // Domains of one dataset: `set(text.splitlines()[1:])`
  // ---------------------------------------------------------------------------

  /** The distinct elements of `s`, in order of first occurrence (the order in
      which the set is iterated is left to this choice). */
  function Dedup(s: seq<string>): seq<string> {
    if s == [] then []
    else
      var n := |s| - 1;
      var p := Dedup(s[..n]);
      if s[n] in p then p else p + [s[n]]
  }

  /** `Dedup` is `set(...)` listed: no repeats, exactly the input's elements. */
  lemma {:induction false} DedupSpec(s: seq<string>)
    ensures NoDups(Dedup(s))
    ensures forall x :: x in Dedup(s) <==> x in s
    ensures |Dedup(s)| <= |s|
  {
    if s != [] {
      var n := |s| - 1;
      DedupSpec(s[..n]);
      assert s == s[..n] + [s[n]];
    }
  }

  /** The domains of a downloaded ranking file: its lines after the header,
      each once. */
  function DatasetDomains(text: string): seq<string> {
    Dedup(Tail(SplitLines(text)))
  }

  lemma DatasetDomainsSpec(text: string)
    ensures NoDups(DatasetDomains(text))
    ensures forall x :: x in DatasetDomains(text) <==>
      exists i :: 1 <= i < |SplitLines(text)| && SplitLines(text)[i] == x
  {
    var lines := SplitLines(text);
    DedupSpec(Tail(lines));
    forall x ensures x in Tail(lines) <==> exists i :: 1 <= i < |lines| && lines[i] == x {
      if x in Tail(lines) {
        var j :| 0 <= j < |Tail(lines)| && Tail(lines)[j] == x;
        assert lines[j + 1] == x;
      }
      if exists i :: 1 <= i < |lines| && lines[i] == x {
        var i :| 1 <= i < |lines| && lines[i] == x;
        assert Tail(lines)[i - 1] == x;
      }
    }
  }

  // ---------------------------------------------------------------------------
  // First loop: modification time, download, union of the domains
  // ---------------------------------------------------------------------------

  /** The modification time is taken from a dataset only while none is set. */
  function NextModTime(m: Option<Date>, d: Dataset): Option<Date> {
    if m.None? then d.targetDateEnd else m
  }

  /** The two requests for one dataset: `post` answers the URL request for a
      dataset id with a status and the URL, `get` answers the download of a
      URL with a status and the text. Anything but 200 skips the dataset. */
  function Fetched(d: Dataset, post: int -> (int, string), get: string -> (int, string)): Option<Kept> {
    var (status, url) := post(d.id);
    if status != 200 then None
    else
      var (status', text) := get(url);
      if status' != 200 then None
      else Some(Kept(d.(url := Some(url)), DatasetDomains(text)))
  }

  function Collect(m: Option<Date>, ds: seq<Dataset>, post: int -> (int, string), get: string -> (int, string)): Collected {
    if ds == [] then Collected([], {}, m)
    else
      var n := |ds| - 1;
      var c := Collect(m, ds[..n], post, get);
      var m' := NextModTime(c.modTime, ds[n]);
      match Fetched(ds[n], post, get)
      case None => Collected(c.kept, c.allDomains, m')
      case Some(k) => Collected(c.kept + [k], c.allDomains + Elements(k.domains), m')
  }

  /** The first modification time any dataset carries, downloaded or not. */
  function FirstTarget(ds: seq<Dataset>): Option<Date> {
    if ds == [] then None
    else if ds[0].targetDateEnd.Some? then ds[0].targetDateEnd
    else FirstTarget(ds[1..])
  }

  // ---------------------------------------------------------------------------
  // Second loop: one Ranking node and one batch of RANK links per dataset
  // ---------------------------------------------------------------------------

  function RankingName(d: Dataset): string {
    "Cloudflare " + d.title
  }

  /** The RANK links of one dataset, or `None` when a domain has no node id
      (`KeyError`). */
  function DomainLinks(domains: seq<string>, ids: map<string, NodeId>, rid: NodeId, ref: Option<Date>): Option<seq<RankLink>> {
    if forall d :: d in domains ==> d in ids then
      Some(seq(|domains|, i requires 0 <= i < |domains| && domains[i] in ids => RankLink(ids[domains[i]], rid, ref)))
    else None
  }

  /** The calls made for one dataset, and whether it went through without a
      `KeyError`. `rankingId` is the id `get_node` returns for a Ranking with
      that name, description and size. */
  function DatasetCalls(k: Kept, ids: map<string, NodeId>, rankingId: (string, string, int) -> NodeId,
                        ref: Option<Date>): (seq<GraphCall>, bool)
  {
    var name := RankingName(k.dataset);
    var getNode := GetNode("Ranking", name, k.dataset.description, k.dataset.top);
    var rid := rankingId(name, k.dataset.description, k.dataset.top);
    match DomainLinks(k.domains, ids, rid, ref)
    case None => ([getNode], false)
    case Some(links) => ([getNode] + (if links == [] then [] else [AddLinks("RANK", links)]), true)
  }

  function LinkPhase(kept: seq<Kept>, ids: map<string, NodeId>, rankingId: (string, string, int) -> NodeId,
                     ref: Option<Date>): (seq<GraphCall>, bool)
  {
    if kept == [] then ([], true)
    else
      var n := |kept| - 1;
      var prev := LinkPhase(kept[..n], ids, rankingId, ref);
      if !prev.1 then prev
      else
        var cur := DatasetCalls(kept[n], ids, rankingId, ref);
        (prev.0 + cur.0, cur.1)
  }

  // ---------------------------------------------------------------------------
  // The crawler
  // ---------------------------------------------------------------------------

  class RankingBucketCrawler {
    /** `reference['reference_time_modification']`. */
    var modTime: Option<Date>
    /** Every graph call, in order. */
    var graph: seq<GraphCall>

    constructor ()
      ensures modTime == None && graph == []
    {
      modTime := None;
      graph := [];
    }

    /** The first loop of `run`. */
    method CollectDatasets(ds: seq<Dataset>, post: int -> (int, string), get: string -> (int, string))
      returns (kept: seq<Kept>, allDomains: set<string>)
      modifies this`modTime
      ensures Collected(kept, allDomains, modTime) == Collect(old(modTime), ds, post, get)
    {
      kept := [];
      allDomains := {};
      for i := 0 to |ds|
        invariant Collected(kept, allDomains, modTime) == Collect(old(modTime), ds[..i], post, get)
      {
        assert ds[..i + 1][..i] == ds[..i];
        var dataset := ds[i];
        if modTime.None? {
          modTime := dataset.targetDateEnd;
        }
        var (status, url) := post(dataset.id);
        if status != 200 {
          continue;
        }
        dataset := dataset.(url := Some(url));
        var (status', text) := get(url);
        if status' != 200 {
          continue;
        }
        var domains := DatasetDomains(text);
        allDomains := allDomains + Elements(domains);
        kept := kept + [Kept(dataset, domains)];
      }
      assert ds[..|ds|] == ds;
    }

    /** One dataset of the second loop: get the Ranking node, build the RANK
        links (`ok` is false when a domain has no id, the `KeyError`), and
        push them when there are any. */
    method AddDatasetLinks(k: Kept, ids: map<string, NodeId>, rankingId: (string, string, int) -> NodeId)
      returns (ok: bool)
      modifies this`graph
      ensures graph == old(graph) + DatasetCalls(k, ids, rankingId, modTime).0
      ensures ok == DatasetCalls(k, ids, rankingId, modTime).1
    {
      var dataset := k.dataset;
      var name := RankingName(dataset);
      graph := graph + [GetNode("Ranking", name, dataset.description, dataset.top)];
      var rid := rankingId(name, dataset.description, dataset.top);
      var links := DomainLinks(k.domains, ids, rid, modTime);
      if links.None? {
        return false;
      }
      if links.value != [] {
        graph := graph + [AddLinks("RANK", links.value)];
      }
      return true;
    }

    /** The second loop of `run`; `ok` is false when it raised `KeyError`. */
    method AddRankLinks(kept: seq<Kept>, ids: map<string, NodeId>, rankingId: (string, string, int) -> NodeId)
      returns (ok: bool)
      modifies this`graph
      ensures graph == old(graph) + LinkPhase(kept, ids, rankingId, modTime).0
      ensures ok == LinkPhase(kept, ids, rankingId, modTime).1
    {
      for i := 0 to |kept|
        invariant LinkPhase(kept[..i], ids, rankingId, modTime).1
        invariant graph == old(graph) + LinkPhase(kept[..i], ids, rankingId, modTime).0
      {
        LinkPhaseSnoc(kept, ids, rankingId, modTime, i);
        ghost var graph0 := graph;
        var done := AddDatasetLinks(kept[i], ids, rankingId);
        if !done {
          LinkPhaseStops(kept, ids, rankingId, modTime, i + 1);
          return false;
        }
        assert graph == graph0 + DatasetCalls(kept[i], ids, rankingId, modTime).0;
      }
      assert kept[..|kept|] == kept;
      return true;
    }

    /** `run`: `listing` is the answer to the dataset listing, `getNodes` the
        node ids `batch_get_nodes_by_single_prop` returns for a set of names. */
    method Run(listing: Listing, post: int -> (int, string), get: string -> (int, string),
               getNodes: set<string> -> map<string, NodeId>, rankingId: (string, string, int) -> NodeId)
      returns (result: RunResult)
      modifies this
      ensures listing.HttpError? ==> result == HttpRaised
      ensures listing.Listing? && !EnvelopeOk(listing) ==> result == EnvelopeRaised
      ensures !EnvelopeOk(listing) ==> graph == old(graph) && modTime == old(modTime)
      ensures EnvelopeOk(listing) ==>
        var c := Collect(old(modTime), listing.datasets, post, get);
        var phase := LinkPhase(c.kept, getNodes(c.allDomains), rankingId, c.modTime);
        modTime == c.modTime
        && graph == old(graph) + [GetNodes("DomainName", "name", c.allDomains)] + phase.0
        && result == (if phase.1 then Finished else KeyErrorRaised)
    {
      if listing.HttpError? {
        return HttpRaised;
      }
      if listing.success != Some(true) {
        return EnvelopeRaised;
      }
      var kept, allDomains := CollectDatasets(listing.datasets, post, get);
      var ids := getNodes(allDomains);
      graph := graph + [GetNodes("DomainName", "name", allDomains)];
      var ok := AddRankLinks(kept, ids, rankingId);
      result := if ok then Finished else KeyErrorRaised;
    }
  }

  /** One more dataset of the second loop, spelt out. */
  lemma LinkPhaseSnoc(kept: seq<Kept>, ids: map<string, NodeId>, rankingId: (string, string, int) -> NodeId,
                      ref: Option<Date>, i: nat)
    requires i < |kept|
    ensures LinkPhase(kept[..i + 1], ids, rankingId, ref) ==
      var prev := LinkPhase(kept[..i], ids, rankingId, ref);
      if !prev.1 then prev
      else
        var cur := DatasetCalls(kept[i], ids, rankingId, ref);
        (prev.0 + cur.0, cur.1)
  {
    assert kept[..i + 1][..i] == kept[..i];
  }

  /** After the first `KeyError`, no further dataset is processed. */
  lemma {:induction false} LinkPhaseStops(kept: seq<Kept>, ids: map<string, NodeId>, rankingId: (string, string, int) -> NodeId,
                                          ref: Option<Date>, k: nat)
    requires k <= |kept| && !LinkPhase(kept[..k], ids, rankingId, ref).1
    ensures LinkPhase(kept, ids, rankingId, ref) == LinkPhase(kept[..k], ids, rankingId, ref)
    decreases |kept|
  {
    if k < |kept| {
      var n := |kept| - 1;
      assert kept[..n][..k] == kept[..k];
      LinkPhaseStops(kept[..n], ids, rankingId, ref, k);
    } else {
      assert kept[..k] == kept;
    }
  }

  // ---------------------------------------------------------------------------
  // Properties of the first loop
  // ---------------------------------------------------------------------------

  /** One step of the first loop, spelt out. */
  lemma CollectStep(m: Option<Date>, ds: seq<Dataset>, post: int -> (int, string), get: string -> (int, string))
    requires ds != []
    ensures var n := |ds| - 1;
      var c := Collect(m, ds[..n], post, get);
      var f := Fetched(ds[n], post, get);
      Collect(m, ds, post, get).kept == c.kept + (if f.Some? then [f.value] else [])
      && Collect(m, ds, post, get).allDomains == c.allDomains + (if f.Some? then Elements(f.value.domains) else {})
  {
  }

  lemma CollectModTimeStep(m: Option<Date>, ds: seq<Dataset>, post: int -> (int, string), get: string -> (int, string))
    requires ds != []
    ensures Collect(m, ds, post, get).modTime
            == NextModTime(Collect(m, ds[..|ds| - 1], post, get).modTime, ds[|ds| - 1])
  {
  }

  /** `all_domains` is exactly the union of the domains of the kept datasets. */
  lemma {:induction false} CollectUnion(m: Option<Date>, ds: seq<Dataset>, post: int -> (int, string), get: string -> (int, string))
    ensures forall x :: x in Collect(m, ds, post, get).allDomains <==>
      exists k :: 0 <= k < |Collect(m, ds, post, get).kept| && x in Collect(m, ds, post, get).kept[k].domains
  {
    if ds != [] {
      var n := |ds| - 1;
      var c := Collect(m, ds[..n], post, get);
      CollectUnion(m, ds[..n], post, get);
      CollectStep(m, ds, post, get);
      var f := Fetched(ds[n], post, get);
      var extra := if f.Some? then [f.value] else [];
      var kept := c.kept + extra;
      var all := c.allDomains + (if f.Some? then Elements(f.value.domains) else {});
      forall x ensures x in all <==> exists k :: 0 <= k < |kept| && x in kept[k].domains {
        if x in c.allDomains {
          var k :| 0 <= k < |c.kept| && x in c.kept[k].domains;
          assert kept[k] == c.kept[k];
        }
        if f.Some? && x in Elements(f.value.domains) {
          assert kept[|c.kept|] == f.value;
        }
        if exists k :: 0 <= k < |kept| && x in kept[k].domains {
          var k :| 0 <= k < |kept| && x in kept[k].domains;
          if k < |c.kept| {
            assert kept[k] == c.kept[k];
          } else {
            assert kept[k] == f.value;
          }
        }
      }
    }
  }

  lemma {:induction false} CollectKeptLength(m: Option<Date>, ds: seq<Dataset>, post: int -> (int, string), get: string -> (int, string))
    ensures |Collect(m, ds, post, get).kept| <= |ds|
  {
    if ds != [] {
      CollectStep(m, ds, post, get);
      CollectKeptLength(m, ds[..|ds| - 1], post, get);
    }
  }

  /** Where a kept dataset comes from: a dataset of the listing whose two
      requests returned 200. */
  lemma {:induction false} KeptSource(m: Option<Date>, ds: seq<Dataset>, post: int -> (int, string), get: string -> (int, string),
                                      k: nat) returns (i: nat)
    requires k < |Collect(m, ds, post, get).kept|
    ensures i < |ds| && Fetched(ds[i], post, get) == Some(Collect(m, ds, post, get).kept[k])
  {
    assert ds != [];
    var n := |ds| - 1;
    CollectStep(m, ds, post, get);
    var c := Collect(m, ds[..n], post, get);
    if k < |c.kept| {
      i := KeptSource(m, ds[..n], post, get, k);
      assert ds[..n][i] == ds[i];
    } else {
      i := n;
    }
  }

  /** A dataset of the listing whose two requests returned 200 is kept, at
      position `j`. */
  lemma {:induction false} KeptHas(m: Option<Date>, ds: seq<Dataset>, post: int -> (int, string), get: string -> (int, string),
                                   i: nat) returns (j: nat)
    requires i < |ds| && Fetched(ds[i], post, get).Some?
    ensures j < |Collect(m, ds, post, get).kept|
    ensures Collect(m, ds, post, get).kept[j] == Fetched(ds[i], post, get).value
  {
    var n := |ds| - 1;
    CollectStep(m, ds, post, get);
    var c := Collect(m, ds[..n], post, get);
    var f := Fetched(ds[n], post, get);
    var kept := Collect(m, ds, post, get).kept;
    assert kept == c.kept + (if f.Some? then [f.value] else []);
    if i < n {
      assert ds[..n][i] == ds[i];
      j := KeptHas(m, ds[..n], post, get, i);
      assert kept[j] == c.kept[j];
    } else {
      j := |c.kept|;
      assert kept == c.kept + [f.value];
    }
  }

  /** The kept datasets are exactly the ones whose two requests returned 200,
      each with the domains of its download. */
  lemma CollectKept(m: Option<Date>, ds: seq<Dataset>, post: int -> (int, string), get: string -> (int, string))
    ensures |Collect(m, ds, post, get).kept| <= |ds|
    ensures forall k :: 0 <= k < |Collect(m, ds, post, get).kept| ==>
      exists i :: 0 <= i < |ds| && Fetched(ds[i], post, get) == Some(Collect(m, ds, post, get).kept[k])
    ensures forall i :: 0 <= i < |ds| && Fetched(ds[i], post, get).Some? ==>
      Fetched(ds[i], post, get).value in Collect(m, ds, post, get).kept
  {
    CollectKeptLength(m, ds, post, get);
    var kept := Collect(m, ds, post, get).kept;
    forall k | 0 <= k < |kept|
      ensures exists i :: 0 <= i < |ds| && Fetched(ds[i], post, get) == Some(kept[k])
    {
      var i := KeptSource(m, ds, post, get, k);
    }
    forall i | 0 <= i < |ds| && Fetched(ds[i], post, get).Some?
      ensures Fetched(ds[i], post, get).value in kept
    {
      var j := KeptHas(m, ds, post, get, i);
    }
  }

  /** A modification time already set is kept; otherwise it comes from the
      first dataset that carries one, whether or not its download succeeds. */
  lemma {:induction false} CollectModTime(m: Option<Date>, ds: seq<Dataset>, post: int -> (int, string), get: string -> (int, string))
    ensures m.Some? ==> Collect(m, ds, post, get).modTime == m
    ensures m.None? ==> Collect(m, ds, post, get).modTime == FirstTarget(ds)
  {
    if ds != [] {
      var n := |ds| - 1;
      CollectModTimeStep(m, ds, post, get);
      CollectModTime(m, ds[..n], post, get);
      FirstTargetSnoc(ds);
    }
  }

  lemma {:induction false} FirstTargetAppend(ds: seq<Dataset>, d: Dataset)
    ensures FirstTarget(ds + [d]) == if FirstTarget(ds).Some? then FirstTarget(ds) else d.targetDateEnd
  {
    if ds != [] {
      assert (ds + [d])[1..] == ds[1..] + [d];
      FirstTargetAppend(ds[1..], d);
    }
  }

  lemma FirstTargetSnoc(ds: seq<Dataset>)
    requires ds != []
    ensures FirstTarget(ds) == var n := |ds| - 1;
      if FirstTarget(ds[..n]).Some? then FirstTarget(ds[..n]) else ds[n].targetDateEnd
  {
    var n := |ds| - 1;
    FirstTargetAppend(ds[..n], ds[n]);
    assert ds[..n] + [ds[n]] == ds;
  }

  /** A date, once found, stays the first one however the listing goes on. */
  lemma {:induction false} FirstTargetPrefix(p: seq<Dataset>, rest: seq<Dataset>)
    requires FirstTarget(p).Some?
    ensures FirstTarget(p + rest) == FirstTarget(p)
  {
    if p[0].targetDateEnd.None? {
      assert (p + rest)[1..] == p[1..] + rest;
      FirstTargetPrefix(p[1..], rest);
    }
  }

  /** A dataset that is skipped leaves fewer kept datasets than listed ones. */
  lemma {:induction false} SkippedNotKept(m: Option<Date>, ds: seq<Dataset>, post: int -> (int, string), get: string -> (int, string),
                                          i: nat)
    requires i < |ds| && Fetched(ds[i], post, get).None?
    ensures |Collect(m, ds, post, get).kept| < |ds|
  {
    var n := |ds| - 1;
    CollectStep(m, ds, post, get);
    var c := Collect(m, ds[..n], post, get);
    var f := Fetched(ds[n], post, get);
    var kept := Collect(m, ds, post, get).kept;
    assert kept == c.kept + (if f.Some? then [f.value] else []);
    if i < n {
      assert ds[..n][i] == ds[i];
      SkippedNotKept(m, ds[..n], post, get, i);
      assert |kept| <= |c.kept| + 1;
    } else {
      assert i == n && f.None?;
      CollectKeptLength(m, ds[..n], post, get);
    }
  }

  /** The first dataset of the listing that carries a date supplies the
      modification time even when its URL request fails and it is skipped. */
  lemma FailedDatasetSetsModTime(ds: seq<Dataset>, i: nat, post: int -> (int, string), get: string -> (int, string))
    requires i < |ds| && FirstTarget(ds[..i]).None? && ds[i].targetDateEnd.Some?
    requires post(ds[i].id).0 != 200
    ensures Collect(None, ds, post, get).modTime == ds[i].targetDateEnd
    ensures Fetched(ds[i], post, get).None?
    ensures |Collect(None, ds, post, get).kept| < |ds|
  {
    CollectModTime(None, ds, post, get);
    FirstTargetSnoc(ds[..i + 1]);
    assert ds[..i + 1][..i] == ds[..i];
    FirstTargetPrefix(ds[..i + 1], ds[i + 1..]);
    assert ds[..i + 1] + ds[i + 1..] == ds;
    SkippedNotKept(None, ds, post, get, i);
  }

  // ---------------------------------------------------------------------------
  // Properties of the second loop
  // ---------------------------------------------------------------------------

  /** The links of one dataset: one per domain, from that domain's node (and
      no other) to the ranking's node; `KeyError` exactly when a domain has no
      node id. */
  lemma DomainLinksSpec(domains: seq<string>, ids: map<string, NodeId>, rid: NodeId, ref: Option<Date>)
    ensures DomainLinks(domains, ids, rid, ref).Some? <==> forall d :: d in domains ==> d in ids
    ensures DomainLinks(domains, ids, rid, ref).Some? ==>
      var links := DomainLinks(domains, ids, rid, ref).value;
      |links| == |domains|
      && (forall l :: l in links ==> l.dst == rid && exists d :: d in domains && d in ids && l.src == ids[d])
      && (forall d :: d in domains ==> d in ids && RankLink(ids[d], rid, ref) in links)
  {
    if DomainLinks(domains, ids, rid, ref).Some? {
      var links := DomainLinks(domains, ids, rid, ref).value;
      forall l | l in links ensures l.dst == rid && exists d :: d in domains && d in ids && l.src == ids[d] {
        var i :| 0 <= i < |links| && links[i] == l;
        assert domains[i] in domains;
      }
      forall d | d in domains ensures d in ids && RankLink(ids[d], rid, ref) in links {
        var i :| 0 <= i < |domains| && domains[i] == d;
        assert links[i] == RankLink(ids[d], rid, ref);
      }
    }
  }

  /** `batch_add_links` is only ever called with a non-empty list of RANK links. */
  lemma {:induction false} AddLinksNonEmpty(kept: seq<Kept>, ids: map<string, NodeId>, rankingId: (string, string, int) -> NodeId, ref: Option<Date>)
    ensures forall c :: c in LinkPhase(kept, ids, rankingId, ref).0 && c.AddLinks? ==> c.relType == "RANK" && c.links != []
  {
    if kept != [] {
      AddLinksNonEmpty(kept[..|kept| - 1], ids, rankingId, ref);
    }
  }

  /** The phase raises exactly when some kept domain has no node id. */
  lemma {:induction false} LinkPhaseOk(kept: seq<Kept>, ids: map<string, NodeId>, rankingId: (string, string, int) -> NodeId, ref: Option<Date>)
    ensures LinkPhase(kept, ids, rankingId, ref).1 <==>
      forall k, d :: 0 <= k < |kept| && d in kept[k].domains ==> d in ids
  {
    if kept != [] {
      var n := |kept| - 1;
      LinkPhaseOk(kept[..n], ids, rankingId, ref);
      forall k, d | 0 <= k < n && d in kept[..n][k].domains ensures d in kept[k].domains {
        assert kept[..n][k] == kept[k];
      }
      if !LinkPhase(kept[..n], ids, rankingId, ref).1 {
        var k, d :| 0 <= k < n && d in kept[..n][k].domains && d !in ids;
        assert kept[..n][k] == kept[k];
      } else {
        forall k, d | 0 <= k < n && d in kept[k].domains ensures d in ids {
          assert kept[..n][k] == kept[k];
        }
      }
    }
  }

  /** When every kept dataset gets through, the calls are those of each
      dataset in turn: a `get_node` for its Ranking, then its links if any. */
  lemma {:induction false} LinkPhaseCalls(kept: seq<Kept>, ids: map<string, NodeId>, rankingId: (string, string, int) -> NodeId, ref: Option<Date>)
    requires LinkPhase(kept, ids, rankingId, ref).1
    ensures LinkPhase(kept, ids, rankingId, ref).0 ==
      Flatten(seq(|kept|, k requires 0 <= k < |kept| => DatasetCalls(kept[k], ids, rankingId, ref).0))
  {
    if kept != [] {
      var n := |kept| - 1;
      LinkPhaseCalls(kept[..n], ids, rankingId, ref);
      var all := seq(|kept|, k requires 0 <= k < |kept| => DatasetCalls(kept[k], ids, rankingId, ref).0);
      var front := seq(n, k requires 0 <= k < n => DatasetCalls(kept[..n][k], ids, rankingId, ref).0);
      assert all == front + [DatasetCalls(kept[n], ids, rankingId, ref).0];
      FlattenAppend(front, DatasetCalls(kept[n], ids, rankingId, ref).0);
    }
  }

  /** If the node lookup returns an id for every name it was given (it gets or
      creates each of them), the link phase never raises. */
  lemma AllDomainsKnown(m: Option<Date>, ds: seq<Dataset>, post: int -> (int, string), get: string -> (int, string),
                        ids: map<string, NodeId>, rankingId: (string, string, int) -> NodeId, ref: Option<Date>)
    requires Collect(m, ds, post, get).allDomains <= ids.Keys
    ensures LinkPhase(Collect(m, ds, post, get).kept, ids, rankingId, ref).1
  {
    var c := Collect(m, ds, post, get);
    CollectUnion(m, ds, post, get);
    LinkPhaseOk(c.kept, ids, rankingId, ref);
    forall k, d | 0 <= k < |c.kept| && d in c.kept[k].domains ensures d in ids {
      assert d in c.allDomains;
    }
  }
}
