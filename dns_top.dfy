/** The base class of the Cloudflare "top entities" crawlers
    (`iyp/crawlers/cloudflare/__init__.py`, `DnsTopCrawler`): `fetch` downloads
    the top ASes or locations of every ranked name into a cache directory, one
    file per name, and `run` turns the cached files into `QUERIED_FROM` links. */
module DnsTop {
  import opened Common
  import opened Text
  import opened NameOrder
  import opened DnsTopPlan
  import opened DnsTopFetch

  /** The relationship type `run` creates. */
  const QUERIED_FROM: string := "QUERIED_FROM"

  /** The names whose cache file exists (as a file or as anything else). */
  function Cached<V>(names: seq<string>, dir: map<string, Entry<V>>): (c: set<string>)
    ensures forall n :: n in c <==> n in names && FileName(n) in dir
  {
    set n | n in names && FileName(n) in dir
  }

  /** The directory entries `run` reads: regular files whose name ends in `.json`. */
  function Eligible<V>(dir: map<string, Entry<V>>): set<string> {
    set f | f in dir && dir[f].File? && EndsWith(f, ".json")
  }

  /** The `(key, value)` items of the visited files, file after file. */
  function ItemsOf<V>(dir: map<string, Entry<V>>, visited: seq<string>): seq<(string, V)>
    requires forall f :: f in visited ==> f in dir && dir[f].File?
  {
    if visited == [] then []
    else ItemsOf(dir, visited[..|visited| - 1]) + dir[visited[|visited| - 1]].items
  }

  /** The link list after `compute_link` has been called on each item, in order;
      `computeLink` stands for the subclass's `compute_link`, which appends to
      `self.links`. */
  function FoldLinks<V, L>(computeLink: (seq<L>, (string, V)) -> seq<L>, links: seq<L>, items: seq<(string, V)>): seq<L> {
    if items == [] then links
    else computeLink(FoldLinks(computeLink, links, items[..|items| - 1]), items[|items| - 1])
  }

  class DnsTopCrawler<V, L> {
    /** The API endpoint (`self.url`). */
    const url: string
    /** `domain_names_id`: ranked domain names and their node ids. */
    const domainNamesId: map<string, string>
    /** `names`: the sorted, de-duplicated names to fetch. */
    const names: seq<string>
    /** The crawler's temporary directory, by file name. */
    var tmpDir: map<string, Entry<V>>
    /** `reference['reference_time_modification']`. */
    var modTime: Option<Date>
    /** `links`, filled by `compute_link` and rewritten by `map_links`. */
    var links: seq<L>
    /** Every `compute_link` call, in order. */
    var computed: seq<(string, V)>
    /** Every `batch_add_links` call: relationship type and links. */
    var added: seq<(string, seq<L>)>

    /** `__init__`: `existing` is the answer of the graph query for ranked
        domain names; host names are not fetched, so `names` lists the
        domain names in increasing order. */
    constructor (url: string, existing: map<string, string>)
      ensures this.url == url && domainNamesId == existing
      ensures StrictlySorted(names) && (forall x :: x in names <==> x in existing) && |names| == |existing|
      ensures tmpDir == map[] && modTime == None && links == [] && computed == [] && added == []
    {
      var hostNamesId: map<string, string> := map[];
      var sorted := SortNames(existing.Keys + hostNamesId.Keys);
      this.url := url;
      domainNamesId := existing;
      names := sorted;
      tmpDir := map[];
      modTime := None;
      links := [];
      computed := [];
      added := [];
    }

    /** The cache writes of one successful reply (`fetch`, inner loop): the
        entry at position `idx` goes to the file of `q.domains[idx]`, `meta` is
        skipped, and an index with no name raises after the earlier writes.
        `completed` is false when it raised. Only the directory changes. */
    method WriteEntries(q: Query, es: seq<(string, V)>) returns (completed: bool)
      modifies this`tmpDir
      ensures tmpDir == ApplyWrites(old(tmpDir), Demux(q, es).0)
      ensures completed == Demux(q, es).1
    {
      ghost var dir0 := tmpDir;
      var idx := 0;
      while idx < |es|
        invariant 0 <= idx <= |es|
        invariant Demux(q, es[..idx]).1
        invariant tmpDir == ApplyWrites(dir0, Demux(q, es[..idx]).0)
      {
        DemuxSnoc(q, es, idx);
        if es[idx].0 == "meta" {
          idx := idx + 1;
          continue;
        }
        if idx >= |q.domains| || q.domains[idx] !in q.fpaths {
          DemuxPrefix(q, es, idx + 1);
          return false;
        }
        var domain := q.domains[idx];
        ApplyWritesSnoc(dir0, Demux(q, es[..idx]).0, WriteAt(q, idx, es[idx].1));
        tmpDir := tmpDir[q.fpaths[domain] := File([(domain, es[idx].1)])];
        idx := idx + 1;
      }
      assert es[..idx] == es;
      return true;
    }

    /** The reply loop of `fetch` (`for query in as_completed(queries)`): the
        replies are handled in completion order `order`, `respond` giving
        each request's outcome; a failed request is logged and skipped, and
        so is one whose date lookup raises while no time is set. */
    method HandleReplies(queries: seq<Query>, respond: Query -> Outcome<V>, order: seq<nat>)
      requires ValidOrder(queries, order)
      modifies this`tmpDir, this`modTime
      ensures FetchState(tmpDir, modTime) == ProcessAll(FetchState(old(tmpDir), old(modTime)), queries, respond, order)
    {
      ghost var s0 := FetchState(tmpDir, modTime);
      var k := 0;
      while k < |order|
        invariant 0 <= k <= |order|
        invariant FetchState(tmpDir, modTime) == ProcessAll(s0, queries, respond, order[..k])
      {
        ProcessAllSnoc(s0, queries, respond, order, k);
        var q := queries[order[k]];
        match respond(q) {
          case Ok(date, es) =>
            if modTime.None? {
              modTime := date;
            }
            var _ := WriteEntries(q, es);
          case DateRaises(es) =>
            if modTime.Some? {
              var _ := WriteEntries(q, es);
            }
          case TransportFail =>
          case EnvelopeFail =>
        }
        k := k + 1;
      }
      assert order[..k] == order;
    }

    /** `fetch`: plans the requests over the names not cached in `start` (the
        directory `create_tmp_dir` leaves), then handles the replies in
        completion order `order`. Only the directory and the modification
        time change. */
    method Fetch(start: map<string, Entry<V>>, respond: Query -> Outcome<V>, order: seq<nat>) returns (queries: seq<Query>)
      requires IsOrder(order, |Plan(names, Cached(names, start), url)|)
      modifies this`tmpDir, this`modTime
      ensures queries == Plan(names, Cached(names, start), url)
      ensures ValidOrder(queries, order)
      ensures FetchState(tmpDir, modTime) == ProcessAll(FetchState(start, old(modTime)), queries, respond, order)
    {
      tmpDir := start;
      var cached := set n | n in names && FileName(n) in tmpDir;
      queries := PlanBatches(names, cached, url);
      HandleReplies(queries, respond, order);
    }

    /** The `compute_link` calls for the items of one cache file, in order. */
    method ComputeLinks(results: seq<(string, V)>, computeLink: (seq<L>, (string, V)) -> seq<L>)
      modifies this`links, this`computed
      ensures computed == old(computed) + results
      ensures links == FoldLinks(computeLink, old(links), results)
    {
      for j := 0 to |results|
        invariant computed == old(computed) + results[..j]
        invariant links == FoldLinks(computeLink, old(links), results[..j])
      {
        assert results[..j + 1][..j] == results[..j];
        links := computeLink(links, results[j]);
        computed := computed + [results[j]];
      }
      assert results[..|results|] == results;
    }

    /** One cache file of the walk (`run`, body of the `scandir` loop): its
        items go to `compute_link` in order; an empty record is skipped. */
    method VisitFile(ghost computed0: seq<(string, V)>, ghost links0: seq<L>, dir: map<string, Entry<V>>,
                     ghost visited: seq<string>, f: string, computeLink: (seq<L>, (string, V)) -> seq<L>)
      requires forall g :: g in visited ==> g in dir && dir[g].File?
      requires f in dir && dir[f].File?
      requires computed == computed0 + ItemsOf(dir, visited)
      requires links == FoldLinks(computeLink, links0, ItemsOf(dir, visited))
      modifies this`links, this`computed
      ensures computed == computed0 + ItemsOf(dir, visited + [f])
      ensures links == FoldLinks(computeLink, links0, ItemsOf(dir, visited + [f]))
    {
      var results := dir[f].items;
      ghost var before := ItemsOf(dir, visited);
      ItemsOfSnoc(dir, visited, f);
      FoldLinksConcat(computeLink, links0, before, results);
      if results == [] {
        assert before + results == before;
        return;
      }
      ComputeLinks(results, computeLink);
      assert computed0 + before + results == computed0 + (before + results);
    }

    /** The directory walk of `run`: every regular `.json` file is visited once,
        in the order `os.scandir` lists them (left open here), and its items go
        to `compute_link`; an empty record contributes nothing. */
    method ScanCache(computeLink: (seq<L>, (string, V)) -> seq<L>) returns (visited: seq<string>)
      modifies this`links, this`computed
      ensures NoDups(visited) && forall f :: f in visited <==> f in Eligible(tmpDir)
      ensures forall f :: f in visited ==> f in tmpDir && tmpDir[f].File?
      ensures computed == old(computed) + ItemsOf(tmpDir, visited)
      ensures links == FoldLinks(computeLink, old(links), ItemsOf(tmpDir, visited))
    {
      var dir := tmpDir;
      var rest := dir.Keys;
      visited := [];
      while rest != {}
        invariant rest <= dir.Keys
        invariant NoDups(visited)
        invariant forall f :: f in visited <==> f in Eligible(dir) && f !in rest
        invariant forall f :: f in visited ==> f in dir && dir[f].File?
        invariant computed == old(computed) + ItemsOf(dir, visited)
        invariant links == FoldLinks(computeLink, old(links), ItemsOf(dir, visited))
        decreases rest
      {
        var f :| f in rest;
        rest := rest - {f};
        var entry := dir[f];
        if !entry.File? || !EndsWith(f, ".json") {
          continue;
        }
        VisitFile(old(computed), old(links), dir, visited, f, computeLink);
        visited := visited + [f];
      }
    }

    /** `run`: fetches, then calls `compute_link` on every item of every
        `.json` file of the directory, then `map_links`, then a single
        `batch_add_links`. */
    method Run(start: map<string, Entry<V>>, respond: Query -> Outcome<V>, order: seq<nat>,
               computeLink: (seq<L>, (string, V)) -> seq<L>, mapLinks: seq<L> -> seq<L>)
      returns (queries: seq<Query>, visited: seq<string>)
      requires IsOrder(order, |Plan(names, Cached(names, start), url)|)
      modifies this
      ensures queries == Plan(names, Cached(names, start), url)
      ensures ValidOrder(queries, order)
      ensures FetchState(tmpDir, modTime) == ProcessAll(FetchState(start, old(modTime)), queries, respond, order)
      ensures NoDups(visited) && forall f :: f in visited <==> f in Eligible(tmpDir)
      ensures forall f :: f in visited ==> f in tmpDir && tmpDir[f].File?
      ensures computed == old(computed) + ItemsOf(tmpDir, visited)
      ensures links == mapLinks(FoldLinks(computeLink, old(links), ItemsOf(tmpDir, visited)))
      ensures added == old(added) + [(QUERIED_FROM, links)]
    {
      queries := Fetch(start, respond, order);
      visited := ScanCache(computeLink);
      links := mapLinks(links);
      added := added + [(QUERIED_FROM, links)];
    }
  }

  /** One more visited file, spelt out. */
  lemma ItemsOfSnoc<V>(dir: map<string, Entry<V>>, visited: seq<string>, f: string)
    requires forall g :: g in visited ==> g in dir && dir[g].File?
    requires f in dir && dir[f].File?
    ensures ItemsOf(dir, visited + [f]) == ItemsOf(dir, visited) + dir[f].items
  {
    assert (visited + [f])[..|visited|] == visited;
  }

  lemma {:induction false} FoldLinksConcat<V, L>(computeLink: (seq<L>, (string, V)) -> seq<L>, links: seq<L>,
                                                 a: seq<(string, V)>, b: seq<(string, V)>)
    ensures FoldLinks(computeLink, links, a + b) == FoldLinks(computeLink, FoldLinks(computeLink, links, a), b)
  {
    if b != [] {
      var n := |b| - 1;
      assert (a + b)[..|a + b| - 1] == a + b[..n];
      FoldLinksConcat(computeLink, links, a, b[..n]);
    } else {
      assert a + b == a;
    }
  }

  // ---------------------------------------------------------------------------
  // What `run` reads does not depend on the directory order
  // ---------------------------------------------------------------------------

  lemma {:induction false} ItemsOfConcat<V>(dir: map<string, Entry<V>>, a: seq<string>, b: seq<string>)
    requires forall f :: f in a + b ==> f in dir && dir[f].File?
    ensures ItemsOf(dir, a + b) == ItemsOf(dir, a) + ItemsOf(dir, b)
  {
    if b != [] {
      var n := |b| - 1;
      assert (a + b)[..|a + b| - 1] == a + b[..n];
      ItemsOfConcat(dir, a, b[..n]);
    } else {
      assert a + b == a;
    }
  }

  /** Removing the file at position `j` removes exactly its items. */
  lemma ItemsOfRemove<V>(dir: map<string, Entry<V>>, b: seq<string>, j: nat)
    requires j < |b| && forall f :: f in b ==> f in dir && dir[f].File?
    ensures multiset(ItemsOf(dir, b)) == multiset(ItemsOf(dir, b[..j] + b[j + 1..])) + multiset(dir[b[j]].items)
  {
    var x := b[j];
    assert b == b[..j] + [x] + b[j + 1..];
    ItemsOfConcat(dir, b[..j] + [x], b[j + 1..]);
    ItemsOfConcat(dir, b[..j], [x]);
    ItemsOfConcat(dir, b[..j], b[j + 1..]);
    assert ItemsOf(dir, [x]) == dir[x].items by {
      assert [x][..0] == [];
    }
  }

  /** Removing position `j` of a duplicate-free sequence removes exactly that
      element and keeps it duplicate-free. */
  lemma RemoveAt(b: seq<string>, j: nat)
    requires j < |b| && NoDups(b)
    ensures NoDups(b[..j] + b[j + 1..])
    ensures forall f :: f in b[..j] + b[j + 1..] <==> f in b && f != b[j]
  {
    var b' := b[..j] + b[j + 1..];
    forall i, k | 0 <= i < k < |b'| ensures b'[i] != b'[k] {
      var bi := if i < j then i else i + 1;
      var bk := if k < j then k else k + 1;
      assert b'[i] == b[bi] && b'[k] == b[bk];
    }
    forall f ensures f in b' <==> f in b && f != b[j] {
      if f in b' {
        var i :| 0 <= i < |b'| && b'[i] == f;
        if i < j { assert b[i] == f; } else { assert b[i + 1] == f; }
      }
      if f in b && f != b[j] {
        var i :| 0 <= i < |b| && b[i] == f;
        if i < j { assert b'[i] == f; } else { assert b'[i - 1] == f; }
      }
    }
  }

  /** Whatever order `os.scandir` lists the files in, `compute_link` sees the
      same items the same number of times. */
  lemma {:induction false} ItemsOfOrderIndependent<V>(dir: map<string, Entry<V>>, a: seq<string>, b: seq<string>)
    requires forall f :: f in a ==> f in dir && dir[f].File?
    requires NoDups(a) && NoDups(b) && forall f :: f in a <==> f in b
    ensures multiset(ItemsOf(dir, a)) == multiset(ItemsOf(dir, b))
  {
    SameElementsBothEmpty(a, b);
    if a != [] {
      var n := |a| - 1;
      var x := a[n];
      assert x in b;
      var j :| 0 <= j < |b| && b[j] == x;
      RemoveAt(b, j);
      RemoveAt(a, n);
      assert a[..n] + a[n + 1..] == a[..n];
      var b' := b[..j] + b[j + 1..];
      assert NoDups(a[..n]) && NoDups(b');
      forall f ensures f in a[..n] <==> f in b' {
        assert f in a[..n] <==> f in a && f != x;
        assert f in b' <==> f in b && f != x;
      }
      ItemsOfOrderIndependent(dir, a[..n], b[..j] + b[j + 1..]);
      ItemsOfRemove(dir, b, j);
    }
  }

  // ---------------------------------------------------------------------------
  // Resuming: what one fetch writes, the next one skips
  // ---------------------------------------------------------------------------

  /** Every cache write made while fetching goes to the file of a planned,
      previously uncached name and stores that name's result. */
  lemma FetchWritesOwnFiles<V>(names: seq<string>, dir: map<string, Entry<V>>, base: string,
                               modTime: Option<Date>, respond: Query -> Outcome<V>, order: seq<nat>)
    requires ValidOrder(Plan(names, Cached(names, dir), base), order)
    ensures forall w :: w in AllWrites(modTime, Plan(names, Cached(names, dir), base), respond, order) ==>
      w.path == FileName(w.key) && w.key in names && FileName(w.key) !in dir
  {
    var qs := Plan(names, Cached(names, dir), base);
    PlanShape(names, Cached(names, dir), base);
    forall w | w in AllWrites(modTime, qs, respond, order)
      ensures w.path == FileName(w.key) && w.key in names && FileName(w.key) !in dir
    {
      var i, idx := WriteSource(names, dir, base, modTime, respond, order, w);
      assert qs[i].domains[idx] in qs[i].domains;
    }
  }

  /** Where a write of a fetch comes from: the reply to request `i`, whose
      entry at position `idx` is written, as `{name: result}`, to the cache
      file of the `idx`-th name of that request. */
  lemma WriteSource<V>(names: seq<string>, dir: map<string, Entry<V>>, base: string,
                       modTime: Option<Date>, respond: Query -> Outcome<V>, order: seq<nat>, w: Write<V>)
    returns (i: nat, idx: nat)
    requires ValidOrder(Plan(names, Cached(names, dir), base), order)
    requires w in AllWrites(modTime, Plan(names, Cached(names, dir), base), respond, order)
    ensures i < |Plan(names, Cached(names, dir), base)|
    ensures var q := Plan(names, Cached(names, dir), base)[i];
      (respond(q).Ok? || respond(q).DateRaises?) && idx < |q.domains| && idx < |respond(q).entries|
      && w == Write(FileName(q.domains[idx]), q.domains[idx], respond(q).entries[idx].1)
  {
    var qs := Plan(names, Cached(names, dir), base);
    PlanShape(names, Cached(names, dir), base);
    AllWritesFromSuccesses(modTime, qs, respond, order);
    var k :| 0 <= k < |order| && Written(TimeAfter(modTime, qs, respond, order[..k]), respond(qs[order[k]]))
             && w in Demux(qs[order[k]], respond(qs[order[k]]).entries).0;
    i := order[k];
    var q := qs[i];
    DemuxWritesFromEntries(q, respond(q).entries);
    var es := respond(q).entries;
    idx :| 0 <= idx < |es| && es[idx].0 != "meta" && idx < |q.domains| && q.domains[idx] in q.fpaths
           && w == WriteAt(q, idx, es[idx].1);
    assert q.domains[idx] in q.domains;
  }

  /** From a sorted name list, two writes of a fetch to the same file are the
      same write: each name is requested once, at one position. */
  lemma FetchWritesAgree<V>(names: seq<string>, dir: map<string, Entry<V>>, base: string,
                            modTime: Option<Date>, respond: Query -> Outcome<V>, order: seq<nat>)
    requires StrictlySorted(names)
    requires ValidOrder(Plan(names, Cached(names, dir), base), order)
    ensures PathsAgree(AllWrites(modTime, Plan(names, Cached(names, dir), base), respond, order))
  {
    var qs := Plan(names, Cached(names, dir), base);
    var ws := AllWrites(modTime, qs, respond, order);
    PlanDisjoint(names, Cached(names, dir), base);
    forall w1, w2 | w1 in ws && w2 in ws && w1.path == w2.path ensures w1 == w2 {
      var i1, x1 := WriteSource(names, dir, base, modTime, respond, order, w1);
      var i2, x2 := WriteSource(names, dir, base, modTime, respond, order, w2);
      FileNameInjective(qs[i1].domains[x1], qs[i2].domains[x2]);
      var d := qs[i1].domains[x1];
      assert d in qs[i1].domains && d in qs[i2].domains;
      assert i1 == i2;
      assert NoDups(qs[i1].domains);
      assert x1 == x2;
    }
  }

  /** From a sorted name list, every file a fetch writes ends up holding the
      result written for its name, whatever the completion order. */
  lemma FetchWritesContent<V>(names: seq<string>, dir: map<string, Entry<V>>, base: string,
                              modTime: Option<Date>, respond: Query -> Outcome<V>, order: seq<nat>)
    requires StrictlySorted(names)
    requires ValidOrder(Plan(names, Cached(names, dir), base), order)
    ensures forall w :: w in AllWrites(modTime, Plan(names, Cached(names, dir), base), respond, order) ==>
      w.path in ProcessAll(FetchState(dir, modTime), Plan(names, Cached(names, dir), base), respond, order).dir
      && ProcessAll(FetchState(dir, modTime), Plan(names, Cached(names, dir), base), respond, order).dir[w.path] == Record(w)
  {
    var qs := Plan(names, Cached(names, dir), base);
    FetchWritesAgree(names, dir, base, modTime, respond, order);
    ProcessAllWrites(FetchState(dir, modTime), qs, respond, order);
    ApplyWritesAgree(dir, AllWrites(modTime, qs, respond, order));
  }

  /** After a fetch, every name whose result was written counts as cached, so a
      later fetch over the same directory does not request it again. */
  lemma FetchedNamesCached<V>(names: seq<string>, dir: map<string, Entry<V>>, base: string,
                              modTime: Option<Date>, respond: Query -> Outcome<V>, order: seq<nat>)
    requires ValidOrder(Plan(names, Cached(names, dir), base), order)
    ensures forall w :: w in AllWrites(modTime, Plan(names, Cached(names, dir), base), respond, order) ==>
      w.key in Cached(names, ProcessAll(FetchState(dir, modTime), Plan(names, Cached(names, dir), base), respond, order).dir)
  {
    var qs := Plan(names, Cached(names, dir), base);
    FetchWritesOwnFiles(names, dir, base, modTime, respond, order);
    ProcessAllWrites(FetchState(dir, modTime), qs, respond, order);
    ApplyWritesKeys(dir, AllWrites(modTime, qs, respond, order));
    forall w | w in AllWrites(modTime, qs, respond, order)
      ensures FileName(w.key) in ProcessAll(FetchState(dir, modTime), qs, respond, order).dir
    {
      var i :| 0 <= i < |AllWrites(modTime, qs, respond, order)| && AllWrites(modTime, qs, respond, order)[i] == w;
      assert w.path in Targets(AllWrites(modTime, qs, respond, order));
    }
  }
}
