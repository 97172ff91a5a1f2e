/** Batch planning of the Cloudflare "top entities" crawlers
    (`DnsTopCrawler.fetch`, first loop): walk the sorted name list once, skip
    names whose cache file exists, cut the rest into batches of `BATCH_SIZE`
    and turn every batch into one API request. */
module DnsTopPlan {
  import opened Common
  import opened Text
  import opened NameOrder

  const BATCH_SIZE: nat := 10
  const TOP_LIMIT: nat := 100
  /** The query parameters added for each name of a batch, before the name. */
  const DOMAIN_PARAM: string := "&dateRange=7d&domain="

  /** One outbound request: the batch of names in request order (positions in
      the reply refer to it), the cache file of each name, and the URL. */
  datatype Query = Query(domains: seq<string>, fpaths: map<string, string>, url: string)

  /** Cache file of a name inside the crawler's temporary directory. */
  function FileName(name: string): string {
    "data_" + name + ".json"
  }

  /** Distinct names never share a cache file. */
  lemma FileNameInjective(a: string, b: string)
    ensures FileName(a) == FileName(b) ==> a == b
  {
    if FileName(a) == FileName(b) {
      assert a == FileName(a)[5..5 + |a|];
      assert b == FileName(b)[5..5 + |b|];
    }
  }

  // ---------------------------------------------------------------------------
  // Reference definitions
  // ---------------------------------------------------------------------------

  /** The names, in order, whose cache file does not exist yet. */
  function Uncached(names: seq<string>, cached: set<string>): (u: seq<string>)
    ensures |u| <= |names|
  {
    if names == [] then []
    else
      var last := names[|names| - 1];
      Uncached(names[..|names| - 1], cached) + (if last in cached then [] else [last])
  }

  /** Exactly the names without a cache file survive the filter. */
  lemma {:induction false} UncachedMembers(names: seq<string>, cached: set<string>)
    ensures forall x :: x in Uncached(names, cached) <==> x in names && x !in cached
  {
    if names != [] {
      var init := names[..|names| - 1];
      UncachedMembers(init, cached);
      assert names == init + [names[|names| - 1]];
    }
  }

  /** `s` cut, front to back, into pieces of `BATCH_SIZE` elements; the last
      piece holds what is left over. */
  function Chunks(s: seq<string>): seq<seq<string>>
    decreases |s|
  {
    if |s| <= BATCH_SIZE then (if s == [] then [] else [s])
    else [s[..BATCH_SIZE]] + Chunks(s[BATCH_SIZE..])
  }

  /** The names the planner actually sends. A batch is flushed only right
      after a name is appended to it, so when the last name of the list is
      already cached a pending partial batch is never sent. */
  function Emitted(names: seq<string>, cached: set<string>): seq<string> {
    var u := Uncached(names, cached);
    if names == [] || names[|names| - 1] !in cached || |u| % BATCH_SIZE == 0 then u
    else u[..|u| - |u| % BATCH_SIZE]
  }

  /** The per-name query parameters, in batch order. */
  function Params(batch: seq<string>): string {
    if batch == [] then ""
    else Params(batch[..|batch| - 1]) + DOMAIN_PARAM + batch[|batch| - 1]
  }

  function QueryUrl(base: string, batch: seq<string>): string {
    base + "?limit=" + IntToString(TOP_LIMIT) + Params(batch)
  }

  function PathsOf(batch: seq<string>): map<string, string> {
    map n | n in batch :: FileName(n)
  }

  function MakeQuery(base: string, batch: seq<string>): Query {
    Query(batch, PathsOf(batch), QueryUrl(base, batch))
  }

  function MakeQueries(base: string, batches: seq<seq<string>>): (qs: seq<Query>)
    ensures |qs| == |batches|
    ensures forall k :: 0 <= k < |qs| ==> qs[k] == MakeQuery(base, batches[k])
  {
    seq(|batches|, k requires 0 <= k < |batches| => MakeQuery(base, batches[k]))
  }

  /** Every request the planner issues, in issue order. */
  function Plan(names: seq<string>, cached: set<string>, base: string): seq<Query> {
    MakeQueries(base, Chunks(Emitted(names, cached)))
  }

  // ---------------------------------------------------------------------------
  // The planning loop
  // ---------------------------------------------------------------------------

  lemma {:induction false} ChunksAppend(p: seq<string>, c: seq<string>)
    requires |p| % BATCH_SIZE == 0 && 0 < |c| <= BATCH_SIZE
    ensures Chunks(p + c) == Chunks(p) + [c]
    decreases |p|
  {
    if p == [] {
      assert p + c == c;
    } else {
      var b := BATCH_SIZE;
      assert (p + c)[..b] == p[..b];
      assert (p + c)[b..] == p[b..] + c;
      ChunksAppend(p[b..], c);
      if |p| == b {
        assert p[b..] == [] && p[..b] == p;
      }
    }
  }

  lemma UncachedStep(names: seq<string>, cached: set<string>, i: nat)
    requires i < |names|
    ensures Uncached(names[..i + 1], cached)
            == Uncached(names[..i], cached) + (if names[i] in cached then [] else [names[i]])
  {
    assert names[..i + 1][..i] == names[..i];
  }

  /** Once the whole list is walked, the names moved into sent batches are
      exactly `Emitted`. */
  lemma DoneIsEmitted(names: seq<string>, cached: set<string>, done: seq<string>, batch: seq<string>)
    requires Uncached(names, cached) == done + batch
    requires |batch| < BATCH_SIZE
    requires |done| % BATCH_SIZE == 0 || (0 < |names| && names[|names| - 1] !in cached && batch == [])
    requires 0 < |names| && names[|names| - 1] !in cached ==> batch == []
    ensures done == Emitted(names, cached)
  {
    var u := Uncached(names, cached);
    if names == [] {
      assert u == [];
    } else if names[|names| - 1] !in cached {
      assert u == done;
    } else {
      assert |batch| == |u| % BATCH_SIZE;
      assert done == u[..|u| - |batch|];
    }
  }

  lemma FullBatchKeepsAlignment(n: nat)
    requires n % BATCH_SIZE == 0
    ensures (n + BATCH_SIZE) % BATCH_SIZE == 0
  {
  }

  lemma MakeQueriesAppend(base: string, batches: seq<seq<string>>, batch: seq<string>)
    ensures MakeQueries(base, batches + [batch]) == MakeQueries(base, batches) + [MakeQuery(base, batch)]
  {
  }

  lemma PathsOfAppend(batch: seq<string>, name: string)
    ensures PathsOf(batch + [name]) == PathsOf(batch)[name := FileName(name)]
  {
  }

  lemma ParamsSnoc(batch: seq<string>, k: nat)
    requires k < |batch|
    ensures Params(batch[..k + 1]) == Params(batch[..k]) + DOMAIN_PARAM + batch[k]
  {
    assert batch[..k + 1][..k] == batch[..k];
  }

  /** The URL of one request (`cloudflare/__init__.py:104-108`). */
  method BuildUrl(base: string, batch: seq<string>) returns (url: string)
    ensures url == QueryUrl(base, batch)
  {
    var params := "?limit=" + IntToString(TOP_LIMIT);
    ghost var prefix := params;
    for k := 0 to |batch|
      invariant params == prefix + Params(batch[..k])
    {
      ParamsSnoc(batch, k);
      params := params + DOMAIN_PARAM + batch[k];
    }
    assert batch[..|batch|] == batch;
    url := base + params;
  }

  /** Sending a full or final batch (`cloudflare/__init__.py:104-113`): the
      request for `batch` is appended, so the requests are those of the
      batches of `done + batch`. */
  method SendBatch(base: string, queries: seq<Query>, ghost done: seq<string>, batch: seq<string>, fpaths: map<string, string>)
    returns (queries': seq<Query>)
    requires |done| % BATCH_SIZE == 0 && 0 < |batch| <= BATCH_SIZE
    requires fpaths == PathsOf(batch)
    requires queries == MakeQueries(base, Chunks(done))
    ensures queries' == MakeQueries(base, Chunks(done + batch))
  {
    var url := BuildUrl(base, batch);
    ChunksAppend(done, batch);
    MakeQueriesAppend(base, Chunks(done), batch);
    queries' := queries + [Query(batch, fpaths, url)];
  }

  /** The request list `fetch` builds (`cloudflare/__init__.py:76-114`);
      `cached` holds the names whose cache file exists. */
  method PlanBatches(names: seq<string>, cached: set<string>, base: string) returns (queries: seq<Query>)
    ensures queries == Plan(names, cached, base)
  {
    queries := [];
    var i := 0;
    var batch: seq<string> := [];
    var fpaths: map<string, string> := map[];
    ghost var done: seq<string> := [];
    while i < |names|
      invariant 0 <= i <= |names|
      invariant Uncached(names[..i], cached) == done + batch
      invariant |batch| < BATCH_SIZE
      invariant fpaths == PathsOf(batch)
      invariant queries == MakeQueries(base, Chunks(done))
      invariant |done| % BATCH_SIZE == 0 || (i == |names| && 0 < i && names[i - 1] !in cached && batch == [])
      invariant i == |names| && 0 < i && names[i - 1] !in cached ==> batch == []
    {
      UncachedStep(names, cached, i);
      var name := names[i];
      i := i + 1;
      if name in cached {
        // Do not override existing files.
        continue;
      }
      PathsOfAppend(batch, name);
      fpaths := fpaths[name := FileName(name)];
      batch := batch + [name];
      if |batch| < BATCH_SIZE && i < |names| {
        continue;
      }
      // The guard `if not batch: break` can never fire.
      queries := SendBatch(base, queries, done, batch, fpaths);
      if |batch| == BATCH_SIZE {
        FullBatchKeepsAlignment(|done|);
      }
      done := done + batch;
      batch := [];
      fpaths := map[];
    }
    assert names[..i] == names;
    DoneIsEmitted(names, cached, done, batch);
  }

  // ---------------------------------------------------------------------------
  // What the plan guarantees
  // ---------------------------------------------------------------------------

  /** The names a request list carries, in issue order. */
  function SentNames(queries: seq<Query>): seq<string> {
    Flatten(seq(|queries|, k requires 0 <= k < |queries| => queries[k].domains))
  }

  /** Chunking keeps every name in order, makes no empty or oversized batch,
      fills every batch but the last, and makes ceil(n / BATCH_SIZE) batches. */
  lemma {:induction false} ChunksShape(s: seq<string>)
    ensures Flatten(Chunks(s)) == s
    ensures forall k :: 0 <= k < |Chunks(s)| ==> 0 < |Chunks(s)[k]| <= BATCH_SIZE
    ensures forall k :: 0 <= k < |Chunks(s)| - 1 ==> |Chunks(s)[k]| == BATCH_SIZE
    ensures |Chunks(s)| == (|s| + BATCH_SIZE - 1) / BATCH_SIZE
    decreases |s|
  {
    if |s| > BATCH_SIZE {
      var rest := s[BATCH_SIZE..];
      ChunksShape(rest);
      var cs := Chunks(s);
      assert cs[1..] == Chunks(rest);
      assert s == s[..BATCH_SIZE] + rest;
      forall k | 1 <= k < |cs| ensures cs[k] == Chunks(rest)[k - 1] { }
    } else if s != [] {
      assert Flatten([s]) == s + Flatten([]);
    }
  }

  /** A name that occurs once is in exactly one batch. */
  lemma {:induction false} ChunksDisjoint(s: seq<string>)
    requires NoDups(s)
    ensures forall k1, k2, x :: 0 <= k1 < k2 < |Chunks(s)| && x in Chunks(s)[k1] ==> x !in Chunks(s)[k2]
    decreases |s|
  {
    if |s| > BATCH_SIZE {
      var head, rest := s[..BATCH_SIZE], s[BATCH_SIZE..];
      assert NoDups(rest) by {
        forall i, j | 0 <= i < j < |rest| ensures rest[i] != rest[j] {
          assert rest[i] == s[i + BATCH_SIZE] && rest[j] == s[j + BATCH_SIZE];
        }
      }
      ChunksDisjoint(rest);
      ChunksShape(rest);
      var cs := Chunks(s);
      forall k1, k2, x | 0 <= k1 < k2 < |cs| && x in cs[k1] ensures x !in cs[k2] {
        assert cs[k2] == Chunks(rest)[k2 - 1];
        if k1 > 0 {
          assert cs[k1] == Chunks(rest)[k1 - 1];
        } else {
          var i :| 0 <= i < |head| && head[i] == x;
          forall j | 0 <= j < |rest| ensures rest[j] != x {
            assert rest[j] == s[j + BATCH_SIZE];
          }
          FlattenMember(Chunks(rest), x);
          assert x !in Chunks(rest)[k2 - 1];
        }
      }
    }
  }

  /** A batch of a list without repetitions has none either. */
  lemma {:induction false} ChunksNoDups(s: seq<string>)
    requires NoDups(s)
    ensures forall k :: 0 <= k < |Chunks(s)| ==> NoDups(Chunks(s)[k])
    decreases |s|
  {
    if |s| > BATCH_SIZE {
      var head, rest := s[..BATCH_SIZE], s[BATCH_SIZE..];
      assert NoDups(head) by {
        forall i, j | 0 <= i < j < |head| ensures head[i] != head[j] {
          assert head[i] == s[i] && head[j] == s[j];
        }
      }
      assert NoDups(rest) by {
        forall i, j | 0 <= i < j < |rest| ensures rest[i] != rest[j] {
          assert rest[i] == s[i + BATCH_SIZE] && rest[j] == s[j + BATCH_SIZE];
        }
      }
      ChunksNoDups(rest);
      var cs := Chunks(s);
      forall k | 0 <= k < |cs| ensures NoDups(cs[k]) {
        if k > 0 {
          assert cs[k] == Chunks(rest)[k - 1];
        }
      }
    }
  }

  lemma {:induction false} UncachedSorted(names: seq<string>, cached: set<string>)
    requires StrictlySorted(names)
    ensures StrictlySorted(Uncached(names, cached))
  {
    if names != [] {
      var init, last := names[..|names| - 1], names[|names| - 1];
      UncachedSorted(init, cached);
      UncachedMembers(init, cached);
      var u := Uncached(init, cached);
      forall i | 0 <= i < |u| ensures LexLess(u[i], last) {
        assert u[i] in init;
      }
    }
  }

  lemma {:induction false} UncachedAll(names: seq<string>)
    ensures Uncached(names, {}) == names
  {
    if names != [] {
      UncachedAll(names[..|names| - 1]);
      assert names == names[..|names| - 1] + [names[|names| - 1]];
    }
  }

  lemma TopLimitText()
    ensures IntToString(TOP_LIMIT) == "100"
  {
    assert NatToString(1) == "1";
    assert NatToString(10) == "10";
  }

  /** Shape of every request: a non-empty batch of at most BATCH_SIZE uncached
      names (exactly BATCH_SIZE except in the last request), a cache path for
      exactly those names, and the URL `base?limit=100&dateRange=7d&domain=...`. */
  lemma PlanShape(names: seq<string>, cached: set<string>, base: string)
    ensures forall k :: 0 <= k < |Plan(names, cached, base)| ==>
      0 < |Plan(names, cached, base)[k].domains| <= BATCH_SIZE
    ensures forall k :: 0 <= k < |Plan(names, cached, base)| - 1 ==>
      |Plan(names, cached, base)[k].domains| == BATCH_SIZE
    ensures forall k, d :: 0 <= k < |Plan(names, cached, base)| && d in Plan(names, cached, base)[k].domains ==>
      d in names && d !in cached
    ensures forall k, d :: 0 <= k < |Plan(names, cached, base)| ==>
      (d in Plan(names, cached, base)[k].fpaths <==> d in Plan(names, cached, base)[k].domains)
    ensures forall k, d :: 0 <= k < |Plan(names, cached, base)| && d in Plan(names, cached, base)[k].fpaths ==>
      Plan(names, cached, base)[k].fpaths[d] == FileName(d)
    ensures forall k :: 0 <= k < |Plan(names, cached, base)| ==>
      Plan(names, cached, base)[k].url == base + "?limit=100" + Params(Plan(names, cached, base)[k].domains)
  {
    var e := Emitted(names, cached);
    var cs := Chunks(e);
    ChunksShape(e);
    TopLimitText();
    UncachedMembers(names, cached);
    forall k, d | 0 <= k < |cs| && d in cs[k] ensures d in names && d !in cached {
      FlattenMember(cs, d);
      assert d in Uncached(names, cached);
    }
  }

  lemma SentNamesOfPlan(names: seq<string>, cached: set<string>, base: string)
    ensures SentNames(Plan(names, cached, base)) == Flatten(Chunks(Emitted(names, cached)))
  {
    var qs := Plan(names, cached, base);
    assert seq(|qs|, k requires 0 <= k < |qs| => qs[k].domains) == Chunks(Emitted(names, cached));
  }

  /** The emitted names are a prefix of the uncached names, and all of them
      unless a partial batch is pending when the last name is cached. */
  lemma EmittedPrefix(names: seq<string>, cached: set<string>)
    ensures Emitted(names, cached) <= Uncached(names, cached)
    ensures Emitted(names, cached) == Uncached(names, cached) <==>
      names == [] || names[|names| - 1] !in cached || |Uncached(names, cached)| % BATCH_SIZE == 0
  {
    var u := Uncached(names, cached);
    if !(names == [] || names[|names| - 1] !in cached || |u| % BATCH_SIZE == 0) {
      assert |Emitted(names, cached)| < |u|;
    }
  }

  /** The sent names are, in order, the uncached names, except that a partial
      last batch is dropped when the last name of the list is already cached;
      from a sorted list they come out sorted, hence without repetition. */
  lemma PlanCoverage(names: seq<string>, cached: set<string>, base: string)
    ensures SentNames(Plan(names, cached, base)) <= Uncached(names, cached)
    ensures SentNames(Plan(names, cached, base)) == Uncached(names, cached) <==>
      names == [] || names[|names| - 1] !in cached || |Uncached(names, cached)| % BATCH_SIZE == 0
    ensures StrictlySorted(names) ==> StrictlySorted(SentNames(Plan(names, cached, base)))
    ensures names == [] ==> Plan(names, cached, base) == []
  {
    SentNamesOfPlan(names, cached, base);
    ChunksShape(Emitted(names, cached));
    EmittedPrefix(names, cached);
    if StrictlySorted(names) {
      UncachedSorted(names, cached);
    }
  }

  /** With nothing cached, n names make exactly ceil(n / BATCH_SIZE) requests. */
  lemma PlanCount(names: seq<string>, base: string)
    ensures |Plan(names, {}, base)| == (|names| + BATCH_SIZE - 1) / BATCH_SIZE
  {
    UncachedAll(names);
    ChunksShape(names);
  }

  /** From a sorted name list, no name is requested twice, whether by two
      requests or twice within one. */
  lemma PlanDisjoint(names: seq<string>, cached: set<string>, base: string)
    requires StrictlySorted(names)
    ensures forall k1, k2, d :: 0 <= k1 < k2 < |Plan(names, cached, base)| && d in Plan(names, cached, base)[k1].domains ==>
      d !in Plan(names, cached, base)[k2].domains
    ensures forall k :: 0 <= k < |Plan(names, cached, base)| ==> NoDups(Plan(names, cached, base)[k].domains)
  {
    PlanCoverage(names, cached, base);
    SentNamesOfPlan(names, cached, base);
    ChunksShape(Emitted(names, cached));
    StrictlySortedNoDups(Emitted(names, cached));
    ChunksDisjoint(Emitted(names, cached));
    ChunksNoDups(Emitted(names, cached));
  }
}
