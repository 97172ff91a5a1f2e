# Internet Yellow Pages crawlers: a Dafny model of three crawlers

This project models three crawlers of the Internet Yellow Pages (IYP)
knowledge graph, in Dafny 4.11, and proves properties of that model.

- **`DnsTopCrawler`** (`iyp/crawlers/cloudflare/__init__.py`) is the base
  class of the Cloudflare Radar "top locations / top ASes" crawlers.
  - `fetch` walks the sorted list of ranked domain names.
  - It skips every name whose cache file `data_<name>.json` already exists
    in the temporary directory.
  - It groups the other names into requests of `BATCH_SIZE` (10) names each.
    Each request's URL is `base?limit=100&dateRange=7d&domain=...`.
  - For every reply that succeeds, it writes each result to the cache file of
    the name at the same position in the batch, skipping the `meta` entry.
  - The first successful reply that carries a parseable date sets the
    reference modification time.
  - While no modification time is set, a reply whose `meta.dateRange` is
    empty is abandoned as a whole: looking up its first element raises an
    `IndexError` that the date handler does not catch.
  - `run` fetches, then calls `compute_link` on every item of every `.json`
    file in the directory. It then calls `map_links`, and finally adds the
    `QUERIED_FROM` links.
- **Ranking-bucket `Crawler`** (`iyp/crawlers/cloudflare/ranking_bucket.py`).
  - It lists the Cloudflare ranking datasets. For each dataset it requests
    the download URL, then downloads the ranking file.
  - It keeps the distinct domain names after the header line.
  - It gets or creates the DomainName nodes of all kept domains in one call.
  - For each kept dataset, it gets the Ranking node, then adds one `RANK` link
    per domain.
- **PeeringDB organization `Crawler`** (`iyp/crawlers/peeringdb/org.py`).
  - For every organization PeeringDB lists, it finds the organization's
    wikibase item through the memo `orgid2qid`, creating the item when the id
    is not in the memo.
  - It then upserts the organization's statements:
    - `instance of organization`;
    - the stripped name;
    - the website, when it is truthy;
    - the country, when the alpha-2 code is known and the country resolves to
      a QID.

## How the model is built

**Pure specifications.**
- Every loop of the source has a specification function. Most of these
  recurse on a prefix, so that they follow a left-to-right loop one element
  at a time.
- The DNS planner has three such functions:
  - `Uncached` filters out cached names;
  - `Chunks` cuts a sequence into batches;
  - `Emitted` gives the names that are actually sent.
- Reply handling has `Demux` for one reply, and `ProcessAll` for all replies
  in completion order.
- The ranking-bucket crawler has `Collect` for the first loop and `LinkPhase`
  for the second.
- The PeeringDB crawler has `OrgQidStep`, `UpdateOrgStep` and `UpdateAll`.

**Classes.**
- The crawlers become classes whose fields are the mutable state of the
  Python objects:
  - the temporary directory, as a map from file name to entry;
  - `reference['reference_time_modification']`;
  - `links`;
  - `orgid2qid`;
  - the log of graph or wikibase calls.
- Their methods run the same loops as the source. Each method's `ensures`
  ties the new state to the specification function of the old state.

**Lemmas.** These state what the source promises or relies on:
- batch shape and coverage;
- one cache file per name;
- once-only setting of the modification time;
- order independence of the directory scan;
- the memo's get-or-create behaviour;
- the number of `add_item` calls.

**Modules.**
- `Common` holds `Option`, `Date`, `Flatten` and permutations.
- `Text` holds `splitlines`, `strip`, `endswith` and `str(int)`.
- `NameOrder` holds Python string ordering and `sorted(set(...))`.
- `DnsTopPlan`, `DnsTopFetch` and `DnsTop` hold the DNS crawler.
- `RankingBucket` holds the ranking-bucket crawler.
- `PeeringdbOrg` holds the PeeringDB crawler.

**Environment.** Everything the crawlers get from outside becomes a
parameter of the model:
- HTTP answers: `respond`, `post`, `get`, `listing`, `reply`;
- the order in which requests complete: `order`;
- graph lookups: `getNodes`, `rankingId`;
- wikibase lookups: `Wiki.pid`, `Wiki.qid`, `Wiki.mint`;
- the subclass hooks `compute_link` and `map_links`.

**A behaviour of the source that the model keeps.**
- The planner sends a batch only right after it appends a name to that batch.
- So when the last name of the list already has a cache file, a pending
  partial batch is never sent. For example, names `["a", "b"]` with only
  `b` cached send no request at all.
- `DnsTopPlan.PlanCoverage` states exactly when the sent names equal the
  uncached names.

## Model

| member | source | states |
|---|---|---|
| `Common.FlattenAppend` | iyp/crawlers/cloudflare/__init__.py:76-114 | Flattening a list of batches with one more batch appends that batch's names. |
| `Common.FlattenMember` | iyp/crawlers/cloudflare/__init__.py:76-114 | A name is in the flattened batches exactly when some batch contains it. |
| `Text.SplitLinesShape` | iyp/crawlers/cloudflare/ranking_bucket.py:91 | `splitlines()`: no line contains a line break, and there are at most as many lines as characters. |
| `Text.SplitLinesRoundTrip` | iyp/crawlers/cloudflare/ranking_bucket.py:91 | Joining the lines back, each followed by `'\n'`, gives the text, or the text plus a final `'\n'` when it did not end in one. |
| `Text.LeadingSpaceSpec` | iyp/crawlers/peeringdb/org.py:63 | The leading-whitespace count covers only whitespace and stops at the first other character. |
| `Text.TrailingSpaceSpec` | iyp/crawlers/peeringdb/org.py:63 | The trailing-whitespace count covers only whitespace and stops at the last other character. |
| `Text.StripSpec` | iyp/crawlers/peeringdb/org.py:63 | `strip()` returns a slice of the input that is cut only at whitespace and neither starts nor ends with whitespace. |
| `Text.NatToStringRoundTrip` | iyp/crawlers/peeringdb/org.py:86 | Parsing the decimal rendering of a natural number gives the number back. |
| `Text.IntToStringRoundTrip` | iyp/crawlers/peeringdb/org.py:86 | `int(str(i)) == i` for every integer, negative ones included. |
| `Text.IntToStringInjective` | iyp/crawlers/peeringdb/org.py:86-97 | Distinct organization ids give distinct memo keys `str(id)`. |
| `NameOrder.LexLessIrreflexive` | iyp/crawlers/cloudflare/__init__.py:52 | No string is less than itself under Python's string order. |
| `NameOrder.LexLessTransitive` | iyp/crawlers/cloudflare/__init__.py:52 | Python's string order is transitive. |
| `NameOrder.LexLessTotal` | iyp/crawlers/cloudflare/__init__.py:52 | Any two distinct strings are ordered one way or the other. |
| `NameOrder.LexLessAsymmetric` | iyp/crawlers/cloudflare/__init__.py:52 | No two strings are each less than the other. |
| `NameOrder.StrictlySortedNoDups` | iyp/crawlers/cloudflare/__init__.py:52 | A strictly increasing list has no repeated name. |
| `NameOrder.Least` | iyp/crawlers/cloudflare/__init__.py:52 | Returns a member of the non-empty set that is less than every other member. |
| `NameOrder.SortNames` | iyp/crawlers/cloudflare/__init__.py:52 | `list(sorted(set))`: strictly increasing, exactly the set's elements, and as long as the set. |
| `NameOrder.SameElementsBothEmpty` | iyp/crawlers/cloudflare/__init__.py:52 | Two lists with the same elements are both empty or both non-empty. |
| `NameOrder.SortedUnique` | iyp/crawlers/cloudflare/__init__.py:52 | Two strictly sorted lists with the same elements are equal, so the sorted name list is determined by the set. |
| `DnsTopPlan.FileNameInjective` | iyp/crawlers/cloudflare/__init__.py:86-87 | Distinct names never share a cache file `data_<name>.json`. |
| `DnsTopPlan.UncachedMembers` | iyp/crawlers/cloudflare/__init__.py:85-90 | The filter keeps exactly the names that have no cache file. |
| `DnsTopPlan.ChunksAppend` | iyp/crawlers/cloudflare/__init__.py:94-113 | After whole batches, a new batch of 1 to BATCH_SIZE names becomes exactly one more batch. |
| `DnsTopPlan.DoneIsEmitted` | iyp/crawlers/cloudflare/__init__.py:82-114 | When the walk ends, the names placed in sent batches are exactly the emitted ones: all uncached names, minus a pending partial batch if the last name was cached. |
| `DnsTopPlan.BuildUrl` | iyp/crawlers/cloudflare/__init__.py:104-108 | The loop that builds the URL produces `base?limit=100` followed by `&dateRange=7d&domain=<d>` for each name of the batch, in order. |
| `DnsTopPlan.SendBatch` | iyp/crawlers/cloudflare/__init__.py:104-113 | Sending a batch after whole batches appends its request, so the requests become those of the batches of the names sent so far plus this batch. |
| `DnsTopPlan.PlanBatches` | iyp/crawlers/cloudflare/__init__.py:76-114 | The planning loop issues exactly `Plan(names, cached, base)`: the emitted names, cut into batches of BATCH_SIZE. |
| `DnsTopPlan.ChunksShape` | iyp/crawlers/cloudflare/__init__.py:94-113 | Batching loses and reorders nothing; every batch has 1 to BATCH_SIZE names; all but the last are full; there are ceil(n/BATCH_SIZE) batches. |
| `DnsTopPlan.ChunksDisjoint` | iyp/crawlers/cloudflare/__init__.py:94-113 | From a list without repeats, no name lands in two batches. |
| `DnsTopPlan.ChunksNoDups` | iyp/crawlers/cloudflare/__init__.py:94-113 | From a list without repeats, no batch holds a name twice. |
| `DnsTopPlan.UncachedSorted` | iyp/crawlers/cloudflare/__init__.py:82-92 | Filtering a sorted name list keeps it sorted. |
| `DnsTopPlan.UncachedAll` | iyp/crawlers/cloudflare/__init__.py:82-92 | With no cache files, the filter keeps every name. |
| `DnsTopPlan.TopLimitText` | iyp/crawlers/cloudflare/__init__.py:14 | `TOP_LIMIT` renders as `100` in the URL. |
| `DnsTopPlan.EmittedPrefix` | iyp/crawlers/cloudflare/__init__.py:82-114 | The emitted names are a prefix of the uncached names, and equal them exactly when the list is empty, its last name is uncached, or the uncached count is a multiple of BATCH_SIZE. |
| `DnsTopPlan.PlanShape` | iyp/crawlers/cloudflare/__init__.py:82-114 | Every request has 1 to BATCH_SIZE names, full except the last; each name is a listed name without a cache file; `fpaths` has exactly the batch's names, each mapped to its own cache file; the URL is `base?limit=100&dateRange=7d&domain=...`. |
| `DnsTopPlan.SentNamesOfPlan` | iyp/crawlers/cloudflare/__init__.py:76-114 | The names carried by the requests, in issue order, are the batches of the emitted names flattened. |
| `DnsTopPlan.PlanCoverage` | iyp/crawlers/cloudflare/__init__.py:82-114 | The sent names are a prefix of the uncached names; they equal them exactly when the list is empty, or its last name is uncached, or the uncached count is a multiple of BATCH_SIZE; a sorted input gives sorted sent names; no names means no request. |
| `DnsTopPlan.PlanCount` | iyp/crawlers/cloudflare/__init__.py:82-114 | With nothing cached, n names make exactly ceil(n/BATCH_SIZE) requests. |
| `DnsTopPlan.PlanDisjoint` | iyp/crawlers/cloudflare/__init__.py:52-114 | From the sorted name list, no name is requested twice: not by two requests, and not twice within one request. |
| `DnsTopFetch.DemuxCompletes` | iyp/crawlers/cloudflare/__init__.py:136-145 | The walk over a reply's entries finishes without an exception exactly when every non-`meta` entry has a name at its position, with a path. |
| `DnsTopFetch.DemuxWritesFromEntries` | iyp/crawlers/cloudflare/__init__.py:136-141 | Every write comes from a non-`meta` entry; it writes `{name: result}` to the cache file of the name at that entry's position. |
| `DnsTopFetch.DemuxPrefix` | iyp/crawlers/cloudflare/__init__.py:136-145 | Later entries never undo earlier writes; after the first failing entry nothing more is written. |
| `DnsTopFetch.DemuxWritesEntry` | iyp/crawlers/cloudflare/__init__.py:136-141 | Every non-`meta` entry reached before a failure is written, to its name's file. |
| `DnsTopFetch.DemuxAligned` | iyp/crawlers/cloudflare/__init__.py:136-141 | When `meta` is absent or last, the i-th result goes to the file of the i-th name of the batch, and the walk completes. |
| `DnsTopFetch.ApplyWritesConcat` | iyp/crawlers/cloudflare/__init__.py:116-145 | Applying two runs of writes one after the other equals applying their concatenation. |
| `DnsTopFetch.ProcessAllWrites` | iyp/crawlers/cloudflare/__init__.py:116-145 | The cache after all replies is the old cache with every write applied in completion order; a reply whose date lookup raises contributes writes only if a modification time was already set when it was handled. |
| `DnsTopFetch.ProcessAllTime` | iyp/crawlers/cloudflare/__init__.py:127-134 | After the replies, the modification time is the one already set, or else the date of the first successful reply, in completion order, that carries one. |
| `DnsTopFetch.DateRaisesDependsOnTime` | iyp/crawlers/cloudflare/__init__.py:127-134 | A reply with an empty `dateRange` handled while no modification time is set changes nothing, because the `IndexError` escapes the date handler and the outer handler abandons the reply; handled once a time is set, its entries are written like any other reply's. |
| `DnsTopFetch.ApplyWritesKeys` | iyp/crawlers/cloudflare/__init__.py:140-141 | Files are only created or overwritten, never removed. |
| `DnsTopFetch.ApplyWritesUntouched` | iyp/crawlers/cloudflare/__init__.py:140-141 | A file that no write targets keeps its content. |
| `DnsTopFetch.ApplyWritesLast` | iyp/crawlers/cloudflare/__init__.py:140-141 | The last write to a path decides that file's content. |
| `DnsTopFetch.ApplyWritesAgree` | iyp/crawlers/cloudflare/__init__.py:140-141 | When no two different writes target the same file, every written file holds its own write, whatever the order of the writes. |
| `DnsTopFetch.SuccessfulWritesInAll` | iyp/crawlers/cloudflare/__init__.py:116-145 | The writes of any reply that is written are among all writes. |
| `DnsTopFetch.SuccessfulWritesPresent` | iyp/crawlers/cloudflare/__init__.py:116-145 | Each write of a reply that is written leaves its file in the cache, whatever other requests did. |
| `DnsTopFetch.UnwrittenUnchanged` | iyp/crawlers/cloudflare/__init__.py:116-145 | A file that no written reply writes keeps its presence and content; failed requests change nothing. |
| `DnsTopFetch.AllWritesFromSuccesses` | iyp/crawlers/cloudflare/__init__.py:116-145 | Every write comes from a reply that was written: a success, or a reply whose date lookup raises handled after the modification time was set. |
| `DnsTopFetch.ModTimeKept` | iyp/crawlers/cloudflare/__init__.py:127-134 | Once the modification time is set, no later reply overwrites it. |
| `DnsTopFetch.FirstDateAppend` | iyp/crawlers/cloudflare/__init__.py:127-134 | One more completed request adds its date only when no earlier successful reply carried one. |
| `DnsTopFetch.ModTimeFromFirstDate` | iyp/crawlers/cloudflare/__init__.py:127-134 | Starting unset, the modification time ends as the date of the first successful reply, in completion order, that carries one. |
| `DnsTop.DnsTopCrawler.constructor` | iyp/crawlers/cloudflare/__init__.py:29-56 | `names` is the strictly sorted list of the ranked domain names (host names contribute none); the cache, links and modification time start empty. |
| `DnsTop.DnsTopCrawler.WriteEntries` | iyp/crawlers/cloudflare/__init__.py:136-141 | The cache becomes the old cache with the reply's writes applied, and the result says whether the walk completed; nothing else changes. |
| `DnsTop.DnsTopCrawler.HandleReplies` | iyp/crawlers/cloudflare/__init__.py:116-145 | Handling the replies in completion order leaves the cache and the modification time exactly as `ProcessAll` gives: failures change nothing; a success sets an unset time and then writes; a reply whose date lookup raises is skipped while no time is set and written otherwise. |
| `DnsTop.DnsTopCrawler.Fetch` | iyp/crawlers/cloudflare/__init__.py:58-145 | Issues exactly the planned requests over the names not cached at the start; the cache and modification time end as `ProcessAll` gives for the completion order; links are untouched. |
| `DnsTop.DnsTopCrawler.ComputeLinks` | iyp/crawlers/cloudflare/__init__.py:162-163 | `compute_link` is called on each item of one file, in order, and `links` is folded accordingly. |
| `DnsTop.DnsTopCrawler.VisitFile` | iyp/crawlers/cloudflare/__init__.py:155-163 | Reading one more file extends the `compute_link` calls and the folded links by exactly that file's items; an empty record adds nothing. |
| `DnsTop.DnsTopCrawler.ScanCache` | iyp/crawlers/cloudflare/__init__.py:152-163 | Visits each regular `.json` file exactly once and no other entry; `compute_link` sees the items of the visited files in visiting order; the cache is unchanged. |
| `DnsTop.DnsTopCrawler.Run` | iyp/crawlers/cloudflare/__init__.py:147-167 | Fetches as `Fetch` does, then scans as `ScanCache` does, then applies `map_links`, then adds one `QUERIED_FROM` batch holding the final links. |
| `DnsTop.FoldLinksConcat` | iyp/crawlers/cloudflare/__init__.py:152-163 | Calling `compute_link` on two runs of items equals calling it on their concatenation. |
| `DnsTop.ItemsOfConcat` | iyp/crawlers/cloudflare/__init__.py:152-163 | The items of two runs of files are the items of each run, concatenated. |
| `DnsTop.ItemsOfRemove` | iyp/crawlers/cloudflare/__init__.py:152-163 | Dropping one visited file drops exactly that file's items, as a multiset. |
| `DnsTop.RemoveAt` | iyp/crawlers/cloudflare/__init__.py:152 | Removing one position of a listing without repeats removes exactly that file and keeps the listing free of repeats. |
| `DnsTop.ItemsOfOrderIndependent` | iyp/crawlers/cloudflare/__init__.py:152-163 | Whatever order `os.scandir` lists the files in, `compute_link` receives the same multiset of items. |
| `DnsTop.FetchWritesOwnFiles` | iyp/crawlers/cloudflare/__init__.py:85-92 | Every cache write of a fetch goes to `data_<name>.json` of a listed name whose file did not exist at the start, so existing files are never overwritten. |
| `DnsTop.WriteSource` | iyp/crawlers/cloudflare/__init__.py:85-141 | Every write of a fetch is `{name: result}` to `data_<name>.json`, where the name is at some position of some planned request and the result is the entry at that position of that request's reply. |
| `DnsTop.FetchWritesAgree` | iyp/crawlers/cloudflare/__init__.py:85-141 | From the sorted name list, two writes of a fetch to the same file are the same write. |
| `DnsTop.FetchWritesContent` | iyp/crawlers/cloudflare/__init__.py:85-145 | From the sorted name list, after a fetch every written file holds exactly `{name: result}` for its own name, whatever the completion order. |
| `DnsTop.FetchedNamesCached` | iyp/crawlers/cloudflare/__init__.py:85-90 | Every name whose result was written counts as cached afterwards, so a second fetch skips it. |
| `RankingBucket.DedupSpec` | iyp/crawlers/cloudflare/ranking_bucket.py:91 | `set(...)`: no repeats, exactly the input's elements, and no longer than the input. |
| `RankingBucket.DatasetDomainsSpec` | iyp/crawlers/cloudflare/ranking_bucket.py:90-91 | A dataset's domains are without repeats, and are exactly the lines of the file after the header. |
| `RankingBucket.RankingBucketCrawler.constructor` | iyp/crawlers/cloudflare/ranking_bucket.py:31-33 | The crawler starts with no modification time and no graph calls. |
| `RankingBucket.RankingBucketCrawler.CollectDatasets` | iyp/crawlers/cloudflare/ranking_bucket.py:63-93 | The first loop yields the kept datasets, `all_domains` and the modification time that `Collect` gives; no graph call is made. |
| `RankingBucket.RankingBucketCrawler.AddDatasetLinks` | iyp/crawlers/cloudflare/ranking_bucket.py:102-117 | One dataset makes the `get_node` call and then, when every domain has an id, its RANK links if there are any; otherwise it reports the `KeyError`. |
| `RankingBucket.RankingBucketCrawler.AddRankLinks` | iyp/crawlers/cloudflare/ranking_bucket.py:101-117 | The second loop makes the calls `LinkPhase` gives and reports whether it ran to the end without a `KeyError`. |
| `RankingBucket.RankingBucketCrawler.Run` | iyp/crawlers/cloudflare/ranking_bucket.py:35-117 | An HTTP error raises; a listing without a true `success` raises and changes nothing; otherwise one node lookup for all domains, then the link phase, raising `KeyError` exactly when that phase fails. |
| `RankingBucket.LinkPhaseStops` | iyp/crawlers/cloudflare/ranking_bucket.py:101-117 | After the first `KeyError`, no further dataset is processed. |
| `RankingBucket.CollectUnion` | iyp/crawlers/cloudflare/ranking_bucket.py:91-93 | `all_domains` is exactly the union of the domains of the kept datasets. |
| `RankingBucket.CollectKeptLength` | iyp/crawlers/cloudflare/ranking_bucket.py:63-93 | No more datasets are kept than were listed. |
| `RankingBucket.KeptSource` | iyp/crawlers/cloudflare/ranking_bucket.py:76-93 | Every kept dataset is a listed dataset whose URL request and download both returned 200, with that download's domains. |
| `RankingBucket.KeptHas` | iyp/crawlers/cloudflare/ranking_bucket.py:76-93 | Every listed dataset whose two requests returned 200 is kept. |
| `RankingBucket.CollectKept` | iyp/crawlers/cloudflare/ranking_bucket.py:76-93 | The kept datasets are exactly those whose URL request and download both returned 200, each with its own domains. |
| `RankingBucket.CollectModTime` | iyp/crawlers/cloudflare/ranking_bucket.py:66-74 | A modification time already set is kept; otherwise it comes from the first dataset that carries one, downloaded or not. |
| `RankingBucket.FirstTargetAppend` | iyp/crawlers/cloudflare/ranking_bucket.py:66-74 | One more dataset contributes its date only when no earlier dataset carried one. |
| `RankingBucket.FirstTargetPrefix` | iyp/crawlers/cloudflare/ranking_bucket.py:66-74 | Once a date is found, later datasets never change which date is first. |
| `RankingBucket.SkippedNotKept` | iyp/crawlers/cloudflare/ranking_bucket.py:75-86 | A dataset whose requests fail leaves fewer kept datasets than listed ones. |
| `RankingBucket.FailedDatasetSetsModTime` | iyp/crawlers/cloudflare/ranking_bucket.py:66-80 | For any listing, the first dataset that carries a date sets the modification time even when its URL request fails; that dataset is not kept, so fewer datasets are kept than listed. |
| `RankingBucket.DomainLinksSpec` | iyp/crawlers/cloudflare/ranking_bucket.py:113-114 | The links exist exactly when every domain has a node id; there is one link per domain, from that domain's node to the ranking node, carrying the reference time. |
| `RankingBucket.AddLinksNonEmpty` | iyp/crawlers/cloudflare/ranking_bucket.py:115-117 | `batch_add_links` is only called with `RANK` and a non-empty list. |
| `RankingBucket.LinkPhaseOk` | iyp/crawlers/cloudflare/ranking_bucket.py:101-117 | The link phase raises exactly when some kept domain has no node id. |
| `RankingBucket.LinkPhaseCalls` | iyp/crawlers/cloudflare/ranking_bucket.py:101-117 | Without a `KeyError`, the calls are those of each dataset, in order: one `get_node`, then links when there are any. |
| `RankingBucket.AllDomainsKnown` | iyp/crawlers/cloudflare/ranking_bucket.py:95-117 | When the node lookup answers for every name it was given, no `KeyError` can occur. |
| `PeeringdbOrg.PeeringdbOrgCrawler.constructor` | iyp/crawlers/peeringdb/org.py:15-41 | The memo is the existing id-to-QID map, the log is empty, and the reference is (source, PeeringDB), (reference URL, the API URL), (point in time, today). |
| `PeeringdbOrg.PeeringdbOrgCrawler.OrgQid` | iyp/crawlers/peeringdb/org.py:81-99 | Returns the QID and new state that `OrgQidStep` gives: the memoized QID, or a new item added and remembered. |
| `PeeringdbOrg.PeeringdbOrgCrawler.UpdateOrg` | iyp/crawlers/peeringdb/org.py:57-79 | Finds or creates the item, then upserts the organization's statements under it, as `UpdateOrgStep` gives. |
| `PeeringdbOrg.PeeringdbOrgCrawler.Run` | iyp/crawlers/peeringdb/org.py:43-55 | A non-200 listing exits with no wikibase call; otherwise every organization is updated in listed order, as `UpdateAll` gives. |
| `PeeringdbOrg.OrgStatementsShape` | iyp/crawlers/peeringdb/org.py:60-73 | The list holds `instance of organization`, then the stripped name with the reference, then the website iff it is truthy, then the country last iff its code is known and resolves to a QID; every statement but the first carries the reference. |
| `PeeringdbOrg.NameIsStripped` | iyp/crawlers/peeringdb/org.py:63 | The name statement holds the name cut only at surrounding whitespace, with none left at either end. |
| `PeeringdbOrg.AddCountAppend` | iyp/crawlers/peeringdb/org.py:94-95 | Counting `add_item` calls is additive over concatenated logs. |
| `PeeringdbOrg.OrgQidMemo` | iyp/crawlers/peeringdb/org.py:81-99 | A remembered id gets its QID and nothing changes; a new id causes exactly one `add_item`, and the memo gains exactly that entry. |
| `PeeringdbOrg.OrgQidIdempotent` | iyp/crawlers/peeringdb/org.py:81-99 | A second lookup of the same id returns the same QID and changes nothing. |
| `PeeringdbOrg.OrgKeysAppend` | iyp/crawlers/peeringdb/org.py:86 | The keys of a list of organizations grow by the key of each appended organization. |
| `PeeringdbOrg.UpdateOrgMemo` | iyp/crawlers/peeringdb/org.py:57-99 | One `update_org` adds the organization's key, keeps old entries, and calls `add_item` once iff the key was new. |
| `PeeringdbOrg.UpdateAllMemo` | iyp/crawlers/peeringdb/org.py:43-99 | After a run, the memo keys are the old keys plus one per organization id, and old entries are unchanged. |
| `PeeringdbOrg.UpdateAllAddCount` | iyp/crawlers/peeringdb/org.py:43-99 | `add_item` is called once per distinct organization id that was not in the memo, however often the id occurs. |
| `PeeringdbOrg.NewKeysStep` | iyp/crawlers/peeringdb/org.py:86-97 | Adding a key adds one new key exactly when it is neither remembered nor already seen. |
| `PeeringdbOrg.UpdateAllQids` | iyp/crawlers/peeringdb/org.py:57-99 | Every QID that `update_org` returns is the one the final memo holds for that organization's id. |
| `PeeringdbOrg.UpsertsAppend` | iyp/crawlers/peeringdb/org.py:77 | The upserts of concatenated logs are the upserts of each log, concatenated. |
| `PeeringdbOrg.UpdateOrgUpserts` | iyp/crawlers/peeringdb/org.py:76-77 | One `update_org` makes exactly one upsert, after the earlier ones, under the QID it returns. |
| `PeeringdbOrg.UpdateAllUpserts` | iyp/crawlers/peeringdb/org.py:43-79 | A run makes one upsert per organization, in order, each under that organization's QID, with its statement list and the update summary. |

## Left out

- HTTP, retries, `FuturesSession`, API keys, `config.json`, logging, `argparse` and the `__main__` blocks are not modelled. Every HTTP answer is a parameter (`respond`, `post`, `get`, `listing`, `reply`). A request that raises instead of answering is modelled only where a line below says so.
- Concurrency is not modelled. `as_completed` is a parameter `order`, a permutation of the request indices; the model covers every such order, not a particular one.
- JSON decoding is not modelled. In the DNS crawler a reply is either already parsed into ordered `(key, value)` entries, or a failure (`TransportFail` for a request that raises or has an error status, `EnvelopeFail` for a body that is not JSON, lacks `success` or `result`, reports `success` false, or has a `result` that is not an object). A listing request that raises (a transport error, or a body that is not JSON) is not a separate case: in the ranking-bucket crawler it ends `run` with nothing changed, as `Listing.HttpError` does; in the PeeringDB crawler it ends `run` before any wikibase call, as `OrgReply.HttpError` does, but as an exception rather than `sys.exit`.
- `RankingBucket.RankingBucketCrawler.Run`: inside the dataset loop, the URL request (`iyp/crawlers/cloudflare/ranking_bucket.py:77`) and the download (`:85`) can raise a connection error or timeout, and a 200 URL reply whose body is not JSON makes `req.json()` raise (`:82`, `:84`). None of these is caught, so the source's `run` aborts before `batch_get_nodes_by_single_prop`: no `RANK` link and no node is created, while the modification time may already be set from an earlier or the current dataset (`:66-74`). The model's `post` and `get` always return a status, so `CollectDatasets` and `Run` do not represent this abort; `Run` always reaches the link phase once the listing passes its checks.
- `datetime.strptime` is not modelled. A date is given already parsed, or as absent when the date handler catches the failure to read it (a missing key, a value of the wrong type, a string that does not parse). An empty `dateRange`, whose `IndexError` the date handler does not catch, is the separate outcome `DateRaises`.
- The filesystem is a map from file name to entry. `create_tmp_dir` is modelled by the caller's `start` map, and `os.path.join` by the file name alone.
- The graph database is a log of calls (`GraphCall`, `QUERIED_FROM` links). The node ids returned by `batch_get_nodes_by_single_prop` and `get_node` are parameters. The graph query in the `DnsTopCrawler` constructor is given as its result, `existing`.
- `compute_link` and `map_links` raise `NotImplementedError` in the base class, and the subclasses that define them are not part of this model. Here `compute_link` is a pure function from the current `links` and one item to the new `links`, and `map_links` a pure function from `links` to `links`. The model therefore does not capture the `to_nodes` set the base class keeps beside `links` (`iyp/crawlers/cloudflare/__init__.py:53-55`), which subclasses fill in `compute_link`, nor the graph queries `map_links` makes to fetch or create the destination nodes.
- `DnsTop.DnsTopCrawler.ScanCache`: every cache entry is a directory or a file holding a parsed JSON object. A `.json` file that is not valid JSON makes `json.load` raise, and a file whose content is truthy but not an object (for example `[1]`) makes `.items()` raise; either aborts the whole `run`. The model does not capture this failure. The source skips every falsy content (`{}`, `[]`, `null`, `0`, `""`, `false`); the model has only the empty object among them.
- `iyp/crawlers/cloudflare/top100.py` and `iyp/crawlers/openintel/crux.py` are not part of this model.
- `BaseCrawler` is not part of this model. The modification time therefore starts unset in both Cloudflare crawlers. `unit_test`, `close` and the `reference` keys other than the modification time are not modelled.
- `Text.SplitLines`: only `'\n'` is a line boundary. Python's `splitlines` also splits at `'\r'`, `'\r\n'` and other separators.
- `RankingBucket.Dedup`: models `set(...)` in first-occurrence order. Python's set iteration order is unspecified; what the model states about the domains (membership, no repeats) does not depend on it.
- The ranking-bucket crawler assumes that every dataset has `id`, `title`, `description` and `meta.top`, and that the URL reply has `result.dataset.url`. A `KeyError` on those fields is not modelled. The `KeyError` from `domain_ids[domain]` is modelled.
- `Wikihandy` is not modelled. `get_pid`, `get_qid` and the QID that `add_item` returns are parameters (`Wiki.pid`, `Wiki.qid`, `Wiki.mint` of the number of earlier calls).
- The PeeringDB constructor's `get_qid(ORGID_LABEL, create=...)` and `extid2qid` are given as their results. `wh.login`, `wh.today` and the progress output are not modelled.
- The `iso3166` country table is a parameter `alpha2`, mapping each code to its country name.
