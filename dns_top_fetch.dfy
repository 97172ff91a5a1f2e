/** Reply handling of the Cloudflare "top entities" crawlers
    (`DnsTopCrawler.fetch`, second loop): every completed request either
    fails as a whole, or has its per-name results written to the cache, one
    file per name, matched to names by position. */
module DnsTopFetch {
  import opened Common
  import opened DnsTopPlan

  /** How one request ended, as far as the crawler can tell:
      - `TransportFail`: the request raised, or its status is an error;
      - `EnvelopeFail`: the body is not JSON, has no `success`/`result`, or
        reports `success` false;
      - `Ok`: the `result` object, as its ordered `(key, value)` entries, and
        the `meta.dateRange[0].endTime` timestamp, or `None` when looking it
        up fails in a way the date handler catches (a missing key, a value of
        the wrong type, a string that does not parse);
      - `DateRaises`: like `Ok`, but `meta.dateRange` is empty, so looking up
        its first element raises `IndexError`, which the date handler does
        not catch. That lookup only happens while no modification time is
        set. */
  datatype Outcome<V> =
    | TransportFail
    | EnvelopeFail
    | Ok(metaDate: Option<Date>, entries: seq<(string, V)>)
    | DateRaises(entries: seq<(string, V)>)

  /** An entry of the crawler's temporary directory: a subdirectory, or a file
      holding a JSON object given by its ordered `(key, value)` items. */
  datatype Entry<V> = Directory | File(items: seq<(string, V)>)

  /** One cache write: the file at `path` receives `{key: result}`. */
  datatype Write<V> = Write(path: string, key: string, result: V)

  function Record<V>(w: Write<V>): Entry<V> {
    File([(w.key, w.result)])
  }

  /** What the crawler has changed so far: the temporary directory and the
      modification time of its reference. */
  datatype FetchState<V> = FetchState(dir: map<string, Entry<V>>, modTime: Option<Date>)

  // ---------------------------------------------------------------------------
  // Demultiplexing one reply
  // ---------------------------------------------------------------------------

  /** The write made for the reply entry at position `idx` (positions count
      the `meta` entry too). */
  function WriteAt<V>(q: Query, idx: nat, result: V): Write<V>
    requires idx < |q.domains| && q.domains[idx] in q.fpaths
  {
    Write(q.fpaths[q.domains[idx]], q.domains[idx], result)
  }

  /** Whether the entry at `idx` can be written: `meta` is skipped, any other
      key needs a name at that position (else `IndexError`) with a path. */
  predicate Writable<V>(q: Query, es: seq<(string, V)>, idx: nat)
    requires idx < |es|
  {
    es[idx].0 == "meta" || (idx < |q.domains| && q.domains[idx] in q.fpaths)
  }

  /** The writes made while walking the entries of a successful reply, and
      whether the walk reached the end; the first entry that cannot be
      written raises, and the writes before it stay on disk. */
  function Demux<V>(q: Query, es: seq<(string, V)>): (seq<Write<V>>, bool) {
    if es == [] then ([], true)
    else
      var idx := |es| - 1;
      var prev := Demux(q, es[..idx]);
      if !prev.1 then prev
      else if es[idx].0 == "meta" then prev
      else if idx >= |q.domains| || q.domains[idx] !in q.fpaths then (prev.0, false)
      else (prev.0 + [WriteAt(q, idx, es[idx].1)], true)
  }

  /** One more entry, spelt out. */
  lemma DemuxSnoc<V>(q: Query, es: seq<(string, V)>, idx: nat)
    requires idx < |es|
    ensures Demux(q, es[..idx + 1]) ==
      var prev := Demux(q, es[..idx]);
      if !prev.1 then prev
      else if es[idx].0 == "meta" then prev
      else if idx >= |q.domains| || q.domains[idx] !in q.fpaths then (prev.0, false)
      else (prev.0 + [WriteAt(q, idx, es[idx].1)], true)
  {
    assert es[..idx + 1][..idx] == es[..idx];
  }

  /** The walk completes exactly when every entry can be written. */
  lemma {:induction false} DemuxCompletes<V>(q: Query, es: seq<(string, V)>)
    ensures Demux(q, es).1 <==> forall idx :: 0 <= idx < |es| ==> Writable(q, es, idx)
  {
    if es != [] {
      var n := |es| - 1;
      DemuxCompletes(q, es[..n]);
      forall idx | 0 <= idx < n ensures Writable(q, es[..n], idx) == Writable(q, es, idx) {
        assert es[..n][idx] == es[idx];
      }
      var prev := Demux(q, es[..n]);
      if !prev.1 {
        assert Demux(q, es) == prev;
        var j :| 0 <= j < n && !Writable(q, es[..n], j);
        assert !Writable(q, es, j);
      } else if es[n].0 == "meta" {
        assert Demux(q, es) == prev;
        assert Writable(q, es, n);
      } else if n >= |q.domains| || q.domains[n] !in q.fpaths {
        assert !Demux(q, es).1;
        assert !Writable(q, es, n);
      } else {
        assert Demux(q, es).1;
        assert Writable(q, es, n);
      }
    }
  }

  /** Every write comes from a non-`meta` entry and goes, as `{name: result}`,
      to the cache file of the name at that entry's position. */
  lemma {:induction false} DemuxWritesFromEntries<V>(q: Query, es: seq<(string, V)>)
    ensures forall w :: w in Demux(q, es).0 ==>
      exists idx :: 0 <= idx < |es| && es[idx].0 != "meta" && idx < |q.domains| && q.domains[idx] in q.fpaths
                    && w == WriteAt(q, idx, es[idx].1)
  {
    if es != [] {
      var n := |es| - 1;
      DemuxWritesFromEntries(q, es[..n]);
      forall w | w in Demux(q, es).0
        ensures exists idx :: 0 <= idx < |es| && es[idx].0 != "meta" && idx < |q.domains| && q.domains[idx] in q.fpaths
                              && w == WriteAt(q, idx, es[idx].1)
      {
        if w in Demux(q, es[..n]).0 {
          var idx :| 0 <= idx < n && es[..n][idx].0 != "meta" && idx < |q.domains| && q.domains[idx] in q.fpaths
                     && w == WriteAt(q, idx, es[..n][idx].1);
          assert es[idx] == es[..n][idx];
        } else {
          assert w == WriteAt(q, n, es[n].1);
        }
      }
    }
  }

  /** Walking further never takes back a write, and after the first failure
      nothing more is written. */
  lemma {:induction false} DemuxPrefix<V>(q: Query, es: seq<(string, V)>, k: nat)
    requires k <= |es|
    ensures Demux(q, es[..k]).0 <= Demux(q, es).0
    ensures !Demux(q, es[..k]).1 ==> Demux(q, es) == Demux(q, es[..k])
    decreases |es|
  {
    if k < |es| {
      var n := |es| - 1;
      assert es[..n][..k] == es[..k];
      DemuxPrefix(q, es[..n], k);
    } else {
      assert es[..k] == es;
    }
  }

  /** Every non-`meta` entry before the first failure is written. */
  lemma DemuxWritesEntry<V>(q: Query, es: seq<(string, V)>, idx: nat)
    requires idx < |es| && es[idx].0 != "meta"
    requires Demux(q, es[..idx + 1]).1
    ensures idx < |q.domains| && q.domains[idx] in q.fpaths
    ensures WriteAt(q, idx, es[idx].1) in Demux(q, es).0
  {
    var t := es[..idx + 1];
    assert t[..idx] == es[..idx] && t[idx] == es[idx];
    var prev := Demux(q, es[..idx]);
    assert prev.1;
    var w := WriteAt(q, idx, es[idx].1);
    assert Demux(q, t).0 == prev.0 + [w];
    DemuxPrefix(q, es, idx + 1);
    var all := Demux(q, es).0;
    assert all[..|prev.0| + 1] == prev.0 + [w];
    assert all[|prev.0|] == w;
  }

  /** When `meta` is absent or last, the i-th result goes to the i-th name of
      the batch, and all of them are written if the batch is long enough. */
  lemma {:induction false} DemuxAligned<V>(q: Query, results: seq<(string, V)>, meta: seq<(string, V)>)
    requires forall i :: 0 <= i < |results| ==> results[i].0 != "meta"
    requires |meta| <= 1 && (meta != [] ==> meta[0].0 == "meta")
    requires |results| <= |q.domains| && forall d :: d in q.domains ==> d in q.fpaths
    ensures Demux(q, results + meta).1
    ensures Demux(q, results + meta).0 ==
      seq(|results|, i requires 0 <= i < |results| => Write(q.fpaths[q.domains[i]], q.domains[i], results[i].1))
    decreases |results| + |meta|
  {
    if meta != [] {
      assert (results + meta)[..|results|] == results + [];
      assert results + [] == results;
      DemuxAligned(q, results, []);
    } else if results != [] {
      var n := |results| - 1;
      assert results + meta == results;
      assert (results + meta)[..n] == results[..n] + [];
      assert results[..n] + [] == results[..n];
      DemuxAligned(q, results[..n], []);
    }
  }

  // ---------------------------------------------------------------------------
  // Processing the completed requests
  // ---------------------------------------------------------------------------

  /** The directory after the writes, in order. */
  function ApplyWrites<V>(dir: map<string, Entry<V>>, ws: seq<Write<V>>): map<string, Entry<V>> {
    if ws == [] then dir
    else ApplyWrites(dir, ws[..|ws| - 1])[ws[|ws| - 1].path := Record(ws[|ws| - 1])]
  }

  /** Handling of one completed request: a failure changes nothing; a success
      sets the modification time if none is set yet (a date the handler
      cannot read leaves it unset), then performs the writes of `Demux`. A
      reply whose date lookup raises is abandoned as a whole while no time is
      set, and written like any other once one is. */
  function Step<V>(s: FetchState<V>, q: Query, o: Outcome<V>): FetchState<V> {
    match o
    case TransportFail => s
    case EnvelopeFail => s
    case Ok(date, es) =>
      var modTime := if s.modTime.None? then date else s.modTime;
      FetchState(ApplyWrites(s.dir, Demux(q, es).0), modTime)
    case DateRaises(es) =>
      if s.modTime.None? then s
      else FetchState(ApplyWrites(s.dir, Demux(q, es).0), s.modTime)
  }

  /** Whether a reply's entries are written when it is handled while the
      modification time is `t`. */
  predicate Written<V>(t: Option<Date>, o: Outcome<V>) {
    o.Ok? || (o.DateRaises? && t.Some?)
  }

  predicate ValidOrder(qs: seq<Query>, order: seq<nat>) {
    forall k :: 0 <= k < |order| ==> order[k] < |qs|
  }

  /** The state after handling the requests in completion order: `order[k]`
      is the index of the k-th request to complete, `respond` the outcome of
      each request. */
  function ProcessAll<V>(s: FetchState<V>, qs: seq<Query>, respond: Query -> Outcome<V>, order: seq<nat>): FetchState<V>
    requires ValidOrder(qs, order)
  {
    if order == [] then s
    else
      var n := |order| - 1;
      Step(ProcessAll(s, qs, respond, order[..n]), qs[order[n]], respond(qs[order[n]]))
  }

  /** The first date carried by a successful reply, in completion order. */
  function FirstDate<V>(qs: seq<Query>, respond: Query -> Outcome<V>, order: seq<nat>): Option<Date>
    requires ValidOrder(qs, order)
  {
    if order == [] then None
    else
      match respond(qs[order[0]])
      case Ok(Some(d), _) => Some(d)
      case _ => FirstDate(qs, respond, order[1..])
  }

  /** The modification time once the replies are handled, starting from `t0`. */
  function TimeAfter<V>(t0: Option<Date>, qs: seq<Query>, respond: Query -> Outcome<V>, order: seq<nat>): Option<Date>
    requires ValidOrder(qs, order)
  {
    if t0.Some? then t0 else FirstDate(qs, respond, order)
  }

  /** All writes, in the order they are made, starting with modification
      time `t0`. */
  function AllWrites<V>(t0: Option<Date>, qs: seq<Query>, respond: Query -> Outcome<V>, order: seq<nat>): seq<Write<V>>
    requires ValidOrder(qs, order)
  {
    if order == [] then []
    else
      var n := |order| - 1;
      var q := qs[order[n]];
      AllWrites(t0, qs, respond, order[..n])
        + (if Written(TimeAfter(t0, qs, respond, order[..n]), respond(q)) then Demux(q, respond(q).entries).0 else [])
  }

  /** One more write, spelt out. */
  lemma ApplyWritesSnoc<V>(dir: map<string, Entry<V>>, ws: seq<Write<V>>, w: Write<V>)
    ensures ApplyWrites(dir, ws + [w]) == ApplyWrites(dir, ws)[w.path := Record(w)]
  {
    assert (ws + [w])[..|ws|] == ws;
  }

  /** One more completed request, spelt out. */
  lemma ProcessAllSnoc<V>(s: FetchState<V>, qs: seq<Query>, respond: Query -> Outcome<V>, order: seq<nat>, k: nat)
    requires ValidOrder(qs, order) && k < |order|
    ensures ValidOrder(qs, order[..k]) && ValidOrder(qs, order[..k + 1])
    ensures ProcessAll(s, qs, respond, order[..k + 1])
            == Step(ProcessAll(s, qs, respond, order[..k]), qs[order[k]], respond(qs[order[k]]))
  {
    assert order[..k + 1][..k] == order[..k];
  }

  lemma {:induction false} ApplyWritesConcat<V>(dir: map<string, Entry<V>>, ws: seq<Write<V>>, more: seq<Write<V>>)
    ensures ApplyWrites(ApplyWrites(dir, ws), more) == ApplyWrites(dir, ws + more)
  {
    if more != [] {
      var n := |more| - 1;
      assert (ws + more)[..|ws + more| - 1] == ws + more[..n];
      ApplyWritesConcat(dir, ws, more[..n]);
    } else {
      assert ws + more == ws;
    }
  }

  /** The modification time after the replies: the one already set, or else
      the date of the first successful reply that has one. */
  lemma ProcessAllTime<V>(s: FetchState<V>, qs: seq<Query>, respond: Query -> Outcome<V>, order: seq<nat>)
    requires ValidOrder(qs, order)
    ensures ProcessAll(s, qs, respond, order).modTime == TimeAfter(s.modTime, qs, respond, order)
  {
    if s.modTime.Some? {
      ModTimeKept(s, qs, respond, order);
    } else {
      ModTimeFromFirstDate(s, qs, respond, order);
    }
  }

  /** The cache after processing is the old one with every write applied in
      order; which requests failed only shows in which writes exist. */
  lemma {:induction false} ProcessAllWrites<V>(s: FetchState<V>, qs: seq<Query>, respond: Query -> Outcome<V>, order: seq<nat>)
    requires ValidOrder(qs, order)
    ensures ProcessAll(s, qs, respond, order).dir == ApplyWrites(s.dir, AllWrites(s.modTime, qs, respond, order))
  {
    if order != [] {
      var n := |order| - 1;
      ProcessAllWrites(s, qs, respond, order[..n]);
      ProcessAllTime(s, qs, respond, order[..n]);
      var q := qs[order[n]];
      var prev := AllWrites(s.modTime, qs, respond, order[..n]);
      if Written(TimeAfter(s.modTime, qs, respond, order[..n]), respond(q)) {
        ApplyWritesConcat(s.dir, prev, Demux(q, respond(q).entries).0);
      } else {
        assert prev + [] == prev;
      }
    }
  }

  /** A reply whose date lookup raises writes nothing while no modification
      time is set, and is written like any other reply once one is. */
  lemma DateRaisesDependsOnTime<V>(s: FetchState<V>, qs: seq<Query>, respond: Query -> Outcome<V>, order: seq<nat>, k: nat)
    requires ValidOrder(qs, order) && k < |order| && respond(qs[order[k]]).DateRaises?
    ensures ValidOrder(qs, order[..k]) && ValidOrder(qs, order[..k + 1])
    ensures TimeAfter(s.modTime, qs, respond, order[..k]).None? ==>
      ProcessAll(s, qs, respond, order[..k + 1]) == ProcessAll(s, qs, respond, order[..k])
    ensures TimeAfter(s.modTime, qs, respond, order[..k]).Some? ==>
      ProcessAll(s, qs, respond, order[..k + 1]) ==
        FetchState(ApplyWrites(ProcessAll(s, qs, respond, order[..k]).dir, Demux(qs[order[k]], respond(qs[order[k]]).entries).0),
                   ProcessAll(s, qs, respond, order[..k]).modTime)
  {
    ProcessAllSnoc(s, qs, respond, order, k);
    ProcessAllTime(s, qs, respond, order[..k]);
  }

  /** The paths some write targets. */
  function Targets<V>(ws: seq<Write<V>>): set<string> {
    set i | 0 <= i < |ws| :: ws[i].path
  }

  /** Files are only added or overwritten, never removed. */
  lemma {:induction false} ApplyWritesKeys<V>(dir: map<string, Entry<V>>, ws: seq<Write<V>>)
    ensures ApplyWrites(dir, ws).Keys == dir.Keys + Targets(ws)
  {
    if ws != [] {
      var n := |ws| - 1;
      ApplyWritesKeys(dir, ws[..n]);
      forall p ensures p in Targets(ws) <==> p in Targets(ws[..n]) || p == ws[n].path {
        if p in Targets(ws) {
          var i :| 0 <= i < |ws| && ws[i].path == p;
          if i < n { assert ws[..n][i] == ws[i]; }
        }
        if p in Targets(ws[..n]) {
          var i :| 0 <= i < n && ws[..n][i].path == p;
          assert ws[i] == ws[..n][i];
        }
      }
    }
  }

  /** A file no write targets keeps its content. */
  lemma {:induction false} ApplyWritesUntouched<V>(dir: map<string, Entry<V>>, ws: seq<Write<V>>, p: string)
    requires p in dir && p !in Targets(ws)
    ensures p in ApplyWrites(dir, ws) && ApplyWrites(dir, ws)[p] == dir[p]
  {
    if ws != [] {
      var n := |ws| - 1;
      forall i | 0 <= i < n ensures ws[..n][i].path != p {
        assert ws[..n][i] == ws[i];
      }
      assert ws[n].path in Targets(ws);
      ApplyWritesUntouched(dir, ws[..n], p);
    }
  }

  /** The last write to a path decides the content of its file. */
  lemma {:induction false} ApplyWritesLast<V>(dir: map<string, Entry<V>>, ws: seq<Write<V>>, i: nat)
    requires i < |ws| && forall j :: i < j < |ws| ==> ws[j].path != ws[i].path
    ensures ws[i].path in ApplyWrites(dir, ws) && ApplyWrites(dir, ws)[ws[i].path] == Record(ws[i])
  {
    var n := |ws| - 1;
    if i < n {
      assert ws[..n][i] == ws[i];
      forall j | i < j < n ensures ws[..n][j].path != ws[..n][i].path {
        assert ws[..n][j] == ws[j];
      }
      ApplyWritesLast(dir, ws[..n], i);
    }
  }

  /** No two different writes go to the same file. */
  ghost predicate PathsAgree<V>(ws: seq<Write<V>>) {
    forall w1, w2 :: w1 in ws && w2 in ws && w1.path == w2.path ==> w1 == w2
  }

  /** When writes to the same file never differ, every file written holds
      its write, whatever the order of the writes. */
  lemma {:induction false} ApplyWritesAgree<V>(dir: map<string, Entry<V>>, ws: seq<Write<V>>)
    requires PathsAgree(ws)
    ensures forall w :: w in ws ==> w.path in ApplyWrites(dir, ws) && ApplyWrites(dir, ws)[w.path] == Record(w)
  {
    if ws != [] {
      var n := |ws| - 1;
      assert ws == ws[..n] + [ws[n]];
      ApplyWritesAgree(dir, ws[..n]);
      forall w | w in ws ensures w.path in ApplyWrites(dir, ws) && ApplyWrites(dir, ws)[w.path] == Record(w) {
        if w != ws[n] && w.path != ws[n].path {
          assert w in ws[..n];
        }
      }
    }
  }

  /** The writes of every reply that is written are among all writes. */
  lemma {:induction false} SuccessfulWritesInAll<V>(t0: Option<Date>, qs: seq<Query>, respond: Query -> Outcome<V>, order: seq<nat>, k: nat)
    requires ValidOrder(qs, order) && k < |order|
    requires Written(TimeAfter(t0, qs, respond, order[..k]), respond(qs[order[k]]))
    ensures forall w :: w in Demux(qs[order[k]], respond(qs[order[k]]).entries).0 ==> w in AllWrites(t0, qs, respond, order)
  {
    var n := |order| - 1;
    if k < n {
      assert order[..n][k] == order[k];
      assert order[..n][..k] == order[..k];
      SuccessfulWritesInAll(t0, qs, respond, order[..n], k);
    }
  }

  /** A request whose reply is written has all its files on disk, whatever
      happened to the other requests. */
  lemma SuccessfulWritesPresent<V>(s: FetchState<V>, qs: seq<Query>, respond: Query -> Outcome<V>,
                                   order: seq<nat>, k: nat)
    requires ValidOrder(qs, order) && k < |order|
    requires Written(TimeAfter(s.modTime, qs, respond, order[..k]), respond(qs[order[k]]))
    ensures forall w :: w in Demux(qs[order[k]], respond(qs[order[k]]).entries).0 ==>
      w.path in ProcessAll(s, qs, respond, order).dir
  {
    SuccessfulWritesInAll(s.modTime, qs, respond, order, k);
    ProcessAllWrites(s, qs, respond, order);
    ApplyWritesKeys(s.dir, AllWrites(s.modTime, qs, respond, order));
  }

  /** A file that no written reply writes keeps its state: absent stays
      absent (a failed batch leaves its names uncached), present keeps its
      content. */
  lemma UnwrittenUnchanged<V>(s: FetchState<V>, qs: seq<Query>, respond: Query -> Outcome<V>, order: seq<nat>, p: string)
    requires ValidOrder(qs, order)
    requires p !in Targets(AllWrites(s.modTime, qs, respond, order))
    ensures p in ProcessAll(s, qs, respond, order).dir <==> p in s.dir
    ensures p in s.dir ==> ProcessAll(s, qs, respond, order).dir[p] == s.dir[p]
  {
    ProcessAllWrites(s, qs, respond, order);
    ApplyWritesKeys(s.dir, AllWrites(s.modTime, qs, respond, order));
    if p in s.dir {
      ApplyWritesUntouched(s.dir, AllWrites(s.modTime, qs, respond, order), p);
    }
  }

  /** Every write of `AllWrites` comes from a reply that was written: a
      success, or a reply whose date lookup raises handled once the
      modification time is set. */
  lemma {:induction false} AllWritesFromSuccesses<V>(t0: Option<Date>, qs: seq<Query>, respond: Query -> Outcome<V>, order: seq<nat>)
    requires ValidOrder(qs, order)
    ensures forall w :: w in AllWrites(t0, qs, respond, order) ==>
      exists k :: 0 <= k < |order| && Written(TimeAfter(t0, qs, respond, order[..k]), respond(qs[order[k]]))
                  && w in Demux(qs[order[k]], respond(qs[order[k]]).entries).0
  {
    if order != [] {
      var n := |order| - 1;
      AllWritesFromSuccesses(t0, qs, respond, order[..n]);
      forall w | w in AllWrites(t0, qs, respond, order)
        ensures exists k :: 0 <= k < |order| && Written(TimeAfter(t0, qs, respond, order[..k]), respond(qs[order[k]]))
                            && w in Demux(qs[order[k]], respond(qs[order[k]]).entries).0
      {
        if w in AllWrites(t0, qs, respond, order[..n]) {
          var k :| 0 <= k < n && Written(TimeAfter(t0, qs, respond, order[..n][..k]), respond(qs[order[..n][k]]))
                   && w in Demux(qs[order[..n][k]], respond(qs[order[..n][k]]).entries).0;
          assert order[..n][k] == order[k];
          assert order[..n][..k] == order[..k];
        } else {
          assert Written(TimeAfter(t0, qs, respond, order[..n]), respond(qs[order[n]]));
        }
      }
    }
  }

  /** The modification time, once set, is never overwritten. */
  lemma {:induction false} ModTimeKept<V>(s: FetchState<V>, qs: seq<Query>, respond: Query -> Outcome<V>, order: seq<nat>)
    requires ValidOrder(qs, order) && s.modTime.Some?
    ensures ProcessAll(s, qs, respond, order).modTime == s.modTime
  {
    if order != [] {
      ModTimeKept(s, qs, respond, order[..|order| - 1]);
    }
  }

  lemma {:induction false} FirstDateAppend<V>(qs: seq<Query>, respond: Query -> Outcome<V>, order: seq<nat>, x: nat)
    requires ValidOrder(qs, order) && x < |qs|
    ensures ValidOrder(qs, order + [x])
    ensures FirstDate(qs, respond, order + [x]) ==
      if FirstDate(qs, respond, order).Some? then FirstDate(qs, respond, order)
      else match respond(qs[x]) case Ok(d, _) => d case _ => None
  {
    if order != [] {
      assert (order + [x])[1..] == order[1..] + [x];
      FirstDateAppend(qs, respond, order[1..], x);
    }
  }

  /** Starting unset, the modification time ends as the date of the first
      successful reply (in completion order) that has one. */
  lemma {:induction false} ModTimeFromFirstDate<V>(s: FetchState<V>, qs: seq<Query>, respond: Query -> Outcome<V>, order: seq<nat>)
    requires ValidOrder(qs, order) && s.modTime.None?
    ensures ProcessAll(s, qs, respond, order).modTime == FirstDate(qs, respond, order)
  {
    if order != [] {
      var n := |order| - 1;
      ModTimeFromFirstDate(s, qs, respond, order[..n]);
      FirstDateAppend(qs, respond, order[..n], order[n]);
      assert order[..n] + [order[n]] == order;
    }
  }
}
