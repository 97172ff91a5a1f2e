/** The PeeringDB organization crawler (`iyp/crawlers/peeringdb/org.py`): for
    every organization PeeringDB lists, it finds or creates the wikibase item
    of the organization (remembering organization id → QID) and upserts its
    name, website and country statements. */
module PeeringdbOrg {
  import opened Common
  import opened Text

  const ORGID_LABEL: string := "PeeringDB organization ID"
  const URL_PDB_ORGS: string := "https://peeringdb.com/api/org"
  const ADD_SUMMARY: string := "add new peeringDB organization"
  const UPDATE_SUMMARY: string := "update peeringDB organization"

  /** A statement value: an item (the QID a label resolves to, possibly none),
      a literal string, or a point in time. */
  datatype Value = Item(qid: Option<string>) | Literal(text: string) | When(date: Date)

  /** A property and its value, as used in references and qualifiers. */
  type Claim = (string, Value)

  /** A statement: property, value, its reference (`None` when the statement
      list has no reference element) and its qualifiers. */
  datatype Statement = Statement(prop: string, value: Value, refs: Option<seq<Claim>>, qualifiers: seq<Claim>)

  /** The fields of a PeeringDB organization the crawler reads. */
  datatype Organization = Organization(id: int, name: string, website: Option<string>, country: string)

  /** The wikibase calls that change the wikibase. */
  datatype WikiCall =
    | AddItem(summary: string, itemLabel: string, statements: seq<Statement>)
    | Upsert(summary: string, qid: string, statements: seq<Statement>)

  /** Wikihandy's lookups: property ids by name, item QIDs by label, and the
      QID the next `add_item` returns, given how many calls came before it. */
  datatype Wiki = Wiki(pid: string -> string, qid: string -> Option<string>, mint: nat -> string)

  /** The memo `orgid2qid` and the calls made so far. */
  datatype WikiState = WikiState(memo: map<string, string>, log: seq<WikiCall>)

  /** The answer to the organization listing: a status other than 200, or
      the `data` list of a 200 reply. */
  datatype OrgReply = HttpError | Orgs(data: seq<Organization>)

  // ---------------------------------------------------------------------------
  // Statement lists
  // ---------------------------------------------------------------------------

  /** Python truthiness of the `website` field: present and non-empty. */
  predicate Truthy(w: Option<string>) {
    w.Some? && w.value != ""
  }

  /** Whether a country statement is added: the code is in the alpha-2 table
      and the country's name resolves to a QID. */
  predicate HasCountry(wiki: Wiki, alpha2: map<string, string>, org: Organization) {
    org.country in alpha2 && wiki.qid(alpha2[org.country]).Some?
  }

  function InstanceStatement(wiki: Wiki): Statement {
    Statement(wiki.pid("instance of"), Item(wiki.qid("organization")), None, [])
  }

  function NameStatement(wiki: Wiki, reference: seq<Claim>, org: Organization): Statement {
    Statement(wiki.pid("name"), Literal(Strip(org.name)), Some(reference), [])
  }

  function WebsiteStatement(wiki: Wiki, reference: seq<Claim>, org: Organization): Statement
    requires Truthy(org.website)
  {
    Statement(wiki.pid("website"), Literal(org.website.value), Some(reference), [])
  }

  function CountryStatement(wiki: Wiki, reference: seq<Claim>, alpha2: map<string, string>, org: Organization): Statement
    requires HasCountry(wiki, alpha2, org)
  {
    Statement(wiki.pid("country"), Item(wiki.qid(alpha2[org.country])), Some(reference), [])
  }

  /** The statements `update_org` upserts for an organization. */
  function OrgStatements(wiki: Wiki, reference: seq<Claim>, alpha2: map<string, string>, org: Organization): seq<Statement> {
    [InstanceStatement(wiki), NameStatement(wiki, reference, org)]
    + (if Truthy(org.website) then [WebsiteStatement(wiki, reference, org)] else [])
    + (if HasCountry(wiki, alpha2, org) then [CountryStatement(wiki, reference, alpha2, org)] else [])
  }

  /** The statements of a newly created organization item: its PeeringDB id,
      qualified as a PeeringDB organization ID, with an empty reference. */
  function NewOrgStatements(wiki: Wiki, org: Organization): seq<Statement> {
    [Statement(wiki.pid("external ID"), Literal(IntToString(org.id)), Some([]),
               [(wiki.pid("instance of"), Item(wiki.qid(ORGID_LABEL)))])]
  }

  // ---------------------------------------------------------------------------
  // Get-or-create and update, as functions of the state
  // ---------------------------------------------------------------------------

  /** The memo key of an organization: `str(organization['id'])`. */
  function OrgKey(org: Organization): string {
    IntToString(org.id)
  }

  /** `org_qid`: the QID and the state after it. */
  function OrgQidStep(wiki: Wiki, st: WikiState, org: Organization): (string, WikiState) {
    var key := OrgKey(org);
    if key in st.memo then (st.memo[key], st)
    else
      var q := wiki.mint(|st.log|);
      (q, WikiState(st.memo[key := q], st.log + [AddItem(ADD_SUMMARY, org.name, NewOrgStatements(wiki, org))]))
  }

  /** `update_org`, given the statement list it builds: the QID and the
      state after it. */
  function UpdateOrgStep(wiki: Wiki, st: WikiState, org: Organization, statements: seq<Statement>): (string, WikiState) {
    var r := OrgQidStep(wiki, st, org);
    (r.0, WikiState(r.1.memo, r.1.log + [Upsert(UPDATE_SUMMARY, r.0, statements)]))
  }

  /** The statement list of each organization. */
  function StatementLists(wiki: Wiki, reference: seq<Claim>, alpha2: map<string, string>,
                          orgs: seq<Organization>): (lists: seq<seq<Statement>>)
    ensures |lists| == |orgs|
  {
    seq(|orgs|, i requires 0 <= i < |orgs| => OrgStatements(wiki, reference, alpha2, orgs[i]))
  }

  /** `update_org` applied to every organization in order, `lists[i]` being
      the statement list of `orgs[i]`: the QIDs and the final state. */
  function UpdateAll(wiki: Wiki, st: WikiState, orgs: seq<Organization>, lists: seq<seq<Statement>>): (seq<string>, WikiState)
    requires |lists| == |orgs|
  {
    if orgs == [] then ([], st)
    else
      var n := |orgs| - 1;
      var prev := UpdateAll(wiki, st, orgs[..n], lists[..n]);
      var r := UpdateOrgStep(wiki, prev.1, orgs[n], lists[n]);
      (prev.0 + [r.0], r.1)
  }

  // ---------------------------------------------------------------------------
  // The crawler
  // ---------------------------------------------------------------------------

  class PeeringdbOrgCrawler {
    const wiki: Wiki
    /** The alpha-2 country table: code → country name. */
    const alpha2: map<string, string>
    /** The reference attached to the statements the crawler adds. */
    const reference: seq<Claim>
    /** `orgid2qid`. */
    var orgid2qid: map<string, string>
    /** The wikibase calls made, in order. */
    var log: seq<WikiCall>

    function State(): WikiState
      reads this
    {
      WikiState(orgid2qid, log)
    }

    /** `__init__`: `existing` is the id → QID map of the organizations already
        in the wikibase, `today` the point in time of the reference. */
    constructor (wiki: Wiki, alpha2: map<string, string>, today: Date, existing: map<string, string>)
      ensures this.wiki == wiki && this.alpha2 == alpha2
      ensures reference == [(wiki.pid("source"), Item(wiki.qid("PeeringDB"))),
                            (wiki.pid("reference URL"), Literal(URL_PDB_ORGS)),
                            (wiki.pid("point in time"), When(today))]
      ensures orgid2qid == existing && log == []
    {
      this.wiki := wiki;
      this.alpha2 := alpha2;
      reference := [(wiki.pid("source"), Item(wiki.qid("PeeringDB"))),
                    (wiki.pid("reference URL"), Literal(URL_PDB_ORGS)),
                    (wiki.pid("point in time"), When(today))];
      orgid2qid := existing;
      log := [];
    }

    /** `org_qid`: the memoized QID, or a new item added and remembered. */
    method OrgQid(org: Organization) returns (qid: string)
      modifies this
      ensures (qid, State()) == OrgQidStep(wiki, old(State()), org)
    {
      var key := IntToString(org.id);
      if key !in orgid2qid {
        var statements := NewOrgStatements(wiki, org);
        var orgQid := wiki.mint(|log|);
        log := log + [AddItem(ADD_SUMMARY, org.name, statements)];
        orgid2qid := orgid2qid[key := orgQid];
      }
      qid := orgid2qid[key];
    }

    /** `update_org`: builds the statement list, finds or creates the item and
        upserts the statements. */
    method UpdateOrg(org: Organization) returns (qid: string)
      modifies this
      ensures (qid, State()) == UpdateOrgStep(wiki, old(State()), org, OrgStatements(wiki, reference, alpha2, org))
    {
      var statements := [InstanceStatement(wiki), NameStatement(wiki, reference, org)];
      if org.website.Some? && org.website.value != "" {
        statements := statements + [WebsiteStatement(wiki, reference, org)];
      }
      if org.country in alpha2 {
        var countryQid := wiki.qid(alpha2[org.country]);
        if countryQid.Some? {
          statements := statements + [CountryStatement(wiki, reference, alpha2, org)];
        }
      }
      assert statements == OrgStatements(wiki, reference, alpha2, org);
      qid := OrgQid(org);
      log := log + [Upsert(UPDATE_SUMMARY, qid, statements)];
    }

    /** `run`: a failed listing exits before any wikibase call; otherwise
        every organization is updated, in the listed order. */
    method Run(reply: OrgReply) returns (exited: bool)
      modifies this
      ensures exited <==> reply.HttpError?
      ensures exited ==> State() == old(State())
      ensures !exited ==>
        State() == UpdateAll(wiki, old(State()), reply.data, StatementLists(wiki, reference, alpha2, reply.data)).1
    {
      if reply.HttpError? {
        return true;
      }
      var organizations := reply.data;
      ghost var qids: seq<string> := [];
      for i := 0 to |organizations|
        invariant (qids, State()) == UpdateAll(wiki, old(State()), organizations[..i],
                                               StatementLists(wiki, reference, alpha2, organizations[..i]))
      {
        assert organizations[..i + 1][..i] == organizations[..i];
        assert StatementLists(wiki, reference, alpha2, organizations[..i + 1])[..i]
            == StatementLists(wiki, reference, alpha2, organizations[..i]);
        var q := UpdateOrg(organizations[i]);
        qids := qids + [q];
      }
      assert organizations[..|organizations|] == organizations;
      return false;
    }
  }

  // ---------------------------------------------------------------------------
  // Properties of the statement list
  // ---------------------------------------------------------------------------

  /** The list starts with `instance of organization` and the stripped name
      with the reference; a website statement follows iff the website is
      truthy, and a country statement comes last iff the code is in the
      alpha-2 table and the country resolves to a QID. */
  lemma OrgStatementsShape(wiki: Wiki, reference: seq<Claim>, alpha2: map<string, string>, org: Organization)
    ensures var ss := OrgStatements(wiki, reference, alpha2, org);
      |ss| == 2 + (if Truthy(org.website) then 1 else 0) + (if HasCountry(wiki, alpha2, org) then 1 else 0)
      && ss[0] == Statement(wiki.pid("instance of"), Item(wiki.qid("organization")), None, [])
      && ss[1] == Statement(wiki.pid("name"), Literal(Strip(org.name)), Some(reference), [])
      && (Truthy(org.website) ==> ss[2] == Statement(wiki.pid("website"), Literal(org.website.value), Some(reference), []))
      && (HasCountry(wiki, alpha2, org) ==>
            ss[|ss| - 1] == Statement(wiki.pid("country"), Item(wiki.qid(alpha2[org.country])), Some(reference), []))
      && (forall i :: 1 <= i < |ss| ==> ss[i].refs == Some(reference))
  {
  }

  /** The name statement carries the name without surrounding whitespace, and
      nothing else is cut from it. */
  lemma NameIsStripped(wiki: Wiki, reference: seq<Claim>, alpha2: map<string, string>, org: Organization)
    ensures var v := OrgStatements(wiki, reference, alpha2, org)[1].value;
      v.Literal?
      && (exists i, j :: 0 <= i <= j <= |org.name| && v.text == org.name[i..j]
            && (forall k :: 0 <= k < i ==> IsSpace(org.name[k]))
            && (forall k :: j <= k < |org.name| ==> IsSpace(org.name[k])))
      && (v.text != [] ==> !IsSpace(v.text[0]) && !IsSpace(v.text[|v.text| - 1]))
  {
    StripSpec(org.name);
  }

  // ---------------------------------------------------------------------------
  // Properties of the get-or-create memo
  // ---------------------------------------------------------------------------

  /** Number of `add_item` calls in a log. */
  function AddCount(log: seq<WikiCall>): nat {
    if log == [] then 0
    else AddCount(log[..|log| - 1]) + (if log[|log| - 1].AddItem? then 1 else 0)
  }

  lemma {:induction false} AddCountAppend(log: seq<WikiCall>, more: seq<WikiCall>)
    ensures AddCount(log + more) == AddCount(log) + AddCount(more)
  {
    if more != [] {
      var n := |more| - 1;
      assert (log + more)[..|log + more| - 1] == log + more[..n];
      AddCountAppend(log, more[..n]);
    } else {
      assert log + more == log;
    }
  }

  /** A remembered organization gets its remembered QID and nothing changes;
      a new one gets a fresh item from exactly one `add_item`, and the memo
      gains exactly that entry. */
  lemma OrgQidMemo(wiki: Wiki, st: WikiState, org: Organization)
    ensures var r := OrgQidStep(wiki, st, org);
      OrgKey(org) in r.1.memo && r.1.memo[OrgKey(org)] == r.0
      && (OrgKey(org) in st.memo ==> r.0 == st.memo[OrgKey(org)] && r.1 == st)
      && (OrgKey(org) !in st.memo ==>
            r.1.memo.Keys == st.memo.Keys + {OrgKey(org)}
            && (forall k :: k in st.memo ==> r.1.memo[k] == st.memo[k])
            && AddCount(r.1.log) == AddCount(st.log) + 1
            && r.1.log[..|st.log|] == st.log)
  {
    if OrgKey(org) !in st.memo {
      var r := OrgQidStep(wiki, st, org);
      AddCountAppend(st.log, [AddItem(ADD_SUMMARY, org.name, NewOrgStatements(wiki, org))]);
      assert [AddItem(ADD_SUMMARY, org.name, NewOrgStatements(wiki, org))][..0] == [];
    }
  }

  /** Asking twice for the same organization adds nothing the second time. */
  lemma OrgQidIdempotent(wiki: Wiki, st: WikiState, org: Organization, org': Organization)
    requires org'.id == org.id
    ensures var r := OrgQidStep(wiki, st, org);
      OrgQidStep(wiki, r.1, org') == (r.0, r.1)
  {
  }

  /** One step of `UpdateAll`, spelt out. */
  lemma UpdateAllStep(wiki: Wiki, st: WikiState, orgs: seq<Organization>, lists: seq<seq<Statement>>)
    requires |lists| == |orgs| && orgs != []
    ensures var n := |orgs| - 1;
      var prev := UpdateAll(wiki, st, orgs[..n], lists[..n]);
      var q := OrgQidStep(wiki, prev.1, orgs[n]);
      var r := UpdateAll(wiki, st, orgs, lists);
      r.0 == prev.0 + [q.0]
      && r.1.memo == q.1.memo
      && r.1.log == q.1.log + [Upsert(UPDATE_SUMMARY, q.0, lists[n])]
  {
  }

  function OrgKeys(orgs: seq<Organization>): set<string> {
    set o | o in orgs :: OrgKey(o)
  }

  lemma OrgKeysAppend(orgs: seq<Organization>)
    requires orgs != []
    ensures OrgKeys(orgs) == OrgKeys(orgs[..|orgs| - 1]) + {OrgKey(orgs[|orgs| - 1])}
  {
    var n := |orgs| - 1;
    assert orgs == orgs[..n] + [orgs[n]];
  }

  /** What one `update_org` does to the memo and to the number of
      `add_item` calls. */
  lemma UpdateOrgMemo(wiki: Wiki, st: WikiState, org: Organization, statements: seq<Statement>)
    ensures var r := UpdateOrgStep(wiki, st, org, statements);
      r.1.memo.Keys == st.memo.Keys + {OrgKey(org)}
      && (forall k :: k in st.memo ==> r.1.memo[k] == st.memo[k])
      && AddCount(r.1.log) == AddCount(st.log) + (if OrgKey(org) in st.memo then 0 else 1)
  {
    var q := OrgQidStep(wiki, st, org);
    OrgQidMemo(wiki, st, org);
    var upsert := Upsert(UPDATE_SUMMARY, q.0, statements);
    AddCountAppend(q.1.log, [upsert]);
    assert [upsert][..0] == [];
  }

  /** After updating a list of organizations, the memo holds the old entries
      unchanged plus one entry per organization. */
  lemma {:induction false} UpdateAllMemo(wiki: Wiki, st: WikiState, orgs: seq<Organization>, lists: seq<seq<Statement>>)
    requires |lists| == |orgs|
    ensures var r := UpdateAll(wiki, st, orgs, lists);
      r.1.memo.Keys == st.memo.Keys + OrgKeys(orgs)
      && (forall k :: k in st.memo ==> r.1.memo[k] == st.memo[k])
  {
    if orgs != [] {
      var n := |orgs| - 1;
      var prev := UpdateAll(wiki, st, orgs[..n], lists[..n]);
      UpdateAllMemo(wiki, st, orgs[..n], lists[..n]);
      UpdateOrgMemo(wiki, prev.1, orgs[n], lists[n]);
      OrgKeysAppend(orgs);
    }
  }

  /** `add_item` is called once per distinct organization id that was not
      remembered before, however often that id occurs. */
  lemma {:induction false} UpdateAllAddCount(wiki: Wiki, st: WikiState, orgs: seq<Organization>, lists: seq<seq<Statement>>)
    requires |lists| == |orgs|
    ensures AddCount(UpdateAll(wiki, st, orgs, lists).1.log) == AddCount(st.log) + |OrgKeys(orgs) - st.memo.Keys|
  {
    if orgs != [] {
      var n := |orgs| - 1;
      var prev := UpdateAll(wiki, st, orgs[..n], lists[..n]);
      UpdateAllAddCount(wiki, st, orgs[..n], lists[..n]);
      UpdateAllMemo(wiki, st, orgs[..n], lists[..n]);
      UpdateOrgMemo(wiki, prev.1, orgs[n], lists[n]);
      OrgKeysAppend(orgs);
      NewKeysStep(OrgKeys(orgs[..n]), OrgKey(orgs[n]), st.memo.Keys);
    }
  }

  /** Adding one key to a set of keys adds one new key exactly when it is
      neither among the old keys nor in the base. */
  lemma NewKeysStep(before: set<string>, key: string, base: set<string>)
    ensures |(before + {key}) - base| == |before - base| + (if key in base + before then 0 else 1)
  {
    if key !in base + before {
      assert (before + {key}) - base == (before - base) + {key};
    } else {
      assert (before + {key}) - base == before - base;
    }
  }

  /** Every QID `update_org` returns is the one the memo holds, at the end,
      for that organization. */
  lemma {:induction false} UpdateAllQids(wiki: Wiki, st: WikiState, orgs: seq<Organization>, lists: seq<seq<Statement>>)
    requires |lists| == |orgs|
    ensures var r := UpdateAll(wiki, st, orgs, lists);
      |r.0| == |orgs|
      && (forall i :: 0 <= i < |orgs| ==> OrgKey(orgs[i]) in r.1.memo && r.0[i] == r.1.memo[OrgKey(orgs[i])])
  {
    if orgs != [] {
      var n := |orgs| - 1;
      var prev := UpdateAll(wiki, st, orgs[..n], lists[..n]);
      UpdateAllQids(wiki, st, orgs[..n], lists[..n]);
      UpdateAllStep(wiki, st, orgs, lists);
      var o := orgs[n];
      OrgQidMemo(wiki, prev.1, o);
      var r := UpdateAll(wiki, st, orgs, lists);
      forall i | 0 <= i < |orgs| ensures OrgKey(orgs[i]) in r.1.memo && r.0[i] == r.1.memo[OrgKey(orgs[i])] {
        if i < n {
          assert orgs[..n][i] == orgs[i];
          assert r.0[i] == prev.0[i];
          assert OrgKey(orgs[i]) in prev.1.memo;
        }
      }
    }
  }

  /** The `upsert_statements` calls in a log, in order. */
  function Upserts(log: seq<WikiCall>): seq<WikiCall> {
    if log == [] then []
    else Upserts(log[..|log| - 1]) + (if log[|log| - 1].Upsert? then [log[|log| - 1]] else [])
  }

  lemma {:induction false} UpsertsAppend(log: seq<WikiCall>, more: seq<WikiCall>)
    ensures Upserts(log + more) == Upserts(log) + Upserts(more)
  {
    if more != [] {
      var n := |more| - 1;
      assert (log + more)[..|log + more| - 1] == log + more[..n];
      UpsertsAppend(log, more[..n]);
    } else {
      assert log + more == log;
    }
  }

  /** The upserts `update_org` makes for QIDs `qids` and statement lists
      `lists`, position by position. */
  function UpsertCalls(qids: seq<string>, lists: seq<seq<Statement>>): (calls: seq<WikiCall>)
    requires |qids| == |lists|
  {
    seq(|lists|, i requires 0 <= i < |lists| => Upsert(UPDATE_SUMMARY, qids[i], lists[i]))
  }

  lemma UpsertCallsAppend(qids: seq<string>, lists: seq<seq<Statement>>, q: string, l: seq<Statement>)
    requires |qids| == |lists|
    ensures UpsertCalls(qids + [q], lists + [l]) == UpsertCalls(qids, lists) + [Upsert(UPDATE_SUMMARY, q, l)]
  {
  }

  /** The upserts made by one `update_org`: exactly one, after the others. */
  lemma UpdateOrgUpserts(wiki: Wiki, st: WikiState, org: Organization, statements: seq<Statement>)
    ensures var r := UpdateOrgStep(wiki, st, org, statements);
      Upserts(r.1.log) == Upserts(st.log) + [Upsert(UPDATE_SUMMARY, r.0, statements)]
  {
    var q := OrgQidStep(wiki, st, org);
    var upsert := Upsert(UPDATE_SUMMARY, q.0, statements);
    var added := if OrgKey(org) in st.memo then [] else [AddItem(ADD_SUMMARY, org.name, NewOrgStatements(wiki, org))];
    assert q.1.log == st.log + added;
    UpsertsAppend(st.log, added);
    UpsertsAppend(q.1.log, [upsert]);
    assert Upserts(added) == [] by {
      if added != [] { assert added[..0] == []; }
    }
    assert Upserts([upsert]) == [upsert] by {
      assert [upsert][..0] == [];
    }
  }

  /** The upserts of a run, in order: one per organization, with the QID
      `update_org` returned for it and its statement list. */
  lemma {:induction false} UpdateAllUpserts(wiki: Wiki, st: WikiState, orgs: seq<Organization>, lists: seq<seq<Statement>>)
    requires |lists| == |orgs|
    ensures |UpdateAll(wiki, st, orgs, lists).0| == |orgs|
    ensures Upserts(UpdateAll(wiki, st, orgs, lists).1.log) ==
      Upserts(st.log) + UpsertCalls(UpdateAll(wiki, st, orgs, lists).0, lists)
  {
    if orgs != [] {
      var n := |orgs| - 1;
      var prev := UpdateAll(wiki, st, orgs[..n], lists[..n]);
      UpdateAllUpserts(wiki, st, orgs[..n], lists[..n]);
      var r := UpdateOrgStep(wiki, prev.1, orgs[n], lists[n]);
      UpdateOrgUpserts(wiki, prev.1, orgs[n], lists[n]);
      UpsertCallsAppend(prev.0, lists[..n], r.0, lists[n]);
      assert lists[..n] + [lists[n]] == lists;
    }
  }
}
