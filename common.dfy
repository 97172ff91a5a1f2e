/** Shared vocabulary of the crawlers: optional values, timestamps, and a few
    facts about sequences used by every module. */
module Common {

  datatype Option<+T> = None | Some(value: T)

  /** A parsed UTC timestamp (the value `datetime.strptime(...).replace(tzinfo=utc)`
      produces). Parsing itself is not modelled: a date arrives already parsed,
      or as `None` when the field is missing or does not parse. */
  datatype Date = Date(year: int, month: int, day: int, hour: int, minute: int, second: int)

  /** No element occurs twice. */
  predicate NoDups<T(==)>(s: seq<T>) {
    forall i, j :: 0 <= i < j < |s| ==> s[i] != s[j]
  }

  /** `order` lists each of the indices 0 .. n-1 exactly once. */
  predicate IsOrder(order: seq<nat>, n: nat) {
    |order| == n && NoDups(order) && forall k :: 0 <= k < |order| ==> order[k] < n
  }

  /** Concatenation of a sequence of sequences. */
  function Flatten<T>(ss: seq<seq<T>>): seq<T> {
    if ss == [] then [] else ss[0] + Flatten(ss[1..])
  }

  lemma {:induction false} FlattenAppend<T>(ss: seq<seq<T>>, s: seq<T>)
    ensures Flatten(ss + [s]) == Flatten(ss) + s
  {
    if ss == [] {
      assert [s][1..] == [];
    } else {
      assert (ss + [s])[1..] == ss[1..] + [s];
      FlattenAppend(ss[1..], s);
    }
  }

  lemma {:induction false} FlattenMember<T>(ss: seq<seq<T>>, x: T)
    ensures x in Flatten(ss) <==> exists k :: 0 <= k < |ss| && x in ss[k]
  {
    if ss != [] {
      FlattenMember(ss[1..], x);
      if x in Flatten(ss[1..]) {
        var k :| 0 <= k < |ss[1..]| && x in ss[1..][k];
        assert x in ss[k + 1];
      }
      if exists k :: 0 <= k < |ss| && x in ss[k] {
        var k :| 0 <= k < |ss| && x in ss[k];
        if k > 0 { assert x in ss[1..][k - 1]; }
      }
    }
  }
}
