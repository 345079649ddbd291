/**
 * The document store the reconciler reads from and writes to, as an
 * in-memory stand-in for the search-engine client: records are kept per
 * tenant as serialised copies (values), fetched by tenant and tool type in
 * stored order, and written with upsert semantics keyed by tenant and id.
 * Every write call is also appended to a log, so that the number and kind
 * of writes a caller issues can be stated.
 */
module Store {
  import opened Wrappers
  import opened FindingsRecord

  /** One stored record and the tenant it belongs to. */
  datatype Stored = Stored(tenant: int, doc: Doc)

  /** One write call as issued: an index of a new record or an update of an existing one. */
  datatype Write = Indexed(tenant: int, doc: Doc) | Updated(tenant: int, doc: Doc)

  /** The store's contents and the log of writes it has received. */
  datatype StoreState = StoreState(entries: seq<Stored>, writes: seq<Write>)

  /** The records of one tenant and tool type, in stored order. */
  function Matching(entries: seq<Stored>, tenant: int, toolType: Option<string>): (r: seq<Doc>)
    ensures |r| <= |entries|
    ensures forall k :: 0 <= k < |r| ==> r[k].toolType == toolType
  {
    if |entries| == 0 then []
    else
      var e := entries[|entries| - 1];
      Matching(entries[..|entries| - 1], tenant, toolType)
        + (if e.tenant == tenant && e.doc.toolType == toolType then [e.doc] else [])
  }

  /** A record is fetched exactly when some entry of that tenant and tool type holds it. */
  lemma {:induction false} MatchingIff(entries: seq<Stored>, tenant: int, toolType: Option<string>, d: Doc)
    ensures d in Matching(entries, tenant, toolType) <==> Stored(tenant, d) in entries && d.toolType == toolType
  {
    if |entries| > 0 {
      var prefix := entries[..|entries| - 1];
      MatchingIff(prefix, tenant, toolType, d);
      assert entries == prefix + [entries[|entries| - 1]];
    }
  }

  /** Appending an entry of that tenant and tool type appends its record to the fetch. */
  lemma MatchingAppend(entries: seq<Stored>, tenant: int, d: Doc)
    ensures Matching(entries + [Stored(tenant, d)], tenant, d.toolType) == Matching(entries, tenant, d.toolType) + [d]
  {
    assert (entries + [Stored(tenant, d)])[..|entries|] == entries;
  }

  /** The first entry of `tenant` whose record has id `id`, or -1. */
  function KeyIndex(entries: seq<Stored>, tenant: int, id: Option<string>): (r: int)
    ensures -1 <= r < |entries|
    ensures r == -1 <==> forall k :: 0 <= k < |entries| ==> !(entries[k].tenant == tenant && entries[k].doc.id == id)
    ensures r >= 0 ==> entries[r].tenant == tenant && entries[r].doc.id == id
  {
    if |entries| == 0 then -1
    else if entries[0].tenant == tenant && entries[0].doc.id == id then 0
    else
      var k := KeyIndex(entries[1..], tenant, id);
      if k == -1 then -1 else k + 1
  }

  /**
   * A write of `doc` for `tenant`: it replaces the entry holding a record
   * with the same id for that tenant, or is added at the end when there is none.
   */
  function Upsert(entries: seq<Stored>, tenant: int, doc: Doc): (r: seq<Stored>)
    ensures Stored(tenant, doc) in r
    ensures var k := KeyIndex(entries, tenant, doc.id);
      && (k == -1 ==> r == entries + [Stored(tenant, doc)])
      && (k >= 0 ==>
            (|r| == |entries| && r[k] == Stored(tenant, doc)
             && forall i :: 0 <= i < |entries| && i != k ==> r[i] == entries[i]))
  {
    var k := KeyIndex(entries, tenant, doc.id);
    if k == -1 then
      assert (entries + [Stored(tenant, doc)])[|entries|] == Stored(tenant, doc);
      entries + [Stored(tenant, doc)]
    else
      var r := entries[k := Stored(tenant, doc)];
      assert r[k] == Stored(tenant, doc);
      r
  }

  /** A write keeps the ids of each tenant's records distinct. */
  lemma UpsertKeepsIdsDistinct(entries: seq<Stored>, tenant: int, doc: Doc)
    requires forall i, j :: 0 <= i < j < |entries| && entries[i].tenant == entries[j].tenant ==> entries[i].doc.id != entries[j].doc.id
    ensures var r := Upsert(entries, tenant, doc);
      forall i, j :: 0 <= i < j < |r| && r[i].tenant == r[j].tenant ==> r[i].doc.id != r[j].doc.id
  {
  }

  /** The store contents after an index call. */
  function IndexState(s: StoreState, tenant: int, doc: Doc): StoreState {
    StoreState(Upsert(s.entries, tenant, doc), s.writes + [Indexed(tenant, doc)])
  }

  /** The store contents after an update call. */
  function UpdateState(s: StoreState, tenant: int, doc: Doc): StoreState {
    StoreState(Upsert(s.entries, tenant, doc), s.writes + [Updated(tenant, doc)])
  }

  /** The store as a mutable object, the way the service holds its client. */
  class DocumentStore {
    var entries: seq<Stored>
    var writes: seq<Write>

    function State(): StoreState
      reads this
    {
      StoreState(entries, writes)
    }

    constructor(initial: seq<Stored>)
      ensures State() == StoreState(initial, [])
    {
      entries := initial;
      writes := [];
    }

    /** The records of a tenant and tool type, in stored order; nothing is written. */
    method FindAllByTenantAndToolType(tenant: int, toolType: Option<string>) returns (docs: seq<Doc>)
      ensures forall d :: d in docs <==> Stored(tenant, d) in entries && d.toolType == toolType
      ensures docs == Matching(entries, tenant, toolType)
    {
      docs := [];
      var i := 0;
      while i < |entries|
        invariant 0 <= i <= |entries|
        invariant docs == Matching(entries[..i], tenant, toolType)
      {
        if entries[i].tenant == tenant && entries[i].doc.toolType == toolType {
          docs := docs + [entries[i].doc];
        }
        assert entries[..i + 1][..i] == entries[..i];
        i := i + 1;
      }
      assert entries[..i] == entries;
      forall d
        ensures d in docs <==> Stored(tenant, d) in entries && d.toolType == toolType
      {
        MatchingIff(entries, tenant, toolType, d);
      }
    }

    /** indexFindings: stores a new record and logs an index call. */
    method IndexFindings(tenant: int, doc: Doc)
      modifies this
      ensures State() == IndexState(old(State()), tenant, doc)
    {
      entries := Upsert(entries, tenant, doc);
      writes := writes + [Indexed(tenant, doc)];
    }

    /** updateFindings: overwrites the record with the same id and logs an update call. */
    method UpdateFindings(tenant: int, doc: Doc)
      modifies this
      ensures State() == UpdateState(old(State()), tenant, doc)
    {
      entries := Upsert(entries, tenant, doc);
      writes := writes + [Updated(tenant, doc)];
    }
  }
}
