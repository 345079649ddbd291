/**
 * The reconciliation decision of deduplicateAndStore as a function: the
 * records of the same tenant and tool type are scanned in order for the
 * first one with the new record's identity key; an equal mutable-state key
 * means skip, a different one means update under the old record's id, and
 * no match at all means insert under a fresh id.
 */
module Reconciler {
  import opened Wrappers
  import opened FindingsRecord
  import opened Fingerprints
  import opened Store

  /** What one reconciliation does, with the record it writes. */
  datatype Outcome = Skipped | Update(doc: Doc) | Insert(doc: Doc)

  /** Stored record `k` is the first one carrying the identity key of `newDoc`. */
  predicate FirstIdentityMatch(existing: seq<Doc>, newDoc: Doc, k: int) {
    && 0 <= k < |existing|
    && CompositeKeyHash(existing[k]) == CompositeKeyHash(newDoc)
    && forall j :: 0 <= j < k ==> CompositeKeyHash(existing[j]) != CompositeKeyHash(newDoc)
  }

  /** There is at most one first match. */
  lemma FirstIdentityMatchUnique(existing: seq<Doc>, newDoc: Doc, j: int, k: int)
    requires FirstIdentityMatch(existing, newDoc, j) && FirstIdentityMatch(existing, newDoc, k)
    ensures j == k
  {
  }

  /**
   * The position of the first record whose identity key is `key`: -1
   * exactly when no record has it, otherwise a record that has it with none
   * before it.
   */
  function FirstMatch(existing: seq<Doc>, key: string): (r: int)
    ensures -1 <= r < |existing|
  {
    if |existing| == 0 then -1
    else if CompositeKeyHash(existing[0]) == key then 0
    else
      var k := FirstMatch(existing[1..], key);
      if k == -1 then -1 else k + 1
  }

  /** -1 exactly when no record has the key; otherwise the result has it and none before it does. */
  lemma {:induction false} FirstMatchSpec(existing: seq<Doc>, key: string)
    ensures var r := FirstMatch(existing, key);
      && (r == -1 <==> forall k :: 0 <= k < |existing| ==> CompositeKeyHash(existing[k]) != key)
      && (r >= 0 ==>
            (CompositeKeyHash(existing[r]) == key && forall j :: 0 <= j < r ==> CompositeKeyHash(existing[j]) != key))
  {
    if |existing| > 0 && CompositeKeyHash(existing[0]) != key {
      var rest := existing[1..];
      FirstMatchSpec(rest, key);
      assert forall k :: 1 <= k < |existing| ==> existing[k] == rest[k - 1];
    }
  }

  /** One more record without the key extends the scanned prefix without a match. */
  lemma NoMatchExtends(existing: seq<Doc>, key: string, i: nat)
    requires i < |existing| && CompositeKeyHash(existing[i]) != key
    requires forall j :: 0 <= j < i ==> CompositeKeyHash(existing[j]) != key
    ensures forall j :: 0 <= j < i + 1 ==> CompositeKeyHash(existing[j]) != key
  {
  }

  /**
   * The decision for `newDoc` against the fetched records `existing`, with
   * `freshId` standing for the UUID drawn on insert.
   */
  function Reconcile(existing: seq<Doc>, newDoc: Doc, freshId: string): Outcome {
    var k := FirstMatch(existing, CompositeKeyHash(newDoc));
    if k == -1 then Insert(newDoc.(id := Some(freshId)))
    else if UpdatableKeyHash(newDoc) == UpdatableKeyHash(existing[k]) then Skipped
    else Update(newDoc.(id := existing[k].id))
  }

  /**
   * The three outcomes of the scan: an insert under the fresh id exactly
   * when no fetched record has the identity key; otherwise the first record
   * with it decides, a skip exactly when its mutable-state key is equal too,
   * and an update under that record's id when it is not.
   */
  lemma ReconcileSpec(existing: seq<Doc>, newDoc: Doc, freshId: string)
    ensures var o := Reconcile(existing, newDoc, freshId);
      && (o.Insert? <==> forall k :: 0 <= k < |existing| ==> CompositeKeyHash(existing[k]) != CompositeKeyHash(newDoc))
      && (o.Insert? ==> o.doc == newDoc.(id := Some(freshId)))
      && forall k :: FirstIdentityMatch(existing, newDoc, k) ==>
           && (o.Skipped? <==> UpdatableKeyHash(existing[k]) == UpdatableKeyHash(newDoc))
           && (o.Update? ==> o.doc == newDoc.(id := existing[k].id))
  {
    var k := FirstMatch(existing, CompositeKeyHash(newDoc));
    FirstMatchSpec(existing, CompositeKeyHash(newDoc));
    if k >= 0 {
      assert FirstIdentityMatch(existing, newDoc, k);
      forall j | FirstIdentityMatch(existing, newDoc, j)
        ensures j == k
      {
        FirstIdentityMatchUnique(existing, newDoc, j, k);
      }
    }
  }

  /** The store after the decision is carried out: nothing, one update call, or one index call. */
  function Apply(s: StoreState, tenant: int, o: Outcome): (r: StoreState)
    ensures o.Skipped? ==> r == s
    ensures o.Update? ==> r.writes == s.writes + [Updated(tenant, o.doc)]
    ensures o.Insert? ==> r.writes == s.writes + [Indexed(tenant, o.doc)]
    ensures !o.Skipped? ==> Stored(tenant, o.doc) in r.entries
  {
    match o
    case Skipped => s
    case Update(d) => UpdateState(s, tenant, d)
    case Insert(d) => IndexState(s, tenant, d)
  }

  /** Reconciling `d` against the tenant's records of its tool type: the decision carried out on the store. */
  function Step(s: StoreState, tenant: int, d: Doc, freshId: string): StoreState {
    Apply(s, tenant, Reconcile(Matching(s.entries, tenant, d.toolType), d, freshId))
  }

  /** The new record as the caller holds it afterwards: its id is replaced unless the record was skipped. */
  function After(newDoc: Doc, o: Outcome): Doc {
    if o.Skipped? then newDoc else o.doc
  }

  /** Only the id of the new record changes, so neither of its keys does. */
  lemma OutcomeKeepsKeys(existing: seq<Doc>, newDoc: Doc, freshId: string)
    ensures var d := After(newDoc, Reconcile(existing, newDoc, freshId));
      CompositeKeyHash(d) == CompositeKeyHash(newDoc) && UpdatableKeyHash(d) == UpdatableKeyHash(newDoc)
  {
    var d := After(newDoc, Reconcile(existing, newDoc, freshId));
    CompositeReadsIdentityOnly(d, newDoc);
    UpdatableReadsStateOnly(d, newDoc);
  }

  /** No id of the tenant's records is `id`: what a fresh UUID guarantees. */
  predicate FreshFor(entries: seq<Stored>, tenant: int, id: string) {
    forall i :: 0 <= i < |entries| && entries[i].tenant == tenant ==> entries[i].doc.id != Some(id)
  }

  /** An insert under a fresh id lands at the end of the tenant's fetch for that tool type. */
  lemma InsertAppends(s: StoreState, tenant: int, d: Doc, freshId: string)
    requires FreshFor(s.entries, tenant, freshId) && d.id == Some(freshId)
    ensures Matching(Apply(s, tenant, Insert(d)).entries, tenant, d.toolType) == Matching(s.entries, tenant, d.toolType) + [d]
  {
    assert KeyIndex(s.entries, tenant, d.id) == -1;
    MatchingAppend(s.entries, tenant, d);
  }

  /**
   * After an insert, the first record of the fetch with the inserted
   * record's identity key is the inserted record.
   */
  lemma InsertedIsFirstMatch(s: StoreState, tenant: int, newDoc: Doc, freshId: string, again: Doc)
    requires FreshFor(s.entries, tenant, freshId)
    requires Reconcile(Matching(s.entries, tenant, newDoc.toolType), newDoc, freshId).Insert?
    requires CompositeKeyHash(again) == CompositeKeyHash(newDoc)
    ensures var d := newDoc.(id := Some(freshId));
      var fetched := Matching(Apply(s, tenant, Insert(d)).entries, tenant, newDoc.toolType);
      FirstIdentityMatch(fetched, again, |fetched| - 1) && fetched[|fetched| - 1] == d
  {
    var d := newDoc.(id := Some(freshId));
    var before := Matching(s.entries, tenant, newDoc.toolType);
    ReconcileSpec(before, newDoc, freshId);
    InsertAppends(s, tenant, d, freshId);
    CompositeReadsIdentityOnly(d, newDoc);
    var fetched := before + [d];
    assert forall j :: 0 <= j < |before| ==> fetched[j] == before[j];
  }

  /**
   * Reconciling the same finding twice in a row, as a record built afresh
   * with another id, gives an insert and then a skip.
   */
  lemma InsertThenSkip(s: StoreState, tenant: int, newDoc: Doc, freshId: string, again: Doc, freshId2: string)
    requires FreshFor(s.entries, tenant, freshId)
    requires Reconcile(Matching(s.entries, tenant, newDoc.toolType), newDoc, freshId).Insert?
    requires again == newDoc.(id := again.id)
    ensures var s1 := Apply(s, tenant, Reconcile(Matching(s.entries, tenant, newDoc.toolType), newDoc, freshId));
      Reconcile(Matching(s1.entries, tenant, again.toolType), again, freshId2) == Skipped
  {
    var d := newDoc.(id := Some(freshId));
    ReconcileSpec(Matching(s.entries, tenant, newDoc.toolType), newDoc, freshId);
    CompositeReadsIdentityOnly(again, newDoc);
    InsertedIsFirstMatch(s, tenant, newDoc, freshId, again);
    UpdatableReadsStateOnly(d, again);
    var fetched := Matching(Apply(s, tenant, Insert(d)).entries, tenant, newDoc.toolType);
    ReconcileSpec(fetched, again, freshId2);
  }

  /**
   * A finding inserted and then seen again with another severity, state or
   * update time is updated in place, under the id it was inserted with.
   */
  lemma InsertThenUpdate(s: StoreState, tenant: int, newDoc: Doc, freshId: string, again: Doc, freshId2: string)
    requires FreshFor(s.entries, tenant, freshId)
    requires Reconcile(Matching(s.entries, tenant, newDoc.toolType), newDoc, freshId).Insert?
    requires again.toolType == newDoc.toolType
    requires CompositeKeyHash(again) == CompositeKeyHash(newDoc)
    requires UpdatableKeyHash(again) != UpdatableKeyHash(newDoc)
    ensures var s1 := Apply(s, tenant, Reconcile(Matching(s.entries, tenant, newDoc.toolType), newDoc, freshId));
      Reconcile(Matching(s1.entries, tenant, again.toolType), again, freshId2) == Update(again.(id := Some(freshId)))
  {
    var d := newDoc.(id := Some(freshId));
    ReconcileSpec(Matching(s.entries, tenant, newDoc.toolType), newDoc, freshId);
    InsertedIsFirstMatch(s, tenant, newDoc, freshId, again);
    UpdatableReadsStateOnly(d, newDoc);
    var fetched := Matching(Apply(s, tenant, Insert(d)).entries, tenant, newDoc.toolType);
    ReconcileSpec(fetched, again, freshId2);
  }

  /** An update rewrites the matched record's entry: the store never grows on an update. */
  lemma UpdateKeepsCount(s: StoreState, tenant: int, newDoc: Doc, freshId: string)
    requires Reconcile(Matching(s.entries, tenant, newDoc.toolType), newDoc, freshId).Update?
    ensures |Apply(s, tenant, Reconcile(Matching(s.entries, tenant, newDoc.toolType), newDoc, freshId)).entries| == |s.entries|
  {
    var existing := Matching(s.entries, tenant, newDoc.toolType);
    var k := FirstMatch(existing, CompositeKeyHash(newDoc));
    FirstMatchSpec(existing, CompositeKeyHash(newDoc));
    assert FirstIdentityMatch(existing, newDoc, k);
    var matched := existing[k];
    MatchingIff(s.entries, tenant, newDoc.toolType, matched);
    var u := newDoc.(id := matched.id);
    assert Stored(tenant, matched) in s.entries;
    assert KeyIndex(s.entries, tenant, u.id) >= 0;
  }
}
