/**
 * The parser service: one batch reads a file of raw alerts, derives owner
 * and repository from the file's path, converts each alert to a Findings
 * record carrying tenant, owner and repository in its additional data, and
 * reconciles it against the store. The batch succeeds only when every step
 * did; one acknowledgement carrying that outcome is sent in every case.
 *
 * Reading and parsing the file is an input (`file`, None when it cannot be
 * read or parsed); the UUIDs the batch draws are an input (`uuid`): alert
 * number k draws uuid(2k) when it is converted and uuid(2k + 1) if it is
 * inserted.
 */
module Service {
  import opened Wrappers
  import opened Json
  import opened FindingsRecord
  import opened Fingerprints
  import opened Adapters
  import opened Paths
  import opened Store
  import opened Reconciler

  /** A parse acknowledgement as sent: the event it answers and whether the batch succeeded. */
  datatype Ack = Ack(eventId: string, success: bool)

  /** The acknowledgement channel, as the record of what was sent on it. */
  class AckSink {
    var sent: seq<Ack>

    constructor ()
      ensures sent == []
    {
      sent := [];
    }

    method SendParseAcknowledgement(eventId: string, success: bool)
      modifies this
      ensures sent == old(sent) + [Ack(eventId, success)]
    {
      sent := sent + [Ack(eventId, success)];
    }
  }

  // ---------------------------------------------------------------------
  // The batch as a function of the store
  // ---------------------------------------------------------------------

  /**
   * The alerts a parsed file holds: a JSON array whose items are objects or
   * null, as a list of maps reads; anything else fails to read.
   */
  function ReadAlerts(file: Option<Json>): (r: Option<seq<Json>>)
    ensures r.Some? <==>
      (file.Some? && file.value.JList?
       && forall k :: 0 <= k < |file.value.items| ==> file.value.items[k].JMap? || file.value.items[k].JNull?)
    ensures r.Some? ==> r.value == file.value.items
  {
    if file.Some? && file.value.JList?
      && forall k :: 0 <= k < |file.value.items| ==> file.value.items[k].JMap? || file.value.items[k].JNull?
    then Some(file.value.items)
    else None
  }

  /** The additional data the batch gives every record: tenant, owner and repository. */
  function Context(tenant: int, owner: string, repo: string): map<string, Json> {
    map["tenantId" := JInt(tenant), "owner" := JStr(owner), "repo" := JStr(repo)]
  }

  /** The record for one alert once its additional data is set. */
  function Prepared(toolType: string, alert: Json, id: string, tenant: int, owner: string, repo: string): (r: Doc)
    ensures r.id == Some(id) && r.toolType == Some(toolType)
    ensures r.additionalData.Some? && r.additionalData.value.Keys == {"tenantId", "owner", "repo"}
    ensures r.additionalData.value["tenantId"] == JInt(tenant)
    ensures r.additionalData.value["owner"] == JStr(owner) && r.additionalData.value["repo"] == JStr(repo)
  {
    BuildDoc(toolType, alert, id).(additionalData := Some(Context(tenant, owner, repo)))
  }

  /** The position of the first alert whose conversion throws, or the number of alerts when none does. */
  function FirstFailure(toolType: Option<string>, alerts: seq<Json>): (r: nat)
    ensures r <= |alerts|
    ensures forall k :: 0 <= k < r ==> !ConvertFails(toolType, alerts[k])
    ensures r < |alerts| ==> ConvertFails(toolType, alerts[r])
  {
    if |alerts| == 0 || ConvertFails(toolType, alerts[0]) then 0
    else 1 + FirstFailure(toolType, alerts[1..])
  }

  /**
   * The records the loop builds from `alerts`, in order: alert k converted
   * under uuid(2k), with the batch's additional data set.
   */
  function PreparedAll(toolType: string, alerts: seq<Json>, tenant: int, owner: string, repo: string,
                       uuid: nat -> string): (r: seq<Doc>)
    ensures |r| == |alerts|
    ensures forall k :: 0 <= k < |alerts| ==> r[k] == Prepared(toolType, alerts[k], uuid(2 * k), tenant, owner, repo)
  {
    seq(|alerts|, k requires 0 <= k < |alerts| => Prepared(toolType, alerts[k], uuid(2 * k), tenant, owner, repo))
  }

  /** The records the loop builds before the first alert whose conversion throws. */
  function BatchDocs(toolType: Option<string>, alerts: seq<Json>, tenant: int, owner: string, repo: string,
                     uuid: nat -> string): (r: seq<Doc>)
    ensures |r| == FirstFailure(toolType, alerts)
  {
    var j := FirstFailure(toolType, alerts);
    if j == 0 then []
    else
      assert !ConvertFails(toolType, alerts[0]);
      PreparedAll(toolType.value, alerts[..j], tenant, owner, repo, uuid)
  }

  /** Record k of the batch is alert k converted under uuid(2k), with the batch's additional data. */
  lemma BatchDocsAt(toolType: Option<string>, alerts: seq<Json>, tenant: int, owner: string, repo: string,
                    uuid: nat -> string, k: nat)
    requires k < |BatchDocs(toolType, alerts, tenant, owner, repo, uuid)|
    ensures toolType.Some?
    ensures BatchDocs(toolType, alerts, tenant, owner, repo, uuid)[k]
      == Prepared(toolType.value, alerts[k], uuid(2 * k), tenant, owner, repo)
  {
    assert !ConvertFails(toolType, alerts[0]);
  }

  /**
   * The store after the first `n` of `docs` have been reconciled in order,
   * record k inserting under uuid(2k + 1). The fold goes through
   * StoreThrough and ReconcileRecord, so that a proof about the loop sees
   * one record's reconciliation only where it asks for it.
   */
  function StoreFirst(s: StoreState, tenant: int, docs: seq<Doc>, n: nat, uuid: nat -> string): StoreState
    requires n <= |docs|
    decreases n, 2
  {
    if n == 0 then s
    else StoreThrough(s, tenant, docs, n - 1, uuid)
  }

  /** The store once records 0 to k of `docs` have been reconciled. */
  function StoreThrough(s: StoreState, tenant: int, docs: seq<Doc>, k: nat, uuid: nat -> string): StoreState
    requires k < |docs|
    decreases k + 1, 1
  {
    ReconcileRecord(s, tenant, docs, k, uuid)
  }

  /** Record k reconciled into the store the records before it left. */
  function ReconcileRecord(s: StoreState, tenant: int, docs: seq<Doc>, k: nat, uuid: nat -> string): StoreState
    requires k < |docs|
    decreases k + 1, 0
  {
    Step(StoreFirst(s, tenant, docs, k, uuid), tenant, docs[k], uuid(2 * k + 1))
  }

  /**
   * parseFileAndIndex from the store's point of view: the store it leaves
   * and the success flag. A failing alert ends the loop; what the alerts
   * before it wrote stays written.
   */
  function Batch(s: StoreState, tenant: int, filePath: string, toolType: Option<string>,
                 file: Option<Json>, uuid: nat -> string): (StoreState, bool)
  {
    var alerts := ReadAlerts(file);
    if alerts.None? then (s, false)
    else
      var ownerRepo := ParseOwnerRepoFromPath(filePath);
      if ownerRepo.None? then (s, false)
      else
        var docs := BatchDocs(toolType, alerts.value, tenant, ownerRepo.value.0, ownerRepo.value.1, uuid);
        (StoreFirst(s, tenant, docs, |docs|, uuid), |docs| == |alerts.value|)
  }

  // ---------------------------------------------------------------------
  // What a batch promises
  // ---------------------------------------------------------------------

  /**
   * The batch succeeds exactly when the file reads as a list of alerts,
   * the path is deep enough to name owner and repository, and every alert
   * converts: a null tool type fails any non-empty batch, and so does a
   * null alert.
   */
  lemma BatchSucceedsIff(s: StoreState, tenant: int, filePath: string, toolType: Option<string>,
                         file: Option<Json>, uuid: nat -> string)
    ensures Batch(s, tenant, filePath, toolType, file, uuid).1 <==>
      && ReadAlerts(file).Some?
      && TwoLevels(NormalizePath(filePath))
      && forall k :: 0 <= k < |ReadAlerts(file).value| ==> toolType.Some? && ReadAlerts(file).value[k].JMap?
  {
    OwnerRepoSucceedsIff(filePath);
    if ReadAlerts(file).Some? {
      FirstFailureIff(toolType, ReadAlerts(file).value);
    }
  }

  /** A path too shallow to name owner and repository fails the whole batch before anything is written. */
  lemma ShallowPathWritesNothing(s: StoreState, tenant: int, filePath: string, toolType: Option<string>,
                                 file: Option<Json>, uuid: nat -> string)
    requires !TwoLevels(NormalizePath(filePath))
    ensures Batch(s, tenant, filePath, toolType, file, uuid) == (s, false)
  {
    OwnerRepoSucceedsIff(filePath);
  }

  /**
   * The write log `w` extends `base` by at most `bound` writes, each for
   * `tenant` and carrying `extra` as its additional data.
   */
  predicate AppendsFor(base: seq<Write>, w: seq<Write>, tenant: int, extra: Option<map<string, Json>>, bound: nat) {
    && |base| <= |w| <= |base| + bound
    && w[..|base|] == base
    && forall i :: |base| <= i < |w| ==> w[i].tenant == tenant && w[i].doc.additionalData == extra
  }

  /** One reconciliation writes at most once, for its tenant, with the record's additional data. */
  lemma StepWrites(s: StoreState, tenant: int, d: Doc, freshId: string)
    ensures AppendsFor(s.writes, Step(s, tenant, d, freshId).writes, tenant, d.additionalData, 1)
  {
    var o := Reconcile(Matching(s.entries, tenant, d.toolType), d, freshId);
    assert !o.Skipped? ==> o.doc.additionalData == d.additionalData;
    var w := Apply(s, tenant, o).writes;
    assert w[..|s.writes|] == s.writes;
  }

  /**
   * No rollback: a batch that fails at an alert leaves the store exactly as
   * the same batch cut just before that alert, which succeeds.
   */
  lemma FailureKeepsEarlierWrites(s: StoreState, tenant: int, filePath: string, toolType: Option<string>,
                                  alerts: seq<Json>, uuid: nat -> string)
    requires ReadAlerts(Some(JList(alerts))).Some?
    requires !Batch(s, tenant, filePath, toolType, Some(JList(alerts)), uuid).1
    requires TwoLevels(NormalizePath(filePath))
    ensures var j := FirstFailure(toolType, alerts);
      && j < |alerts|
      && Batch(s, tenant, filePath, toolType, Some(JList(alerts[..j])), uuid).0
         == Batch(s, tenant, filePath, toolType, Some(JList(alerts)), uuid).0
      && Batch(s, tenant, filePath, toolType, Some(JList(alerts[..j])), uuid).1
  {
    OwnerRepoSucceedsIff(filePath);
    var j := FirstFailure(toolType, alerts);
    ReadAlertsPrefix(alerts, j);
    var (owner, repo) := ParseOwnerRepoFromPath(filePath).value;
    BatchDocsCut(toolType, alerts, tenant, owner, repo, uuid);
  }

  /** A prefix of a readable list of alerts reads as itself. */
  lemma ReadAlertsPrefix(alerts: seq<Json>, j: nat)
    requires ReadAlerts(Some(JList(alerts))).Some? && j <= |alerts|
    ensures ReadAlerts(Some(JList(alerts[..j]))) == Some(alerts[..j])
  {
    assert forall k :: 0 <= k < j ==> alerts[..j][k] == alerts[k];
  }

  /** Cutting the alerts at the first failure leaves the records the loop builds unchanged. */
  lemma BatchDocsCut(toolType: Option<string>, alerts: seq<Json>, tenant: int, owner: string, repo: string,
                     uuid: nat -> string)
    ensures var before := alerts[..FirstFailure(toolType, alerts)];
      && FirstFailure(toolType, before) == |before|
      && BatchDocs(toolType, before, tenant, owner, repo, uuid) == BatchDocs(toolType, alerts, tenant, owner, repo, uuid)
  {
    var before := alerts[..FirstFailure(toolType, alerts)];
    assert forall k :: 0 <= k < |before| ==> before[k] == alerts[k];
    FirstFailureAll(toolType, before);
    assert BatchDocs(toolType, before, tenant, owner, repo, uuid) == BatchDocs(toolType, alerts, tenant, owner, repo, uuid);
  }

  /** The first failure is past the end exactly when every alert converts. */
  lemma FirstFailureIff(toolType: Option<string>, alerts: seq<Json>)
    ensures FirstFailure(toolType, alerts) == |alerts| <==>
      forall k :: 0 <= k < |alerts| ==> toolType.Some? && alerts[k].JMap?
  {
    if forall k :: 0 <= k < |alerts| ==> toolType.Some? && alerts[k].JMap? {
      FirstFailureAll(toolType, alerts);
    }
  }

  /** With no failing alert, the first failure is past the end. */
  lemma {:induction false} FirstFailureAll(toolType: Option<string>, alerts: seq<Json>)
    requires forall k :: 0 <= k < |alerts| ==> !ConvertFails(toolType, alerts[k])
    ensures FirstFailure(toolType, alerts) == |alerts|
    decreases |alerts|
  {
    if |alerts| > 0 {
      FirstFailureAll(toolType, alerts[1..]);
    }
  }

  /** The loop's next alert, once converted, is the batch's next record. */
  lemma BatchNext(s: StoreState, tenant: int, toolType: Option<string>, alerts: seq<Json>, owner: string, repo: string,
                  uuid: nat -> string, i: nat)
    requires i < |BatchDocs(toolType, alerts, tenant, owner, repo, uuid)|
    ensures var docs := BatchDocs(toolType, alerts, tenant, owner, repo, uuid);
      && toolType.Some?
      && StoreFirst(s, tenant, docs, i + 1, uuid)
         == Step(StoreFirst(s, tenant, docs, i, uuid), tenant, Prepared(toolType.value, alerts[i], uuid(2 * i), tenant, owner, repo), uuid(2 * i + 1))
  {
    BatchDocsAt(toolType, alerts, tenant, owner, repo, uuid, i);
    StoreFirstNext(s, tenant, BatchDocs(toolType, alerts, tenant, owner, repo, uuid), i, uuid);
  }

  /** Alert i, reached without a failure before it, fails exactly when it is the first failure. */
  lemma FailureAt(toolType: Option<string>, alerts: seq<Json>, i: nat)
    requires i < |alerts| && i <= FirstFailure(toolType, alerts)
    ensures ConvertFails(toolType, alerts[i]) <==> FirstFailure(toolType, alerts) == i
  {
  }

  /** Reconciling one more record is one more step of the fold. */
  lemma StoreFirstNext(s: StoreState, tenant: int, docs: seq<Doc>, i: nat, uuid: nat -> string)
    requires i < |docs|
    ensures StoreFirst(s, tenant, docs, i + 1, uuid) == Step(StoreFirst(s, tenant, docs, i, uuid), tenant, docs[i], uuid(2 * i + 1))
  {
    assert StoreFirst(s, tenant, docs, i + 1, uuid) == StoreThrough(s, tenant, docs, i, uuid);
    assert StoreThrough(s, tenant, docs, i, uuid) == ReconcileRecord(s, tenant, docs, i, uuid);
  }

  // ---------------------------------------------------------------------
  // The service object
  // ---------------------------------------------------------------------

  /**
   * The scan of deduplicateAndStore: the fetched records in order, each
   * one's identity key compared with the new record's, stopping at the
   * first equal one; -1 when none is.
   */
  method ScanForIdentity(existingDocs: seq<Doc>, newCompositeHash: string) returns (i: int)
    ensures i == FirstMatch(existingDocs, newCompositeHash)
  {
    i := 0;
    while i < |existingDocs|
      invariant 0 <= i <= |existingDocs|
      invariant forall j :: 0 <= j < i ==> CompositeKeyHash(existingDocs[j]) != newCompositeHash
    {
      var oldCompositeHash := CompositeKeyHash(existingDocs[i]);
      if oldCompositeHash == newCompositeHash {
        FirstMatchSpec(existingDocs, newCompositeHash);
        return;
      }
      NoMatchExtends(existingDocs, newCompositeHash, i);
      i := i + 1;
    }
    i := -1;
    FirstMatchSpec(existingDocs, newCompositeHash);
  }

  class ParserService {
    const store: DocumentStore
    const acks: AckSink

    constructor (store: DocumentStore, acks: AckSink)
      ensures this.store == store && this.acks == acks
    {
      this.store := store;
      this.acks := acks;
    }

    /**
     * deduplicateAndStore: scans the tenant's records of the same tool type
     * for the first with the same identity key, then skips, updates under
     * that record's id, or indexes under `freshId`, as Reconcile decides.
     */
    method DeduplicateAndStore(tenantId: int, newDoc: Findings, freshId: string)
      modifies store, newDoc
      ensures store.State() == Step(old(store.State()), tenantId, old(newDoc.Value()), freshId)
      ensures newDoc.Value() == After(old(newDoc.Value()),
                                      Reconcile(Matching(old(store.entries), tenantId, old(newDoc.Value()).toolType),
                                                old(newDoc.Value()), freshId))
      ensures newDoc.additionalData == old(newDoc.additionalData)
    {
      ghost var v := newDoc.Value();
      ghost var s0 := store.State();
      var newCompositeHash := CompositeKeyHash(newDoc.Value());
      var existingDocs := store.FindAllByTenantAndToolType(tenantId, newDoc.toolType);
      ghost var o := Reconcile(existingDocs, v, freshId);
      assert Step(s0, tenantId, v, freshId) == Apply(s0, tenantId, o);
      var i := ScanForIdentity(existingDocs, newCompositeHash);
      if i >= 0 {
        var oldDoc := existingDocs[i];
        var newUpdatableHash := ComputeUpdatableHash(newDoc.Value());
        var oldUpdatableHash := ComputeUpdatableHash(oldDoc);
        if newUpdatableHash == oldUpdatableHash {
          assert o == Skipped;
        } else {
          assert o == Update(v.(id := oldDoc.id));
          newDoc.SetId(oldDoc.id);
          store.UpdateFindings(tenantId, newDoc.Value());
        }
      } else {
        assert o == Insert(v.(id := Some(freshId)));
        newDoc.SetId(Some(freshId));
        store.IndexFindings(tenantId, newDoc.Value());
      }
    }

    /**
     * One turn of the batch loop: converts `alert` (drawing `convertId`),
     * merges tenant, owner and repository into the record's additional
     * data, and reconciles it (drawing `insertId` if it is inserted).
     * `converted` is false when the conversion throws, and then nothing is
     * written.
     */
    method IndexAlert(tenantId: int, toolType: Option<string>, alert: Json, parsedOwner: string, parsedRepo: string,
                      convertId: string, insertId: string) returns (converted: bool)
      modifies store
      ensures converted <==> !ConvertFails(toolType, alert)
      ensures !converted ==> store.State() == old(store.State())
      ensures converted ==>
        store.State() == Step(old(store.State()), tenantId,
                              Prepared(toolType.value, alert, convertId, tenantId, parsedOwner, parsedRepo), insertId)
    {
      var f := ConvertToFindings(toolType, alert, convertId);
      if f == null {
        return false;
      }
      var addData := f.additionalData;
      if addData == null {
        addData := new DataMap();
      }
      addData.Put("tenantId", JInt(tenantId));
      addData.Put("owner", JStr(parsedOwner));
      addData.Put("repo", JStr(parsedRepo));
      f.SetAdditionalData(addData);
      assert f.Value() == Prepared(toolType.value, alert, convertId, tenantId, parsedOwner, parsedRepo);
      DeduplicateAndStore(tenantId, f, insertId);
      converted := true;
    }

    /**
     * The loop of parseFileAndIndex: the alerts in order, each converted and
     * reconciled, until one fails to convert. `completed` is whether all of
     * them went through; what the alerts before a failure wrote stays
     * written.
     */
    method IndexAlerts(tenantId: int, toolType: Option<string>, alerts: seq<Json>, parsedOwner: string, parsedRepo: string,
                       uuid: nat -> string) returns (completed: bool)
      modifies store
      ensures var docs := BatchDocs(toolType, alerts, tenantId, parsedOwner, parsedRepo, uuid);
        && store.State() == StoreFirst(old(store.State()), tenantId, docs, |docs|, uuid)
        && (completed <==> |docs| == |alerts|)
    {
      ghost var s0 := store.State();
      ghost var docs := BatchDocs(toolType, alerts, tenantId, parsedOwner, parsedRepo, uuid);
      completed := true;
      var i := 0;
      while i < |alerts|
        invariant 0 <= i <= |docs|
        invariant completed
        invariant store.State() == StoreFirst(s0, tenantId, docs, i, uuid)
      {
        var converted := IndexAt(tenantId, toolType, alerts, parsedOwner, parsedRepo, uuid, i, s0);
        if !converted {
          completed := false;
          break;
        }
        i := i + 1;
      }
      assert i == |docs|;
    }

    /** One turn of the loop: alert i either converts and is reconciled as record i, or it is the first that fails. */
    method IndexAt(tenantId: int, toolType: Option<string>, alerts: seq<Json>, parsedOwner: string, parsedRepo: string,
                   uuid: nat -> string, i: nat, ghost s0: StoreState) returns (converted: bool)
      requires i < |alerts|
      requires var docs := BatchDocs(toolType, alerts, tenantId, parsedOwner, parsedRepo, uuid);
        i <= |docs| && store.State() == StoreFirst(s0, tenantId, docs, i, uuid)
      modifies store
      ensures var docs := BatchDocs(toolType, alerts, tenantId, parsedOwner, parsedRepo, uuid);
        && (converted <==> i < |docs|)
        && (converted ==> store.State() == StoreFirst(s0, tenantId, docs, i + 1, uuid))
        && (!converted ==> store.State() == old(store.State()))
    {
      FailureAt(toolType, alerts, i);
      converted := IndexAlert(tenantId, toolType, alerts[i], parsedOwner, parsedRepo, uuid(2 * i), uuid(2 * i + 1));
      if converted {
        BatchNext(s0, tenantId, toolType, alerts, parsedOwner, parsedRepo, uuid, i);
      }
    }

    /**
     * parseFileAndIndex: reads the alerts, derives owner and repository
     * from the path, runs the loop, then sends one acknowledgement for
     * `eventId` with the batch's outcome, whether or not it failed.
     */
    method ParseFileAndIndex(tenantId: int, filePath: string, toolType: Option<string>, eventId: string,
                             file: Option<Json>, uuid: nat -> string)
      modifies store, acks
      ensures store.State() == Batch(old(store.State()), tenantId, filePath, toolType, file, uuid).0
      ensures acks.sent == old(acks.sent) + [Ack(eventId, Batch(old(store.State()), tenantId, filePath, toolType, file, uuid).1)]
    {
      var success := false;
      var rawAlerts := ReadAlerts(file);
      if rawAlerts.Some? {
        var ownerRepo := ParseOwnerRepoFromPath(filePath);
        if ownerRepo.Some? {
          success := IndexAlerts(tenantId, toolType, rawAlerts.value, ownerRepo.value.0, ownerRepo.value.1, uuid);
        }
      }
      acks.SendParseAcknowledgement(eventId, success);
    }
  }
}
