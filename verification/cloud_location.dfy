/** `CloudKitLocationManager`: the single cloud record kept for this user,
    seeded at (0, 0), and the share that lets others read it. `Update`
    would write a coordinate into the record, but nothing in the app calls
    it. The manager holds two optional references, `locationRecord` and
    `share`, and changes them only in the completion handlers of its cloud
    operations.

    Each operation is modelled as the step that issues it and, where the
    outcome matters, the step that handles its completion. What the cloud
    returns (a record or nothing, an error or none) is a parameter, so
    every outcome the platform can produce is covered. */
module CloudLocation {
  import opened Common

  /** `CKRecord.ID`. */
  datatype RecordId = RecordId(recordName: string)

  /** A `CKRecord` of the location type, with its two fields. */
  datatype Record = Record(recordType: string, id: RecordId, lat: real, lon: real)

  /** The identity of one `CKShare` object; every `CKShare(rootRecord:)`
      call makes a new one. */
  datatype ShareId = ShareId(serial: nat)

  /** `CKShare`: rooted at a record, with a title. */
  datatype Share = Share(id: ShareId, root: RecordId, title: string)

  /** An `Error` from CloudKit, opaque. */
  datatype CloudError = CloudError(code: int)

  /** The cloud operations the manager issues. */
  datatype Operation =
    | FetchRecord(recordId: RecordId)
    | SaveRecord(record: Record)
    | ModifyRecords(record: Record, share: Share)
    | AcceptShareAt(url: string)

  datatype Manager = Manager(locationRecord: Option<Record>, share: Option<Share>)

  /** A transition: the new state and the operations it issued. */
  datatype Step = Step(manager: Manager, issued: seq<Operation>)

  const MyLocationId: RecordId := RecordId("MyLocation")
  const LocationType: string := "Location"
  const ShareTitle: string := "Wya Location"

  /** The record created when none can be fetched: lat and lon both 0. */
  const SeedRecord: Record := Record(LocationType, MyLocationId, 0.0, 0.0)

  /** `init` / `createLocationRecordIfNeeded`: nothing is held yet and the
      fetch of "MyLocation" is issued. */
  function Start(): (s: Step)
    ensures s.manager.locationRecord.None? && s.manager.share.None?
    ensures s.issued == [FetchRecord(MyLocationId)]
  {
    Step(Manager(None, None), [FetchRecord(MyLocationId)])
  }

  /** The fetch completion. A returned record is kept; when none is
      returned, whatever the error (not only "not found"), the seed record
      is saved instead. */
  function OnFetched(m: Manager, fetched: Option<Record>, error: Option<CloudError>): (s: Step)
    ensures s.manager.share == m.share
    ensures fetched.Some? ==> s.manager.locationRecord == fetched && s.issued == []
    ensures fetched.None? ==> s.manager == m && s.issued == [SaveRecord(SeedRecord)]
  {
    match fetched
    case Some(record) => Step(m.(locationRecord := Some(record)), [])
    case None => Step(m, [SaveRecord(SeedRecord)])
  }

  /** The seed save completion: `locationRecord` becomes what the save
      returned, so it stays nil when the save failed. */
  function OnSeedSaved(m: Manager, saved: Option<Record>): (r: Manager)
    ensures r.locationRecord == saved && r.share == m.share
  {
    m.(locationRecord := saved)
  }

  /** The whole provisioning run from a fresh manager, for a given fetch
      outcome and (when it is needed) save outcome. */
  function Provision(fetched: Option<Record>, error: Option<CloudError>, saved: Option<Record>): Step {
    var start := Start();
    var afterFetch := OnFetched(start.manager, fetched, error);
    if fetched.Some? then Step(afterFetch.manager, start.issued + afterFetch.issued)
    else Step(OnSeedSaved(afterFetch.manager, saved), start.issued + afterFetch.issued)
  }

  /** Provisioning ends holding a record exactly when the fetch or the
      seed save returned one, never holds a share, issues the fetch first,
      and issues the save of the seed only when the fetch returned nothing.
      The fetch error plays no part. */
  lemma ProvisionOutcome(fetched: Option<Record>, error: Option<CloudError>, saved: Option<Record>)
    ensures var s := Provision(fetched, error, saved);
      && (s.manager.locationRecord.Some? <==> fetched.Some? || saved.Some?)
      && (fetched.Some? ==> s.manager.locationRecord == fetched && s.issued == [FetchRecord(MyLocationId)])
      && (fetched.None? ==> s.manager.locationRecord == saved
                            && s.issued == [FetchRecord(MyLocationId), SaveRecord(SeedRecord)])
      && s.manager.share.None?
    ensures forall other: Option<CloudError> :: Provision(fetched, other, saved) == Provision(fetched, error, saved)
  {
  }

  /** `update(location:)`: without a record nothing happens; otherwise the
      record's lat and lon become the coordinate and one save of it is
      issued, whose outcome is ignored. */
  function Update(m: Manager, c: Coordinate): (s: Step)
    ensures m.locationRecord.None? ==> s == Step(m, [])
    ensures m.locationRecord.Some? ==>
      var r := s.manager.locationRecord;
      r.Some? && r.value.lat == c.latitude && r.value.lon == c.longitude &&
      r.value.id == m.locationRecord.value.id && r.value.recordType == m.locationRecord.value.recordType &&
      s.manager.share == m.share && s.issued == [SaveRecord(r.value)]
  {
    match m.locationRecord
    case None => Step(m, [])
    case Some(record) =>
      var updated := record.(lat := c.latitude, lon := c.longitude);
      Step(m.(locationRecord := Some(updated)), [SaveRecord(updated)])
  }

  /** Successive updates: the record holds the last coordinate. */
  lemma UpdateLastWins(m: Manager, c1: Coordinate, c2: Coordinate)
    ensures Update(Update(m, c1).manager, c2).manager == Update(m, c2).manager
  {
  }

  /** Before provisioning completes, updates are lost. */
  lemma UpdateBeforeProvisioningIsLost(c: Coordinate)
    ensures Update(Start().manager, c) == Step(Start().manager, [])
  {
  }

  /** What `createShare` has done when it returns: either it already
      called `completion` (with nil, because there was no record), or it
      issued the modify operation for a new share and awaits its outcome. */
  datatype ShareRequest =
    | CompletedAtOnce(result: Option<Share>)
    | AwaitingModify(operation: Operation, pending: Share)

  /** `createShare(completion:)`. `newId` names the new `CKShare` object. */
  function CreateShare(m: Manager, newId: ShareId): (r: ShareRequest)
    ensures m.locationRecord.None? <==> r == CompletedAtOnce(None)
    ensures m.locationRecord.Some? ==>
      r.AwaitingModify? &&
      r.pending == Share(newId, m.locationRecord.value.id, ShareTitle) &&
      r.operation == ModifyRecords(m.locationRecord.value, r.pending)
  {
    match m.locationRecord
    case None => CompletedAtOnce(None)
    case Some(record) =>
      var share := Share(newId, record.id, ShareTitle);
      AwaitingModify(ModifyRecords(record, share), share)
  }

  /** The state after the modify completion, and the value given to
      `completion`. */
  datatype ShareOutcome = ShareOutcome(manager: Manager, completion: Option<Share>)

  /** The modify completion: without an error the pending share becomes
      `share` and is handed to `completion`; with one, `completion` gets nil
      and `share` keeps its previous value. */
  function OnModified(m: Manager, pending: Share, error: Option<CloudError>): (r: ShareOutcome)
    ensures r.manager.locationRecord == m.locationRecord
    ensures error.None? ==> r.manager.share == Some(pending) && r.completion == Some(pending)
    ensures error.Some? ==> r.manager == m && r.completion.None?
  {
    if error.None? then ShareOutcome(m.(share := Some(pending)), Some(pending))
    else ShareOutcome(m, None)
  }

  /** A complete `createShare` call: the request and, if one was issued,
      its completion with the given error. */
  function CreateShareRun(m: Manager, newId: ShareId, error: Option<CloudError>): (r: ShareOutcome)
    ensures m.locationRecord.None? ==> r == ShareOutcome(m, None)
    ensures r.manager.locationRecord == m.locationRecord
    ensures m.locationRecord.Some? && error.None? ==>
      r.completion == Some(Share(newId, m.locationRecord.value.id, ShareTitle)) &&
      r.manager.share == r.completion
    ensures error.Some? ==> r.manager == m && r.completion.None?
  {
    match CreateShare(m, newId)
    case CompletedAtOnce(result) => ShareOutcome(m, result)
    case AwaitingModify(_, pending) => OnModified(m, pending, error)
  }

  /** No reuse: a second successful `createShare` replaces the held share
      with a new one, even when a share was already held, and a failed
      second attempt is not retried. */
  lemma EachCreateShareMakesANewShare(m: Manager, id1: ShareId, id2: ShareId, error2: Option<CloudError>)
    requires m.locationRecord.Some? && id1 != id2
    ensures var first := CreateShareRun(m, id1, None);
      var second := CreateShareRun(first.manager, id2, error2);
      (error2.None? ==> second.manager.share.value.id == id2 && second.manager.share != first.manager.share) &&
      (error2.Some? ==> second.manager == first.manager && second.completion.None?)
  {
  }

  /** The value `acceptShare` reports, and the state it leaves. */
  datatype AcceptOutcome = AcceptOutcome(manager: Manager, issued: seq<Operation>, accepted: bool)

  /** `acceptShare(from:completion:)`: the platform call is issued and
      `completion` reports whether it returned no error. The manager's own
      state is not touched. */
  function AcceptShare(m: Manager, url: string, error: Option<CloudError>): (r: AcceptOutcome)
    ensures r.manager == m
    ensures r.issued == [AcceptShareAt(url)]
    ensures r.accepted <==> error.None?
  {
    AcceptOutcome(m, [AcceptShareAt(url)], error.None?)
  }
}
