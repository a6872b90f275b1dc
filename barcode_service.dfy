/**
 * lib/barcode-service.ts: the key-record collection, the lookup of a record by
 * its barcode string and the timestamp update a scan performs.
 *
 * The hosted collection is a sequence of stored documents in the order a
 * query returns them; timestamps are integers and the two clock readings the
 * update takes are parameters.
 */
module BarcodeService {
  import opened Wrappers
  import opened LoggingService
  import Seqs

  /** A document of the `barcodes` collection as stored: any field written later may be missing. */
  datatype StoredDoc = StoredDoc(
    id: string,
    company: string,
    location: string,
    keyNo: string,
    barcodeCode: string,
    noOfKeys: Option<string>,
    createdAt: Time,
    lastUpdate: Option<Time>,
    lastReturn: Option<Time>,
    lastDraw: Option<Time>)

  /** `SavedBarcode`: one physical key's record, as the service hands it to the screens. */
  datatype SavedBarcode = SavedBarcode(
    id: string,
    company: string,
    location: string,
    keyNo: string,
    barcodeCode: string,
    noOfKeys: string,
    createdAt: Time,
    lastUpdate: Option<Time>,
    lastReturn: Option<Time>,
    lastDraw: Option<Time>)

  const DefaultNoOfKeys: string := "1"

  /** `data.noOfKeys || "1"`: a missing or empty count is reported as one key. */
  function ReportedNoOfKeys(stored: Option<string>): (r: string)
    ensures r != ""
    ensures stored.Some? && stored.value != "" ==> r == stored.value
    ensures stored.None? || stored.value == "" ==> r == DefaultNoOfKeys
  {
    match stored
    case Some(v) => if v != "" then v else DefaultNoOfKeys
    case None => DefaultNoOfKeys
  }

  /** The projection of a stored document to the record the service returns. */
  function ToSaved(d: StoredDoc): (b: SavedBarcode)
    ensures b.noOfKeys == ReportedNoOfKeys(d.noOfKeys)
    ensures b.id == d.id && b.company == d.company && b.location == d.location
    ensures b.keyNo == d.keyNo && b.barcodeCode == d.barcodeCode && b.createdAt == d.createdAt
    ensures b.lastUpdate == d.lastUpdate && b.lastReturn == d.lastReturn && b.lastDraw == d.lastDraw
  {
    SavedBarcode(d.id, d.company, d.location, d.keyNo, d.barcodeCode, ReportedNoOfKeys(d.noOfKeys),
                 d.createdAt, d.lastUpdate, d.lastReturn, d.lastDraw)
  }

  /** Position `i` holds the first document, in collection order, with barcode string `code`. */
  predicate IsFirstMatch(docs: seq<StoredDoc>, code: string, i: int) {
    0 <= i < |docs| && docs[i].barcodeCode == code &&
    forall j :: 0 <= j < i ==> docs[j].barcodeCode != code
  }

  /** `docs.find(doc => doc.data().barcodeCode === code)`, as a position. */
  function FirstMatch(docs: seq<StoredDoc>, code: string): (r: Option<nat>)
    ensures r.Some? ==> IsFirstMatch(docs, code, r.value)
    ensures r.None? <==> forall i :: 0 <= i < |docs| ==> docs[i].barcodeCode != code
  {
    Seqs.FindFirst(docs, (d: StoredDoc) => d.barcodeCode == code)
  }

  /** At most one position is the first match. */
  lemma FirstMatchUnique(docs: seq<StoredDoc>, code: string, i: int, k: int)
    requires IsFirstMatch(docs, code, i) && IsFirstMatch(docs, code, k)
    ensures i == k
  {
  }

  /**
   * Why a service call rejects: no record has the code (the "Barcode not
   * found" error `updateBarcodeTimestamp` throws itself), or the hosted store
   * refused a read or a write.
   */
  datatype ServiceError = BarcodeNotFound | StoreError

  /**
   * What `getBarcodeByCode` does with the documents it has read: the first
   * record whose barcode string is `code`, or null when no record has it.
   */
  function LookupBarcode(docs: seq<StoredDoc>, code: string): (r: Option<SavedBarcode>)
    ensures r.None? <==> forall i :: 0 <= i < |docs| ==> docs[i].barcodeCode != code
    ensures r.Some? ==> r.value.barcodeCode == code
    ensures r.Some? ==> exists i :: IsFirstMatch(docs, code, i) && r.value == ToSaved(docs[i])
    ensures forall i :: IsFirstMatch(docs, code, i) ==> r == Some(ToSaved(docs[i]))
  {
    var found := FirstMatch(docs, code);
    assert forall i :: IsFirstMatch(docs, code, i) ==> found == Some(i) by {
      forall i | IsFirstMatch(docs, code, i) ensures found == Some(i) {
        FirstMatchUnique(docs, code, i, found.value);
      }
    }
    match found
    case None => None
    case Some(i) => Some(ToSaved(docs[i]))
  }

  /**
   * `getBarcodeByCode`: `readSucceeds` says whether the store's read request
   * succeeds; a rejected read is rethrown, otherwise the lookup's answer is
   * returned.
   */
  function GetBarcodeByCode(docs: seq<StoredDoc>, code: string, readSucceeds: bool)
    : (r: Result<Option<SavedBarcode>, ServiceError>)
    ensures r.Failure? <==> !readSucceeds
    ensures r.Failure? ==> r.error == StoreError
    ensures r == Success(None) <==> readSucceeds && forall i :: 0 <= i < |docs| ==> docs[i].barcodeCode != code
    ensures r.Success? && r.value.Some? ==>
              r.value.value.barcodeCode == code
              && exists i :: IsFirstMatch(docs, code, i) && r.value.value == ToSaved(docs[i])
  {
    if readSucceeds then Success(LookupBarcode(docs, code)) else Failure(StoreError)
  }

  /**
   * The `updateData` object: `lastUpdate` is always written; `lastReturn` and
   * `lastDraw` are written only when present here.
   */
  datatype UpdateData = UpdateData(lastUpdate: Time, lastReturn: Option<Time>, lastDraw: Option<Time>)

  /** `updateDoc`: merge the fields present in `u` into `d`, leaving every other field as it was. */
  function ApplyUpdate(d: StoredDoc, u: UpdateData): (r: StoredDoc)
    ensures r.lastUpdate == Some(u.lastUpdate)
    ensures r.lastReturn == (if u.lastReturn.Some? then u.lastReturn else d.lastReturn)
    ensures r.lastDraw == (if u.lastDraw.Some? then u.lastDraw else d.lastDraw)
    ensures r.(lastUpdate := d.lastUpdate, lastReturn := d.lastReturn, lastDraw := d.lastDraw) == d
  {
    d.(lastUpdate := Some(u.lastUpdate),
       lastReturn := if u.lastReturn.Some? then u.lastReturn else d.lastReturn,
       lastDraw := if u.lastDraw.Some? then u.lastDraw else d.lastDraw)
  }

  /**
   * What a successful update promises of one record: `lastUpdate` is the first
   * clock reading; a sign-in sets `lastReturn`, a sign-out sets `lastDraw`, to
   * the second reading; no other field changes.
   */
  predicate Stamped(before: StoredDoc, after: StoredDoc, action: Action, updateTime: Time, actionTime: Time) {
    && after.lastUpdate == Some(updateTime)
    && after.(lastUpdate := before.lastUpdate, lastReturn := before.lastReturn, lastDraw := before.lastDraw) == before
    && (action == SignIn ==> after.lastReturn == Some(actionTime) && after.lastDraw == before.lastDraw)
    && (action == SignOut ==> after.lastDraw == Some(actionTime) && after.lastReturn == before.lastReturn)
  }

  /**
   * `Stamped` leaves no freedom: two records stamped from the same record by
   * the same action and readings are equal.
   */
  lemma StampedDetermines(before: StoredDoc, a: StoredDoc, b: StoredDoc, action: Action,
                          updateTime: Time, actionTime: Time)
    requires Stamped(before, a, action, updateTime, actionTime)
    requires Stamped(before, b, action, updateTime, actionTime)
    ensures a == b
  {
  }

  /** Merging the same update twice is merging it once. */
  lemma ApplyUpdateIdempotent(d: StoredDoc, u: UpdateData)
    ensures ApplyUpdate(ApplyUpdate(d, u), u) == ApplyUpdate(d, u)
  {
  }

  /** The `updateData` that `updateBarcodeTimestamp` builds for an action. */
  function UpdateFor(action: Action, updateTime: Time, actionTime: Time): (u: UpdateData)
    ensures forall d :: Stamped(d, ApplyUpdate(d, u), action, updateTime, actionTime)
  {
    match action
    case SignIn => UpdateData(updateTime, Some(actionTime), None)
    case SignOut => UpdateData(updateTime, None, Some(actionTime))
  }

  /**
   * The collection after `updateBarcodeTimestamp(code, action)`: it fails with
   * "Barcode not found" when no record has `code`; otherwise it stamps the first
   * matching record and leaves every other record as it was.
   */
  function Update(docs: seq<StoredDoc>, code: string, action: Action, updateTime: Time, actionTime: Time)
    : (r: Result<seq<StoredDoc>, ServiceError>)
    ensures r.Failure? <==> forall i :: 0 <= i < |docs| ==> docs[i].barcodeCode != code
    ensures r.Failure? ==> r.error == BarcodeNotFound
    ensures r.Success? ==> |r.value| == |docs|
    ensures r.Success? ==> exists i :: IsFirstMatch(docs, code, i)
                            && Stamped(docs[i], r.value[i], action, updateTime, actionTime)
                            && forall j :: 0 <= j < |docs| && j != i ==> r.value[j] == docs[j]
  {
    match FirstMatch(docs, code)
    case None => Failure(BarcodeNotFound)
    case Some(i) => Success(docs[i := ApplyUpdate(docs[i], UpdateFor(action, updateTime, actionTime))])
  }

  /** An update keeps the first matching record where it was, so the lookup finds the stamped record. */
  lemma UpdateThenLookup(docs: seq<StoredDoc>, code: string, action: Action, updateTime: Time, actionTime: Time)
    requires Update(docs, code, action, updateTime, actionTime).Success?
    ensures var after := Update(docs, code, action, updateTime, actionTime).value;
            exists i :: IsFirstMatch(docs, code, i) && IsFirstMatch(after, code, i)
                     && LookupBarcode(after, code) == Some(ToSaved(after[i]))
                     && Stamped(docs[i], after[i], action, updateTime, actionTime)
  {
    var after := Update(docs, code, action, updateTime, actionTime).value;
    var i :| IsFirstMatch(docs, code, i)
          && Stamped(docs[i], after[i], action, updateTime, actionTime)
          && forall j :: 0 <= j < |docs| && j != i ==> after[j] == docs[j];
    assert after[i].barcodeCode == docs[i].barcodeCode;
    assert IsFirstMatch(after, code, i);
  }

  /** The hosted `barcodes` collection. */
  class BarcodeStore {
    var docs: seq<StoredDoc>

    constructor (initial: seq<StoredDoc>)
      ensures docs == initial
    {
      docs := initial;
    }

    /**
     * `updateBarcodeTimestamp`: reads the collection, finds the first record
     * with `code`, builds the update field by field and merges it into that
     * record. `readSucceeds` and `writeSucceeds` say whether the store's read
     * and write requests succeed; a rejected request is rethrown.
     */
    method UpdateBarcodeTimestamp(code: string, action: Action, updateTime: Time, actionTime: Time,
                                  readSucceeds: bool, writeSucceeds: bool)
      returns (r: Outcome<ServiceError>)
      modifies this`docs
      ensures r == Fail(BarcodeNotFound) <==>
                readSucceeds && forall i :: 0 <= i < |old(docs)| ==> old(docs)[i].barcodeCode != code
      ensures r.Pass? <==>
                readSucceeds && writeSucceeds && exists i :: 0 <= i < |old(docs)| && old(docs)[i].barcodeCode == code
      ensures r.Fail? ==> docs == old(docs)
      ensures r.Pass? ==> Update(old(docs), code, action, updateTime, actionTime) == Success(docs)
    {
      if !readSucceeds {
        return Fail(StoreError);
      }
      var found := FirstMatch(docs, code);
      if found.None? {
        return Fail(BarcodeNotFound);
      }
      var updateData := UpdateData(updateTime, None, None);
      if action == SignIn {
        updateData := updateData.(lastReturn := Some(actionTime));
      } else if action == SignOut {
        updateData := updateData.(lastDraw := Some(actionTime));
      }
      if !writeSucceeds {
        return Fail(StoreError);
      }
      var i := found.value;
      docs := docs[i := ApplyUpdate(docs[i], updateData)];
      r := Pass;
    }
  }
}
