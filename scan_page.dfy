/**
 * app/scan/page.tsx: a submitted scan updates the key's record, and only a
 * successful update is shown in the list of recent scans, newest first and
 * at most ten long.
 */
module ScanPage {
  import opened Wrappers
  import opened LoggingService
  import opened BarcodeService
  import Seqs

  /** An entry of the recent-scans list; `timestamp` is the clock reading taken after the update. */
  datatype RecentScan = RecentScan(nric: string, itemBarcode: string, action: Action, timestamp: Time)

  const MaxRecentScans: nat := 10

  /** `[newScan, ...prev.slice(0, 9)]`. */
  function PushRecent(prev: seq<RecentScan>, scan: RecentScan): (r: seq<RecentScan>)
    ensures |r| == 1 + (if |prev| < 9 then |prev| else 9)
    ensures r[0] == scan
    ensures |r| <= MaxRecentScans
    ensures r[1..] == prev[..|r| - 1]
  {
    [scan] + Seqs.Take(prev, 9)
  }

  /** The list after a series of successful submissions, oldest first in `scans`. */
  function PushAll(prev: seq<RecentScan>, scans: seq<RecentScan>): seq<RecentScan> {
    if scans == [] then prev
    else PushRecent(PushAll(prev, scans[..|scans| - 1]), scans[|scans| - 1])
  }

  function Reverse<T>(s: seq<T>): (r: seq<T>)
    ensures |r| == |s|
    ensures forall i :: 0 <= i < |s| ==> r[i] == s[|s| - 1 - i]
  {
    if s == [] then [] else [s[|s| - 1]] + Reverse(s[..|s| - 1])
  }

  /**
   * Any series of successful submissions leaves the ten most recent scans,
   * newest first, followed by what is left of the earlier list.
   */
  lemma {:induction false} PushAllKeepsLatestTen(prev: seq<RecentScan>, scans: seq<RecentScan>)
    requires |prev| <= MaxRecentScans
    ensures PushAll(prev, scans) == Seqs.Take(Reverse(scans) + prev, MaxRecentScans)
  {
    if scans == [] {
      assert Reverse(scans) + prev == prev;
    } else {
      var init := scans[..|scans| - 1];
      var last := scans[|scans| - 1];
      PushAllKeepsLatestTen(prev, init);
      var before := Reverse(init) + prev;
      assert Reverse(scans) + prev == [last] + before;
      assert Seqs.Take(Seqs.Take(before, MaxRecentScans), 9) == Seqs.Take(before, 9);
    }
  }

  /** The scan screen's state. */
  class ScanScreen {
    var recentScans: seq<RecentScan>

    constructor ()
      ensures recentScans == []
    {
      recentScans := [];
    }

    /**
     * `handleScanSubmit`: the timestamp update runs first, and only when it
     * succeeds is the scan prepended to the list; a failed update leaves both
     * the store and the list as they were.
     */
    method HandleScanSubmit(store: BarcodeStore, nric: string, itemBarcode: string, action: Action,
                            updateTime: Time, actionTime: Time, now: Time,
                            readSucceeds: bool, writeSucceeds: bool)
      returns (ok: bool)
      modifies this`recentScans, store`docs
      ensures ok <==> readSucceeds && writeSucceeds && exists i :: 0 <= i < |old(store.docs)| && old(store.docs)[i].barcodeCode == itemBarcode
      ensures ok ==> Update(old(store.docs), itemBarcode, action, updateTime, actionTime) == Success(store.docs)
      ensures ok ==> recentScans == PushRecent(old(recentScans), RecentScan(nric, itemBarcode, action, now))
      ensures !ok ==> store.docs == old(store.docs) && recentScans == old(recentScans)
    {
      var outcome := store.UpdateBarcodeTimestamp(itemBarcode, action, updateTime, actionTime,
                                                  readSucceeds, writeSucceeds);
      if outcome.Fail? {
        return false;
      }
      var newScan := RecentScan(nric, itemBarcode, action, now);
      recentScans := [newScan] + recentScans[..if |recentScans| < 9 then |recentScans| else 9];
      ok := true;
    }
  }
}
