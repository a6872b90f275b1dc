/**
 * lib/logging-service.ts: the activity-log entry shape and the masking of the
 * identity token before it is stored.
 */
module LoggingService {
  import opened Wrappers

  /** A timestamp, in milliseconds since the epoch (the value a `Date` compares by). */
  type Time = int

  /** The two custody actions, typed in the source as `"sign-in" | "sign-out"`. */
  datatype Action = SignIn | SignOut

  /** The string by which an action is stored and compared against a view's action filter. */
  function ActionName(a: Action): string {
    match a
    case SignIn => "sign-in"
    case SignOut => "sign-out"
  }

  /** An entry of the `activity_logs` collection. */
  datatype ActivityLog = ActivityLog(
    id: Option<string>,
    maskedNric: string,
    barcodeCode: string,
    company: string,
    location: string,
    keyNo: string,
    action: Action,
    rank: string,
    name: string,
    number: string,
    timestamp: Time,
    createdAt: Time)

  /** The five mask characters every masked token starts with. */
  const MaskPrefix: string := "*****"

  /**
   * `maskNRIC`: a token shorter than four characters is hidden completely;
   * otherwise only its last four characters remain visible, behind the mask.
   */
  function MaskNric(nric: string): (r: string)
    ensures |r| == if |nric| < 4 then 5 else 9
    ensures r[..5] == MaskPrefix
    ensures |nric| < 4 ==> r == MaskPrefix
    ensures |nric| >= 4 ==> r[5..] == nric[|nric| - 4..]
  {
    if |nric| < 4 then MaskPrefix else MaskPrefix + nric[|nric| - 4..]
  }

  /** The mask depends only on the last four characters of a long enough token. */
  lemma MaskSameSuffix(a: string, b: string)
    requires |a| >= 4 && |b| >= 4
    requires a[|a| - 4..] == b[|b| - 4..]
    ensures MaskNric(a) == MaskNric(b)
  {
  }

  /** Masking a masked token of a long enough input changes nothing more. */
  lemma MaskIdempotentForLong(nric: string)
    requires |nric| >= 4
    ensures MaskNric(MaskNric(nric)) == MaskNric(nric)
  {
    var m := MaskNric(nric);
    assert m[|m| - 4..] == nric[|nric| - 4..];
  }

  /** For short inputs masking is not idempotent: the full mask re-masks to nine stars. */
  lemma MaskNotIdempotentForShort(nric: string)
    requires |nric| < 4
    ensures MaskNric(MaskNric(nric)) == "*********"
    ensures MaskNric(MaskNric(nric)) != MaskNric(nric)
  {
    assert MaskNric(nric) == "*****";
    assert MaskNric("*****") == "*****" + "*****"[1..];
  }
}
