/**
 * components/scanner.tsx: the two-step scan. The first decoded text must be
 * an NRIC; the second, any text, is the key's barcode string. Decoded texts
 * and decoder errors are input events; the camera and decoder themselves are
 * not part of this model.
 */
module Scanner {
  import opened Wrappers
  import opened LoggingService
  import opened Text
  import Seqs

  // ---------------------------------------------------------------------------
  // The NRIC pattern `^[STFG]\d{7}[A-Z]$`

  /** One position of an anchored pattern without repetition operators. */
  datatype CharClass = OneOf(chars: string) | AnyDigit | AnyUpper

  predicate InClass(c: char, k: CharClass) {
    match k
    case OneOf(chars) => c in chars
    case AnyDigit => IsDigit(c)
    case AnyUpper => IsUpperLetter(c)
  }

  /** `k{n}`. */
  function Repeat(k: CharClass, n: nat): (r: seq<CharClass>)
    ensures |r| == n
    ensures forall i :: 0 <= i < n ==> r[i] == k
  {
    seq(n, _ => k)
  }

  /** The pattern as the component writes it. */
  const NricPattern: seq<CharClass> := [OneOf("STFG")] + Repeat(AnyDigit, 7) + [AnyUpper]

  /** `pattern.test(s)` for an anchored pattern: the whole of `s` matches, position by position. */
  function Matches(pattern: seq<CharClass>, s: string): (r: bool)
    ensures r ==> |s| == |pattern|
    decreases |pattern|
  {
    if pattern == [] then s == []
    else s != [] && InClass(s[0], pattern[0]) && Matches(pattern[1..], s[1..])
  }

  /** An anchored match is a match at every position of two sequences of the same length. */
  lemma {:induction false} MatchesPositionwise(pattern: seq<CharClass>, s: string)
    ensures Matches(pattern, s) <==>
            |pattern| == |s| && forall i :: 0 <= i < |s| ==> InClass(s[i], pattern[i])
    decreases |pattern|
  {
    if pattern != [] && s != [] {
      MatchesPositionwise(pattern[1..], s[1..]);
      if |pattern| == |s| && forall i :: 0 <= i < |s| ==> InClass(s[i], pattern[i]) {
        assert forall i :: 0 <= i < |s[1..]| ==> InClass(s[1..][i], pattern[1..][i]) by {
          forall i | 0 <= i < |s[1..]| ensures InClass(s[1..][i], pattern[1..][i]) {
            assert InClass(s[i + 1], pattern[i + 1]);
          }
        }
      }
      if Matches(pattern, s) {
        forall i | 0 <= i < |s| ensures InClass(s[i], pattern[i]) {
          if i > 0 {
            assert s[1..][i - 1] == s[i] && pattern[1..][i - 1] == pattern[i];
          }
        }
      }
    }
  }

  /** A well-formed NRIC, stated directly: S, T, F or G, seven digits, an upper-case letter. */
  function IsValidNric(s: string): (r: bool)
    ensures r ==> forall i :: 0 <= i < |s| ==> IsUpperLetter(s[i]) || IsDigit(s[i])
  {
    && |s| == 9
    && s[0] in "STFG"
    && (forall i :: 1 <= i < 8 ==> IsDigit(s[i]))
    && IsUpperLetter(s[8])
  }

  /** The component's pattern accepts exactly the well-formed NRICs. */
  lemma NricPatternAccepts(s: string)
    ensures Matches(NricPattern, s) <==> IsValidNric(s)
  {
    MatchesPositionwise(NricPattern, s);
    assert forall i :: 1 <= i < 8 ==> NricPattern[i] == AnyDigit;
    assert NricPattern[0] == OneOf("STFG") && NricPattern[8] == AnyUpper;
  }

  /** A scanned NRIC is stored behind the mask with its last four characters, nine characters in all. */
  lemma ValidNricMask(s: string)
    requires IsValidNric(s)
    ensures MaskNric(s) == MaskPrefix + s[5..]
    ensures |MaskNric(s)| == 9
  {
  }

  lemma ValidNricExample()
    ensures IsValidNric("S1234567A")
    ensures MaskNric("S1234567A") == "*****567A"
    ensures !IsValidNric("s1234567A") && !IsValidNric("S123456A")
  {
    assert "S1234567A"[0] in "STFG";
    assert "S1234567A"[5..] == "567A";
    assert "s1234567A"[0] !in "STFG";
  }

  // ---------------------------------------------------------------------------
  // Cameras

  /** A video input; `labelText` is the device's `label` (a reserved word here). */
  datatype Device = Device(deviceId: string, labelText: string, kind: string)

  /** The label shown for a device: its own, or `Camera` and the first eight characters of its id. */
  function DeviceLabel(deviceId: string, labelText: string): (r: string)
    ensures labelText != "" ==> r == labelText
    ensures labelText == "" ==> r == "Camera " + Seqs.Take(deviceId, 8)
    ensures r != ""
  {
    if labelText != "" then labelText else "Camera " + Seqs.Take(deviceId, 8)
  }

  function Normalize(d: Device): Device {
    d.(labelText := DeviceLabel(d.deviceId, d.labelText))
  }

  /** A label that names a camera facing away from the user. */
  predicate IsBackCamera(d: Device) {
    var l := ToLower(d.labelText);
    Includes(l, "back") || Includes(l, "environment") || Includes(l, "rear")
  }

  /**
   * The camera selected after listing: the first back camera, otherwise the
   * first device; no choice at all for an empty list.
   */
  function DefaultCamera(devices: seq<Device>): (r: Option<string>)
    ensures r.None? <==> devices == []
    ensures r.Some? ==> exists i :: 0 <= i < |devices| && devices[i].deviceId == r.value
    ensures forall i :: 0 <= i < |devices| && IsBackCamera(devices[i])
                        && (forall j :: 0 <= j < i ==> !IsBackCamera(devices[j]))
                        ==> r == Some(devices[i].deviceId)
    ensures devices != [] && (forall i :: 0 <= i < |devices| ==> !IsBackCamera(devices[i]))
            ==> r == Some(devices[0].deviceId)
  {
    if devices == [] then None
    else
      match Seqs.FindFirst(devices, IsBackCamera)
      case Some(i) => Some(devices[i].deviceId)
      case None => Some(devices[0].deviceId)
  }

  // ---------------------------------------------------------------------------
  // The state machine

  datatype Step = NricStep | ItemStep

  /** What `onSubmit` receives. */
  datatype Submission = Submission(nric: string, itemBarcode: string, action: Action)

  class BarcodeScanner {
    var nricResult: Option<string>
    var itemBarcode: Option<string>
    /** Whether a decoder instance is held (`scanner` is not null). */
    var hasReader: bool
    var scanning: bool
    var scanStep: Step
    var videoDevices: seq<Device>
    var selectedCameraId: string
    var action: Action

    /**
     * Held in every reachable state: a decoder is held exactly while
     * scanning, a stored NRIC is well formed and a stored key barcode is not
     * empty.
     */
    predicate Valid()
      reads this
    {
      && (scanning <==> hasReader)
      && (nricResult.Some? ==> IsValidNric(nricResult.value))
      && (itemBarcode.Some? ==> itemBarcode.value != "")
    }

    /** The decode loop runs: scanning, with a decoder and a selected camera. */
    predicate Listening()
      reads this
    {
      scanning && hasReader && selectedCameraId != ""
    }

    constructor ()
      ensures Valid()
      ensures nricResult == None && itemBarcode == None && !scanning && !hasReader
      ensures scanStep == NricStep && videoDevices == [] && selectedCameraId == "" && action == SignIn
    {
      nricResult, itemBarcode := None, None;
      hasReader, scanning := false, false;
      scanStep := NricStep;
      videoDevices, selectedCameraId := [], "";
      action := SignIn;
    }

    /**
     * The device listing on mount: the devices with their display labels, and
     * the default camera selected. A failed listing changes nothing.
     */
    method LoadDevices(listed: Option<seq<Device>>)
      modifies this`videoDevices, this`selectedCameraId
      ensures listed.None? ==> videoDevices == old(videoDevices) && selectedCameraId == old(selectedCameraId)
      ensures listed.Some? ==> videoDevices == Seqs.Map(listed.value, Normalize)
      ensures listed.Some? ==>
                selectedCameraId == (match DefaultCamera(videoDevices) case Some(id) => id case None => old(selectedCameraId))
    {
      if listed.None? {
        return;
      }
      videoDevices := Seqs.Map(listed.value, Normalize);
      if |videoDevices| > 0 {
        var back := Seqs.FindFirst(videoDevices, IsBackCamera);
        selectedCameraId := if back.Some? then videoDevices[back.value].deviceId else videoDevices[0].deviceId;
      }
    }

    /** `stopScan`: the decoder is released and scanning ends; nothing else changes. */
    method StopScan()
      requires Valid()
      modifies this`hasReader, this`scanning
      ensures Valid()
      ensures !scanning && !hasReader
    {
      hasReader := false;
      scanning := false;
    }

    /**
     * A decoded, non-empty text while the loop runs. In the NRIC step a well
     * formed NRIC is kept and the item step begins, still scanning; any other
     * text is ignored. In the item step the text is the key's barcode and
     * scanning stops.
     */
    method OnDecoded(text: string)
      requires Valid()
      modifies this`nricResult, this`itemBarcode, this`scanStep, this`hasReader, this`scanning
      ensures Valid()
      ensures !old(Listening()) || text == "" || (old(scanStep) == NricStep && !IsValidNric(text)) ==>
                && nricResult == old(nricResult) && itemBarcode == old(itemBarcode) && scanStep == old(scanStep)
                && scanning == old(scanning) && hasReader == old(hasReader)
      ensures old(Listening()) && text != "" && old(scanStep) == NricStep && IsValidNric(text) ==>
                && nricResult == Some(text) && scanStep == ItemStep && scanning && hasReader
                && itemBarcode == old(itemBarcode)
      ensures old(Listening()) && text != "" && old(scanStep) == ItemStep ==>
                && itemBarcode == Some(text) && !scanning && !hasReader
                && nricResult == old(nricResult) && scanStep == ItemStep
    {
      if !(scanning && hasReader && selectedCameraId != "") || text == "" {
        return;
      }
      if scanStep == NricStep {
        NricPatternAccepts(text);
        if Matches(NricPattern, text) {
          nricResult := Some(text);
          scanStep := ItemStep;
        }
      } else {
        itemBarcode := Some(text);
        StopScan();
      }
    }

    /** A decoder error while the loop runs: "not found" keeps scanning, any other error stops. */
    method OnDecodeError(isNotFound: bool)
      requires Valid()
      modifies this`hasReader, this`scanning
      ensures Valid()
      ensures old(Listening()) && !isNotFound ==> !scanning && !hasReader
      ensures !old(Listening()) || isNotFound ==> scanning == old(scanning) && hasReader == old(hasReader)
    {
      if scanning && hasReader && selectedCameraId != "" && !isNotFound {
        StopScan();
      }
    }

    /**
     * `startScan`: without a selected camera nothing changes; otherwise both
     * results are cleared and scanning starts in the NRIC step.
     */
    method StartScan()
      requires Valid()
      modifies this`nricResult, this`itemBarcode, this`scanStep, this`hasReader, this`scanning
      ensures Valid()
      ensures old(selectedCameraId) == "" ==>
                && nricResult == old(nricResult) && itemBarcode == old(itemBarcode) && scanStep == old(scanStep)
                && scanning == old(scanning) && hasReader == old(hasReader)
      ensures old(selectedCameraId) != "" ==>
                nricResult == None && itemBarcode == None && scanStep == NricStep && scanning && hasReader
    {
      if selectedCameraId == "" {
        return;
      }
      nricResult := None;
      itemBarcode := None;
      scanStep := NricStep;
      hasReader := true;
      scanning := true;
    }

    /**
     * `handleCameraSelection`: selects the camera and stops a running scan; the
     * delayed restart arrives as a later `StartScan`.
     */
    method SelectCamera(cameraId: string)
      requires Valid()
      modifies this`selectedCameraId, this`hasReader, this`scanning
      ensures Valid()
      ensures selectedCameraId == cameraId
      ensures old(scanning) ==> !scanning && !hasReader
      ensures !old(scanning) ==> scanning == old(scanning) && hasReader == old(hasReader)
    {
      selectedCameraId := cameraId;
      if scanning {
        StopScan();
      }
    }

    /** `handleRescanNric`: forget the NRIC and go back to the NRIC step. */
    method RescanNric()
      requires Valid()
      modifies this`nricResult, this`scanStep
      ensures Valid()
      ensures nricResult == None && scanStep == NricStep
    {
      nricResult := None;
      scanStep := NricStep;
    }

    /**
     * `handleRescanItem`: without a selected camera nothing changes; otherwise
     * the key barcode is cleared and scanning resumes in the item step with the
     * NRIC kept.
     */
    method RescanItem()
      requires Valid()
      modifies this`itemBarcode, this`scanStep, this`hasReader, this`scanning
      ensures Valid()
      ensures old(selectedCameraId) == "" ==>
                && itemBarcode == old(itemBarcode) && scanStep == old(scanStep)
                && scanning == old(scanning) && hasReader == old(hasReader)
      ensures old(selectedCameraId) != "" ==> itemBarcode == None && scanStep == ItemStep && scanning && hasReader
    {
      if selectedCameraId == "" {
        return;
      }
      itemBarcode := None;
      hasReader := true;
      scanStep := ItemStep;
      scanning := true;
    }

    /** `handleReset`: stopped, both results cleared, back at the NRIC step. */
    method Reset()
      requires Valid()
      modifies this`nricResult, this`itemBarcode, this`scanStep, this`hasReader, this`scanning
      ensures Valid()
      ensures nricResult == None && itemBarcode == None && scanStep == NricStep && !scanning && !hasReader
    {
      StopScan();
      nricResult := None;
      itemBarcode := None;
      scanStep := NricStep;
    }

    method SetAction(a: Action)
      modifies this`action
      ensures action == a
    {
      action := a;
    }

    /**
     * `handleSubmit`: with both results present, hands them and the action to
     * `onSubmit` and resets; otherwise does nothing. A submitted NRIC is
     * always well formed.
     */
    method Submit() returns (submitted: Option<Submission>)
      requires Valid()
      modifies this`nricResult, this`itemBarcode, this`scanStep, this`hasReader, this`scanning
      ensures Valid()
      ensures submitted.Some? <==>
                old(nricResult).Some? && old(nricResult).value != "" && old(itemBarcode).Some? && old(itemBarcode).value != ""
      ensures submitted.Some? ==>
                && submitted.value == Submission(old(nricResult).value, old(itemBarcode).value, action)
                && IsValidNric(submitted.value.nric)
                && nricResult == None && itemBarcode == None && scanStep == NricStep && !scanning && !hasReader
      ensures submitted.None? ==>
                && nricResult == old(nricResult) && itemBarcode == old(itemBarcode) && scanStep == old(scanStep)
                && scanning == old(scanning) && hasReader == old(hasReader)
    {
      if nricResult.Some? && nricResult.value != "" && itemBarcode.Some? && itemBarcode.value != "" {
        submitted := Some(Submission(nricResult.value, itemBarcode.value, action));
        Reset();
      } else {
        submitted := None;
      }
    }
  }
}
