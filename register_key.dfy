/**
 * app/register-key/page.tsx: the registration form with its input rules, the
 * composition of a new key record, the company filter over the saved records
 * and the set of records selected for printing.
 */
module RegisterKey {
  import opened Wrappers
  import opened LoggingService
  import opened BarcodeService
  import opened Text
  import Seqs

  // ---------------------------------------------------------------------------
  // Number.parseInt, as the key-number input applies it

  /**
   * The white-space characters `parseInt` skips at the front: tab, the line
   * terminators, vertical tab, form feed, BOM and the space separators.
   */
  predicate IsJsWhitespace(c: char) {
    c == ' ' || c == '\t' || c == '\n' || c == '\r' ||
    c as int == 0x0B || c as int == 0x0C || c as int == 0xA0 || c as int == 0xFEFF ||
    c as int == 0x1680 || 0x2000 <= c as int <= 0x200A || c as int == 0x2028 || c as int == 0x2029 ||
    c as int == 0x202F || c as int == 0x205F || c as int == 0x3000
  }

  /** The input without its leading white space. */
  function TrimStart(s: string): (r: string)
    ensures |r| <= |s| && r == s[|s| - |r|..]
    ensures forall i :: 0 <= i < |s| - |r| ==> IsJsWhitespace(s[i])
    ensures r != [] ==> !IsJsWhitespace(r[0])
  {
    if s != [] && IsJsWhitespace(s[0]) then
      var r := TrimStart(s[1..]);
      assert forall i :: 1 <= i < |s| - |r| ==> s[i] == s[1..][i - 1];
      r
    else s
  }

  /** The value of a digit in bases up to 36; 36 for a character that is no digit. */
  function DigitValue(c: char): nat {
    if '0' <= c <= '9' then c as int - '0' as int
    else if 'a' <= c <= 'z' then c as int - 'a' as int + 10
    else if 'A' <= c <= 'Z' then c as int - 'A' as int + 10
    else 36
  }

  /** The number of leading characters of `s` that are digits in `radix`. */
  function DigitRun(s: string, radix: nat): (n: nat)
    ensures n <= |s|
    ensures forall i :: 0 <= i < n ==> DigitValue(s[i]) < radix
    ensures n < |s| ==> DigitValue(s[n]) >= radix
  {
    if s != [] && DigitValue(s[0]) < radix then 1 + DigitRun(s[1..], radix) else 0
  }

  /** The value of a string of digits, most significant first. */
  function ValueOf(digits: string, radix: nat): nat {
    if digits == [] then 0
    else ValueOf(digits[..|digits| - 1], radix) * radix + DigitValue(digits[|digits| - 1])
  }

  /** The digits after the sign: `0x` or `0X` selects base 16, otherwise base 10; no digits is NaN. */
  function ParseUnsigned(u: string): Option<nat> {
    var hex := |u| >= 2 && u[0] == '0' && (u[1] == 'x' || u[1] == 'X');
    var radix := if hex then 16 else 10;
    var w := if hex then u[2..] else u;
    var n := DigitRun(w, radix);
    if n == 0 then None else Some(ValueOf(w[..n], radix))
  }

  /**
   * `Number.parseInt(s)` without a radix: leading white space, an optional
   * sign, then the unsigned part; NaN is None.
   */
  function ParseInt(s: string): (r: Option<int>)
    ensures TrimStart(s) == [] ==> r == None
    ensures TrimStart(s) != [] && !IsDigit(TrimStart(s)[0]) && TrimStart(s)[0] != '-' && TrimStart(s)[0] != '+'
            ==> r == None
    ensures r.Some? && r.value < 0 ==> TrimStart(s)[0] == '-'
  {
    var t := TrimStart(s);
    var negative := t != [] && t[0] == '-';
    var u := if t != [] && (t[0] == '-' || t[0] == '+') then t[1..] else t;
    match ParseUnsigned(u)
    case None => None
    case Some(m) => Some(if negative then -(m as int) else m as int)
  }

  lemma ExponentDigits()
    ensures DigitRun("1e5", 10) == 1 && ValueOf("1", 10) == 1
  {
    var t := "1e5";
    assert DigitValue('1') == 1 && DigitValue('e') == 14;
    assert t[1..] == "e5";
    assert "1"[..0] == [];
  }

  /** `parseInt` reads the longest numeric prefix: "1e5" is 1. */
  lemma ExponentIsIgnored()
    ensures ParseInt("1e5") == Some(1)
  {
    var t := "1e5";
    assert TrimStart(t) == t;
    ExponentDigits();
    assert t[..1] == "1";
    assert ParseUnsigned(t) == Some(1);
  }

  lemma HexDigits()
    ensures DigitRun("3E7", 16) == 3 && ValueOf("3E7", 16) == 999
  {
    var w := "3E7";
    assert DigitValue('3') == 3 && DigitValue('E') == 14 && DigitValue('7') == 7;
    assert w[1..] == "E7" && w[1..][1..] == "7" && w[1..][1..][1..] == [];
    assert w[..2] == "3E" && "3E"[..1] == "3" && "3"[..0] == [];
  }

  /** `parseInt` reads `0x` as hexadecimal: "0x3E7" is 999. */
  lemma HexIsRead()
    ensures ParseInt("0x3E7") == Some(999)
  {
    var h := "0x3E7";
    assert TrimStart(h) == h;
    assert h[2..] == "3E7";
    HexDigits();
    assert "3E7"[..3] == "3E7";
    assert ParseUnsigned(h) == Some(999);
  }

  /**
   * So the key-number input accepts and keeps as typed edits that are no
   * decimal number at all.
   */
  lemma NonDecimalKeyNosAccepted()
    ensures KeyNoAccepted("1e5") && KeyNoAccepted("0x3E7")
  {
    ExponentIsIgnored();
    HexIsRead();
  }

  /** `Number.parseInt(value) || 0`: NaN (and zero) become zero. */
  function KeyNoValue(input: string): (v: int)
    ensures TrimStart(input) == [] ==> v == 0
    ensures v < 0 ==> TrimStart(input)[0] == '-'
  {
    ParseInt(input).GetOr(0)
  }

  /**
   * The key-number input accepts an edit whose parsed value lies in [0, 999].
   * An edit that does not parse counts as zero, so it is accepted.
   */
  function KeyNoAccepted(input: string): (ok: bool)
    ensures ParseInt(input).None? ==> ok
    ensures TrimStart(input) == [] ==> ok
  {
    0 <= KeyNoValue(input) <= 999
  }

  predicate AllDecimalDigits(s: string) {
    forall i :: 0 <= i < |s| ==> IsDigit(s[i])
  }

  lemma {:induction false} DecimalValueBound(s: string)
    requires AllDecimalDigits(s)
    ensures ValueOf(s, 10) < Pow10(|s|)
  {
    if s != [] {
      var init := s[..|s| - 1];
      assert AllDecimalDigits(init) by {
        forall i | 0 <= i < |init| ensures IsDigit(init[i]) {
          assert init[i] == s[i];
        }
      }
      DecimalValueBound(init);
    }
  }

  function Pow10(n: nat): nat {
    if n == 0 then 1 else 10 * Pow10(n - 1)
  }

  /** The unsigned part of a non-empty string of decimal digits is its decimal value. */
  lemma DecimalDigitsUnsigned(s: string)
    requires s != [] && AllDecimalDigits(s)
    ensures ParseUnsigned(s) == Some(ValueOf(s, 10))
  {
    assert |s| >= 2 ==> IsDigit(s[1]);
    assert forall i :: 0 <= i < |s| ==> DigitValue(s[i]) < 10;
    assert DigitRun(s, 10) == |s|;
    assert s[..|s|] == s;
  }

  /** A non-empty string of decimal digits parses to its decimal value. */
  lemma DecimalDigitsParse(s: string)
    requires s != [] && AllDecimalDigits(s)
    ensures ParseInt(s) == Some(ValueOf(s, 10))
  {
    assert IsDigit(s[0]);
    assert TrimStart(s) == s;
    DecimalDigitsUnsigned(s);
  }

  /** On strings of decimal digits the key-number rule accepts exactly the values up to 999. */
  lemma KeyNoDigitsAccepted(s: string)
    requires s != [] && AllDecimalDigits(s)
    ensures KeyNoAccepted(s) <==> ValueOf(s, 10) <= 999
  {
    DecimalDigitsParse(s);
  }

  /** Every key number of at most three digits is accepted. */
  lemma ShortKeyNoAccepted(s: string)
    requires |s| <= 3 && AllDecimalDigits(s)
    ensures KeyNoAccepted(s)
  {
    if s == [] {
      assert ParseInt(s) == None;
    } else {
      DecimalDigitsParse(s);
      DecimalValueBound(s);
      assert Pow10(|s|) <= 1000 by {
        assert Pow10(1) == 10 && Pow10(2) == 100 && Pow10(3) == 1000;
      }
      assert ParseInt(s) == Some(ValueOf(s, 10) as int);
    }
  }

  /** A negative number is refused. */
  lemma NegativeKeyNoRefused(digits: string)
    requires digits != [] && AllDecimalDigits(digits) && ValueOf(digits, 10) > 0
    ensures !KeyNoAccepted("-" + digits)
  {
    var s := "-" + digits;
    assert TrimStart(s) == s;
    assert s[1..] == digits;
    DecimalDigitsUnsigned(digits);
  }

  // ---------------------------------------------------------------------------
  // The new record

  /** The location input: upper-cased and cut to eight characters. */
  function LocationInput(input: string): (r: string)
    ensures |r| == if |input| < 8 then |input| else 8
    ensures r == ToUpper(input)[..|r|]
    ensures forall i :: 0 <= i < |r| ==> !('a' <= r[i] <= 'z')
  {
    Seqs.Take(ToUpper(input), 8)
  }

  /** A location typed through the input is already in its stored form. */
  lemma LocationInputIsStoredForm(input: string)
    ensures ToUpper(LocationInput(input)) == LocationInput(input)
  {
    var r := LocationInput(input);
    assert forall i :: 0 <= i < |r| ==> UpperChar(r[i]) == r[i];
  }

  /** `keyNo.padStart(2, "0")`. */
  function FormatKeyNo(keyNo: string): (r: string)
    ensures |r| == if |keyNo| < 2 then 2 else |keyNo|
    ensures r[|r| - |keyNo|..] == keyNo
    ensures forall i :: 0 <= i < |r| - |keyNo| ==> r[i] == '0'
    ensures |keyNo| >= 2 ==> r == keyNo
  {
    PadStart(keyNo, 2, '0')
  }

  /** The fields of a new key record, before the store adds `id` and `createdAt`. */
  datatype BarcodeDraft = BarcodeDraft(
    company: string,
    location: string,
    keyNo: string,
    barcodeCode: string,
    noOfKeys: string)

  /** `company-LOCATION-keyNo`. */
  function ComposeBarcodeCode(company: string, location: string, keyNo: string): string {
    company + "-" + location + "-" + keyNo
  }

  /** The record `handleAddBarcode` saves. */
  function MakeDraft(company: string, location: string, keyNo: string, noOfKeys: string): (d: BarcodeDraft)
    ensures d.company == company && d.noOfKeys == noOfKeys
    ensures d.location == ToUpper(location)
    ensures d.keyNo == FormatKeyNo(keyNo)
    ensures d.barcodeCode == ComposeBarcodeCode(d.company, d.location, d.keyNo)
  {
    var formattedKeyNo := FormatKeyNo(keyNo);
    BarcodeDraft(company, ToUpper(location), formattedKeyNo,
                 ComposeBarcodeCode(company, ToUpper(location), formattedKeyNo), noOfKeys)
  }

  /** The empty-field guard of `handleAddBarcode` (and of the button). */
  function CanAdd(company: string, location: string, keyNo: string, noOfKeys: string): (ok: bool)
    ensures ok <==> Preview(company, location, keyNo) != "" && noOfKeys != ""
  {
    company != "" && location != "" && keyNo != "" && noOfKeys != ""
  }

  /** The live preview of the barcode string. */
  function Preview(company: string, location: string, keyNo: string): (r: string)
    ensures r != "" <==> company != "" && location != "" && keyNo != ""
    ensures r != "" ==> |r| > |company| && r[..|company| + 1] == company + "-"
    ensures r != "" ==> |r| > |FormatKeyNo(keyNo)| && r[|r| - |FormatKeyNo(keyNo)| - 1..] == "-" + FormatKeyNo(keyNo)
  {
    var formattedKeyNo := if keyNo != "" then FormatKeyNo(keyNo) else "";
    if company != "" && location != "" && keyNo != ""
    then ComposeBarcodeCode(company, ToUpper(location), formattedKeyNo)
    else ""
  }

  /** Whenever adding is possible, the preview shows exactly the barcode string that will be saved. */
  lemma PreviewIsSavedCode(company: string, location: string, keyNo: string, noOfKeys: string)
    requires CanAdd(company, location, keyNo, noOfKeys)
    ensures Preview(company, location, keyNo) == MakeDraft(company, location, keyNo, noOfKeys).barcodeCode
  {
  }

  lemma {:induction false} SplitAtFirstDash(a: string, b: string, c: string, d: string)
    requires '-' !in a && '-' !in c
    requires a + "-" + b == c + "-" + d
    ensures a == c && b == d
  {
    var s := a + "-" + b;
    assert s[|a|] == '-' && s[|c|] == '-';
    assert forall k :: 0 <= k < |a| ==> s[k] == a[k] && s[k] != '-';
    assert forall k :: 0 <= k < |c| ==> s[k] == c[k] && s[k] != '-';
    assert a == s[..|a|] && c == s[..|c|];
    assert b == s[|a| + 1..] && d == s[|c| + 1..];
  }

  /**
   * With no `-` in the company and the location, the barcode string determines
   * the company, the location and the formatted key number.
   */
  lemma BarcodeCodeDetermines(c1: string, l1: string, k1: string, c2: string, l2: string, k2: string)
    requires '-' !in c1 && '-' !in l1 && '-' !in c2 && '-' !in l2
    requires ComposeBarcodeCode(c1, l1, k1) == ComposeBarcodeCode(c2, l2, k2)
    ensures c1 == c2 && l1 == l2 && k1 == k2
  {
    assert ComposeBarcodeCode(c1, l1, k1) == c1 + "-" + (l1 + "-" + k1);
    assert ComposeBarcodeCode(c2, l2, k2) == c2 + "-" + (l2 + "-" + k2);
    SplitAtFirstDash(c1, l1 + "-" + k1, c2, l2 + "-" + k2);
    SplitAtFirstDash(l1, k1, l2, k2);
  }

  /** Padding makes "7" and "07" the same key: nothing keeps barcode strings unique. */
  lemma PaddedKeyNosCollide(company: string, location: string, noOfKeys: string)
    ensures MakeDraft(company, location, "7", noOfKeys).barcodeCode
         == MakeDraft(company, location, "07", noOfKeys).barcodeCode
  {
    assert FormatKeyNo("7") == "07";
  }

  // ---------------------------------------------------------------------------
  // The company filter and the print selection

  /** The company select over the saved records ("all" shows every record). */
  function CompanyFiltered(saved: seq<SavedBarcode>, filterCompany: string): (r: seq<SavedBarcode>)
    ensures Seqs.IsSubsequence(r, saved)
    ensures filterCompany == "all" ==> r == saved
    ensures filterCompany != "all" ==> forall b :: b in r <==> b in saved && b.company == filterCompany
  {
    if filterCompany == "all" then
      Seqs.SubsequenceReflexive(saved);
      saved
    else
      var r := Seqs.Filter(saved, (b: SavedBarcode) => b.company == filterCompany);
      Seqs.FilterIsSubsequence(saved, (b: SavedBarcode) => b.company == filterCompany);
      r
  }

  /** `toggleBarcodeSelection`: flips the membership of `id` and of nothing else. */
  function Toggled(selected: set<string>, id: string): (r: set<string>)
    ensures id in r <==> id !in selected
    ensures forall x :: x != id ==> (x in r <==> x in selected)
  {
    if id in selected then selected - {id} else selected + {id}
  }

  /** Toggling the same record twice restores the selection. */
  lemma ToggleTwice(selected: set<string>, id: string)
    ensures Toggled(Toggled(selected, id), id) == selected
  {
  }

  function Ids(records: seq<SavedBarcode>): set<string> {
    set b | b in records :: b.id
  }

  /**
   * `toggleSelectAll`: clears the selection when its size equals the number of
   * shown records, and otherwise selects exactly the shown records.
   */
  function SelectAllToggled(selected: set<string>, shown: seq<SavedBarcode>): (r: set<string>)
    ensures |selected| == |shown| ==> r == {}
    ensures |selected| != |shown| ==> forall x :: x in r <==> exists i :: 0 <= i < |shown| && shown[i].id == x
  {
    if |selected| == |shown| then {} else Ids(shown)
  }

  /** Shown records with distinct ids are all selected by one press and all cleared by the next. */
  lemma SelectAllThenDeselect(selected: set<string>, shown: seq<SavedBarcode>)
    requires Seqs.NoDuplicates(Seqs.Map(shown, (b: SavedBarcode) => b.id))
    requires |selected| != |shown|
    ensures SelectAllToggled(selected, shown) == Ids(shown)
    ensures SelectAllToggled(SelectAllToggled(selected, shown), shown) == {}
  {
    var ids := Seqs.Map(shown, (b: SavedBarcode) => b.id);
    Seqs.NoDuplicatesCardinality(ids);
    assert (set x | x in ids) == Ids(shown) by {
      forall x | x in ids ensures x in Ids(shown) {
        var i :| 0 <= i < |ids| && ids[i] == x;
        assert shown[i] in shown;
      }
      forall b | b in shown ensures b.id in ids {
        var i :| 0 <= i < |shown| && shown[i] == b;
        assert ids[i] == b.id;
      }
    }
  }

  /** The selection step of `printSelectedBarcodes`: the shown records that are selected, in shown order. */
  function ToPrint(shown: seq<SavedBarcode>, selected: set<string>): (r: seq<SavedBarcode>)
    ensures Seqs.IsSubsequence(r, shown)
    ensures forall b :: b in r <==> b in shown && b.id in selected
    ensures selected == {} ==> r == []
  {
    Seqs.FilterIsSubsequence(shown, (b: SavedBarcode) => b.id in selected);
    Seqs.Filter(shown, (b: SavedBarcode) => b.id in selected)
  }

  /** A saved record built from a draft, as the reload after saving returns it. */
  function Saved(d: BarcodeDraft, id: string, createdAt: Time): SavedBarcode {
    SavedBarcode(id, d.company, d.location, d.keyNo, d.barcodeCode, d.noOfKeys, createdAt, None, None, None)
  }

  /** The state of the registration screen. */
  class RegisterKeyPage {
    var company: string
    var location: string
    var keyNo: string
    var noOfKeys: string
    var savedBarcodes: seq<SavedBarcode>
    var filterCompany: string
    var selected: set<string>

    constructor ()
      ensures company == "" && location == "" && keyNo == "" && noOfKeys == ""
      ensures savedBarcodes == [] && filterCompany == "all" && selected == {}
    {
      company, location, keyNo, noOfKeys := "", "", "", "";
      savedBarcodes, filterCompany, selected := [], "all", {};
    }

    /** `filteredBarcodes`, which an effect recomputes whenever the records or the filter change. */
    function Shown(): seq<SavedBarcode>
      reads this
    {
      CompanyFiltered(savedBarcodes, filterCompany)
    }

    method SetCompany(value: string)
      modifies this`company
      ensures company == value
    {
      company := value;
    }

    /** The location input's `onChange`. */
    method SetLocation(value: string)
      modifies this`location
      ensures location == LocationInput(value)
      ensures |location| <= 8 && ToUpper(location) == location
    {
      location := LocationInput(value);
      LocationInputIsStoredForm(value);
    }

    /** The key-number input's `onChange`: an edit outside [0, 999] is ignored. */
    method SetKeyNo(value: string)
      modifies this`keyNo
      ensures keyNo == if KeyNoAccepted(value) then value else old(keyNo)
    {
      var parsed := KeyNoValue(value);
      if 0 <= parsed <= 999 {
        keyNo := value;
      }
    }

    /** The count input's `onChange`. */
    method SetNoOfKeys(value: string)
      modifies this`noOfKeys
      ensures noOfKeys == ToUpper(value)
    {
      noOfKeys := ToUpper(value);
    }

    method SetFilterCompany(value: string)
      modifies this`filterCompany
      ensures filterCompany == value
    {
      filterCompany := value;
    }

    /** `loadSavedBarcodes`: a failed load is logged and leaves the list as it was. */
    method LoadSavedBarcodes(loaded: Option<seq<SavedBarcode>>)
      modifies this`savedBarcodes
      ensures savedBarcodes == if loaded.Some? then loaded.value else old(savedBarcodes)
    {
      if loaded.Some? {
        savedBarcodes := loaded.value;
      }
    }

    /**
     * `handleAddBarcode`: with every field filled in, saves the composed record
     * (whose id and creation time the store supplies), clears the form and
     * reloads the list, newest record first. A failed save changes nothing; a
     * failed reload keeps the old list.
     */
    method AddBarcode(id: string, createdAt: Time, saveSucceeds: bool, reloadSucceeds: bool)
      returns (stored: Option<SavedBarcode>)
      modifies this`company, this`location, this`keyNo, this`noOfKeys, this`savedBarcodes
      ensures !CanAdd(old(company), old(location), old(keyNo), old(noOfKeys)) || !saveSucceeds ==>
                stored == None && company == old(company) && location == old(location)
                && keyNo == old(keyNo) && noOfKeys == old(noOfKeys) && savedBarcodes == old(savedBarcodes)
      ensures CanAdd(old(company), old(location), old(keyNo), old(noOfKeys)) && saveSucceeds ==>
                && stored == Some(Saved(MakeDraft(old(company), old(location), old(keyNo), old(noOfKeys)), id, createdAt))
                && company == "" && location == "" && keyNo == "" && noOfKeys == ""
                && savedBarcodes == if reloadSucceeds then [stored.value] + old(savedBarcodes) else old(savedBarcodes)
    {
      if company == "" || location == "" || keyNo == "" || noOfKeys == "" {
        return None;
      }
      var draft := MakeDraft(company, location, keyNo, noOfKeys);
      if !saveSucceeds {
        return None;
      }
      var record := Saved(draft, id, createdAt);
      company, location, keyNo, noOfKeys := "", "", "", "";
      if reloadSucceeds {
        savedBarcodes := [record] + savedBarcodes;
      }
      stored := Some(record);
    }

    /**
     * `handleDeleteBarcode`: after a successful delete the list is reloaded and
     * the id leaves the selection; a failed delete changes nothing.
     */
    method DeleteBarcode(id: string, deleteSucceeds: bool, reloadSucceeds: bool)
      modifies this`savedBarcodes, this`selected
      ensures !deleteSucceeds ==> savedBarcodes == old(savedBarcodes) && selected == old(selected)
      ensures deleteSucceeds ==> selected == old(selected) - {id}
      ensures deleteSucceeds && reloadSucceeds ==>
                savedBarcodes == Seqs.Filter(old(savedBarcodes), (b: SavedBarcode) => b.id != id)
      ensures deleteSucceeds && !reloadSucceeds ==> savedBarcodes == old(savedBarcodes)
    {
      if !deleteSucceeds {
        return;
      }
      if reloadSucceeds {
        savedBarcodes := Seqs.Filter(savedBarcodes, (b: SavedBarcode) => b.id != id);
      }
      selected := selected - {id};
    }

    method ToggleBarcodeSelection(id: string)
      modifies this`selected
      ensures selected == Toggled(old(selected), id)
    {
      if id in selected {
        selected := selected - {id};
      } else {
        selected := selected + {id};
      }
    }

    method ToggleSelectAll()
      modifies this`selected
      ensures selected == SelectAllToggled(old(selected), Shown())
    {
      if |selected| == |Shown()| {
        selected := {};
      } else {
        selected := Ids(Shown());
      }
    }

    /**
     * The selection step of `printSelectedBarcodes`: the records to print, and
     * whether a print window is opened at all (not for an empty list).
     */
    method PrintSelectedBarcodes() returns (toPrint: seq<SavedBarcode>, opensWindow: bool)
      ensures toPrint == ToPrint(Shown(), selected)
      ensures opensWindow <==> toPrint != []
    {
      toPrint := ToPrint(Shown(), selected);
      opensWindow := |toPrint| != 0;
    }
  }
}
