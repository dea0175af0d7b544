/**
 * modules/dataUtils.js: the three lookups the extractor makes against the
 * spreadsheet. Each sheet read is an input (rows or an error); what remains is
 * pure computation over those rows.
 */
module DataUtils {
  import opened Wrappers
  import opened Text
  import opened Numbers
  import opened Sheets

  // ---------------------------------------------------------------------
  // getNextAssetId
  // ---------------------------------------------------------------------

  /** `id.replace(/^0+/, '')` */
  function StripLeadingZeros(s: string): (r: string)
    ensures |r| <= |s| && r == s[|s| - |r|..]
    ensures forall i :: 0 <= i < |s| - |r| ==> s[i] == '0'
    ensures r == [] || r[0] != '0'
  {
    if s != [] && s[0] == '0' then StripLeadingZeros(s[1..]) else s
  }

  /** The number an id cell stands for, or None when the filter drops it (empty, or NaN once its zeros are stripped). */
  function NumericId(id: string): Option<int> {
    if id == "" then None else ParseInt(StripLeadingZeros(id))
  }

  /** `.filter(...).map(...)`: the numbers of the cells that have one, in order. */
  function NumericIds(ids: seq<string>): (r: seq<int>)
    ensures forall x :: x in r ==> exists id :: id in ids && NumericId(id) == Some(x)
    ensures forall id :: id in ids && NumericId(id).Some? ==> NumericId(id).value in r
  {
    if ids == [] then []
    else
      var rest := NumericIds(ids[1..]);
      assert forall id :: id in ids <==> id == ids[0] || id in ids[1..];
      match NumericId(ids[0])
      case Some(n) => [n] + rest
      case None => rest
  }

  /** `Math.max(...xs, 0)` */
  function MaxWithZero(xs: seq<int>): (m: int)
    ensures m >= 0
    ensures forall x :: x in xs ==> x <= m
    ensures m == 0 || m in xs
  {
    if xs == [] then 0
    else
      var m := MaxWithZero(xs[1..]);
      assert forall x :: x in xs <==> x == xs[0] || x in xs[1..];
      if xs[0] > m then xs[0] else m
  }

  /** `nextId.toString().padStart(4, '0')` */
  function FormatAssetId(n: nat): string {
    PadStart(NatToString(n), 4, '0')
  }

  const FallbackAssetId: string := "0001"

  /** The number after the largest id, or 1 when there is none. */
  function NextId(ids: seq<int>): (n: nat)
    ensures n >= 1
    ensures forall x :: x in ids ==> x < n
    ensures ids != [] ==> n == MaxWithZero(ids) + 1
  {
    if |ids| > 0 then MaxWithZero(ids) + 1 else 1
  }

  /** getNextAssetId over the read of column A of the Assets sheet. */
  function NextAssetId(read: SheetRead): string {
    match read
    case Failure(_) => FallbackAssetId
    case Success(rows) => FormatAssetId(NextId(NumericIds(Flat(rows))))
  }

  /** Zeros in front of a numeral that does not begin with 0 are all stripped. */
  lemma {:induction false} StripPaddingZeros(z: string, d: string)
    requires forall i :: 0 <= i < |z| ==> z[i] == '0'
    requires d != [] && d[0] != '0'
    ensures StripLeadingZeros(z + d) == d
  {
    if z != [] {
      assert (z + d)[1..] == z[1..] + d;
      StripPaddingZeros(z[1..], d);
    }
  }

  /** The id written for n is read back as n. */
  lemma FormatAssetIdRoundTrip(n: nat)
    requires n >= 1
    ensures |FormatAssetId(n)| >= 4
    ensures NumericId(FormatAssetId(n)) == Some(n)
  {
    var digits := NatToString(n);
    var r := FormatAssetId(n);
    var pad := |r| - |digits|;
    assert r == r[..pad] + digits;
    StripPaddingZeros(r[..pad], digits);
    ParseIntOfNatToString(n);
  }

  /**
   * The next id is at least 4 characters long and reads back as the largest
   * numeric id in the column plus one, so it is above every id already there;
   * it is "0001" when the read fails or the column holds no numeric id.
   */
  lemma NextAssetIdSpec(read: SheetRead)
    ensures |NextAssetId(read)| >= 4
    ensures read.Failure? ==> NextAssetId(read) == "0001"
    ensures read.Success? ==> NumericId(NextAssetId(read)) == Some(NextId(NumericIds(Flat(read.value))))
    ensures read.Success? ==> forall id :: id in Flat(read.value) && NumericId(id).Some? ==>
      NumericId(id).value < NumericId(NextAssetId(read)).value
  {
    if read.Success? {
      var ids := NumericIds(Flat(read.value));
      var n := NextId(ids);
      assert NextAssetId(read) == FormatAssetId(n);
      FormatAssetIdRoundTrip(n);
      forall id | id in Flat(read.value) && NumericId(id).Some?
        ensures NumericId(id).value < n
      {
        assert NumericId(id).value in ids;
      }
    }
  }

  /** With no numeric id in the column the sequence starts at 0001. */
  lemma NextAssetIdFirst(rows: seq<Row>)
    requires NumericIds(Flat(rows)) == []
    ensures NextAssetId(Success(rows)) == "0001"
  {
    FirstAssetId();
  }

  lemma FirstAssetId()
    ensures FormatAssetId(1) == "0001"
  {
    assert NatToString(1) == "1";
    assert seq(3, _ => '0') + "1" == "0001";
  }

  /** Empty cells and cells of zeros only are not ids. */
  lemma ZerosAreNotIds(z: string)
    requires forall i :: 0 <= i < |z| ==> z[i] == '0'
    ensures NumericId(z) == None
  {
    StripPaddingZerosEmpty(z);
    TrimUnspaced("");
  }

  /** A cell that does not begin with a digit, a sign or white space is not an id. */
  lemma NonNumericIsNotId(id: string)
    requires id != [] && !IsDigit(id[0]) && !IsSpace(id[0]) && id[0] != '-' && id[0] != '+'
    ensures NumericId(id) == None
  {
    assert StripLeadingZeros(id) == id;
    assert TrimStart(id) == id;
    assert SplitSign(id) == (1, id);
    assert !StartsWith(id, "0x") && !StartsWith(id, "0X") by {
      if |id| >= 2 { assert id[..2][0] == id[0]; }
    }
    assert LeadingCount(id, IsDigit) == 0;
  }

  lemma StripPaddingZerosEmpty(z: string)
    requires forall i :: 0 <= i < |z| ==> z[i] == '0'
    ensures StripLeadingZeros(z) == ""
  {
  }

  /** Zeros in front of a numeral do not change the id it stands for. */
  lemma PaddedId(z: string, n: nat)
    requires forall i :: 0 <= i < |z| ==> z[i] == '0'
    requires n >= 1
    ensures NumericId(z + NatToString(n)) == Some(n)
  {
    StripPaddingZeros(z, NatToString(n));
    ParseIntOfNatToString(n);
  }

  // ---------------------------------------------------------------------
  // getRealtorInfo
  // ---------------------------------------------------------------------

  datatype Realtor = Realtor(name: string, phone: string)

  /** `row[1] === phoneNumber` */
  predicate ListsPhone(row: Row, phone: string) {
    |row| > 1 && row[1] == phone
  }

  /** The index of the first row listing the phone, or |rows|. */
  function FirstListing(rows: seq<Row>, phone: string): (k: nat)
    ensures k <= |rows|
    ensures forall j :: 0 <= j < k ==> !ListsPhone(rows[j], phone)
    ensures k < |rows| ==> ListsPhone(rows[k], phone)
  {
    if rows == [] then 0
    else if ListsPhone(rows[0], phone) then 0
    else 1 + FirstListing(rows[1..], phone)
  }

  /** getRealtorInfo over the read of columns A:B of the Realtors sheet; a read error propagates. */
  function GetRealtorInfo(phone: string, read: SheetRead): (r: Result<Option<Realtor>>)
    ensures read.Failure? ==> r == Failure(read.error)
    ensures read.Success? ==> r.Success?
    ensures read.Success? ==>
      (r.value.None? <==> forall row :: row in read.value ==> !ListsPhone(row, phone))
    ensures read.Success? && r.value.Some? ==>
      exists i :: 0 <= i < |read.value| && ListsPhone(read.value[i], phone)
        && r.value.value == Realtor(read.value[i][0], read.value[i][1])
        && forall j :: 0 <= j < i ==> !ListsPhone(read.value[j], phone)
  {
    match read
    case Failure(e) => Failure(e)
    case Success(rows) =>
      var k := FirstListing(rows, phone);
      if k < |rows| then Success(Some(Realtor(rows[k][0], rows[k][1]))) else Success(None)
  }

  // ---------------------------------------------------------------------
  // validateLocation
  // ---------------------------------------------------------------------

  datatype LocationCheck = LocationCheck(value: string, internalNote: string)

  /** trim, drop one leading ב ("in"), drop one leading ה ("the"), trim. */
  function CleanLocation(s: string): string {
    Trim(DropPrefix(DropPrefix(Trim(s), "ב"), "ה"))
  }

  /** The column of the Streets sheet and the Hebrew label for a location type (the switch on type.toLowerCase()). */
  function LocationColumn(kind: string): Option<(nat, string)> {
    var k := ToLower(kind);
    if k == "neighborhood" then Some((0, "שכונה"))
    else if k == "street" then Some((1, "רחוב"))
    else if k == "city" then Some((2, "עיר"))
    else None
  }

  /** The label used in an error note, chosen on the type as given. */
  function ErrorLabel(kind: string): string {
    if kind == "neighborhood" then "שכונה" else if kind == "street" then "רחוב" else "עיר"
  }

  function ErrorNote(kind: string, message: string): string {
    "שגיאה באימות " + ErrorLabel(kind) + ": " + message
  }

  function NewLocationNote(kindLabel: string, clean: string): string {
    "נמצא/ה " + kindLabel + " חדש/ה: " + clean + ". יש להוסיף ידנית לרשימה."
  }

  /** `streets.map(row => row[col]?.toLowerCase()).filter(Boolean)` */
  function KnownLocations(rows: seq<Row>, col: nat): (r: seq<string>)
    ensures forall x :: x in r ==> x != ""
  {
    if rows == [] then []
    else
      var c := ToLower(Cell(rows[0], col));
      if c != "" then [c] + KnownLocations(rows[1..], col) else KnownLocations(rows[1..], col)
  }

  /** Reference definition: some non-empty cell of the column equals the value, ignoring case. */
  predicate IsKnownLocation(rows: seq<Row>, col: nat, value: string) {
    exists i :: 0 <= i < |rows| && Cell(rows[i], col) != "" && ToLower(Cell(rows[i], col)) == ToLower(value)
  }

  lemma {:induction false} KnownLocationsIff(rows: seq<Row>, col: nat, value: string)
    ensures ToLower(value) in KnownLocations(rows, col) <==> IsKnownLocation(rows, col, value)
  {
    if rows != [] {
      KnownLocationsIff(rows[1..], col, value);
      if IsKnownLocation(rows[1..], col, value) {
        var i :| 0 <= i < |rows[1..]| && Cell(rows[1..][i], col) != "" && ToLower(Cell(rows[1..][i], col)) == ToLower(value);
        assert rows[1..][i] == rows[i + 1];
      }
      if IsKnownLocation(rows, col, value) {
        var i :| 0 <= i < |rows| && Cell(rows[i], col) != "" && ToLower(Cell(rows[i], col)) == ToLower(value);
        if i > 0 {
          assert rows[1..][i - 1] == rows[i];
        }
      }
    }
  }

  /** validateLocation over the read of columns A:C of the Streets sheet. */
  function ValidateLocation(location: string, kind: string, read: SheetRead): LocationCheck {
    if location == "" then LocationCheck("", "")
    else
      var clean := CleanLocation(location);
      match read
      case Failure(e) => LocationCheck(location, ErrorNote(kind, e))
      case Success(rows) =>
        match LocationColumn(kind)
        case None => LocationCheck(location, ErrorNote(kind, "Invalid location type"))
        case Some((col, kindLabel)) =>
          var isNew := ToLower(clean) !in KnownLocations(rows, col);
          LocationCheck(clean, if isNew then NewLocationNote(kindLabel, clean) else "")
  }

  /**
   * An empty location yields an empty value and note whatever the sheet holds;
   * otherwise an error keeps the original value with a non-empty note, and a
   * successful check returns the cleaned value with a note exactly when the
   * cleaned value is not in the column.
   */
  lemma ValidateLocationSpec(location: string, kind: string, read: SheetRead)
    ensures location == "" ==> ValidateLocation(location, kind, read) == LocationCheck("", "")
    ensures location != "" && (read.Failure? || LocationColumn(kind).None?) ==>
      ValidateLocation(location, kind, read).value == location
      && StartsWith(ValidateLocation(location, kind, read).internalNote, "שגיאה באימות ")
    ensures location != "" && read.Success? && LocationColumn(kind).Some? ==>
      var r := ValidateLocation(location, kind, read);
      && r.value == CleanLocation(location)
      && (r.internalNote != "" <==> !IsKnownLocation(read.value, LocationColumn(kind).value.0, CleanLocation(location)))
  {
    if location != "" && read.Success? && LocationColumn(kind).Some? {
      KnownLocationsIff(read.value, LocationColumn(kind).value.0, CleanLocation(location));
    }
    if location != "" && read.Failure? {
      ErrorNoteMarked(kind, read.error);
    }
    if location != "" && LocationColumn(kind).None? {
      ErrorNoteMarked(kind, "Invalid location type");
    }
  }

  lemma ErrorNoteMarked(kind: string, message: string)
    ensures StartsWith(ErrorNote(kind, message), "שגיאה באימות ")
  {
    var head := "שגיאה באימות ";
    assert ErrorNote(kind, message) == head + (ErrorLabel(kind) + ": " + message);
    assert (head + (ErrorLabel(kind) + ": " + message))[..|head|] == head;
  }

  /** The cleaned value carries no surrounding white space. */
  lemma CleanLocationTrimmed(s: string)
    ensures Trim(CleanLocation(s)) == CleanLocation(s)
  {
    TrimIdempotent(DropPrefix(DropPrefix(Trim(s), "ב"), "ה"));
  }

  /** A value that does not begin with either prefix is only trimmed. */
  lemma CleanLocationPlain(s: string)
    requires !StartsWith(Trim(s), "ב") && !StartsWith(Trim(s), "ה")
    ensures CleanLocation(s) == Trim(s)
  {
    TrimIdempotent(s);
  }

  /** At most one ב is removed: "ב" + "בית" cleans to "בית", keeping its own ב. */
  lemma CleanLocationOnce(t: string)
    requires |t| > 0 && !IsSpace(t[0]) && !IsSpace(t[|t| - 1]) && t[0] != 'ה'
    ensures CleanLocation("ב" + t) == t
  {
    var s := "ב" + t;
    TrimUnspaced(s);
    assert s[..1] == "ב" && s[1..] == t;
    assert !StartsWith(t, "ה") by {
      assert t[..1][0] == t[0];
    }
    TrimUnspaced(t);
  }
}
