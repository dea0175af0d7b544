/**
 * modules/queryBot.js: the operator's query bot. It decides which inbound chat
 * messages are operator queries, filters the Assets rows against the criteria
 * the language model extracted, and builds the summary prompt. The language
 * model, JSON parsing and serialisation, the spreadsheet read and currency
 * formatting are parameters (QueryServices); the bot's state is a class.
 */
module Query {
  import opened Wrappers
  import opened Text
  import opened Numbers
  import opened Sheets
  import opened Messages

  // ---------------------------------------------------------------------
  // The row predicate of filterProperties
  // ---------------------------------------------------------------------

  /**
   * The filter record the model returns. A text criterion of "" and a bound of 0
   * are absent: the source tests every field for truthiness.
   */
  datatype Filter = Filter(
    city: string, neighborhood: string, street: string, propertyType: string,
    minRooms: real, maxRooms: real, minSize: real, maxSize: real,
    minPrice: real, maxPrice: real, includeSold: bool)

  const NoCriteria: Filter := Filter("", "", "", "", 0.0, 0.0, 0.0, 0.0, 0.0, 0.0, false)

  /** Column indices of the Assets sheet read by the filter. */
  const NeighborhoodCol: nat := 3
  const StreetCol: nat := 4
  const CityCol: nat := 5
  const TypeCol: nat := 7
  const RoomsCol: nat := 8
  const SizeCol: nat := 9
  const FirstPriceCol: nat := 13
  const StatusCol: nat := 33

  /** The upper price bound used when the filter has none. */
  const PriceCap: real := 999999999.0

  const ActiveStatus: string := "פעיל"

  /** `parseFloat(x) || 0`: a non-numeric text counts as 0. */
  function NumberOrZero(x: string): real {
    match ParseFloat(x)
    case None => 0.0
    case Some(v) => v
  }

  /** `parseFloat(row[i]) || 0`: a missing or non-numeric cell counts as 0. */
  function CellNumber(row: Row, i: nat): real {
    NumberOrZero(Cell(row, i))
  }

  /** `.filter(p => p > 0)` */
  function Positive(xs: seq<real>): (r: seq<real>)
    ensures forall i :: 0 <= i < |r| ==> r[i] > 0.0
    ensures forall x :: x in r <==> x in xs && x > 0.0
    ensures |r| <= |xs|
    ensures (forall i :: 0 <= i < |xs| ==> xs[i] <= 0.0) ==> r == []
  {
    if xs == [] then []
    else if xs[0] > 0.0 then [xs[0]] + Positive(xs[1..])
    else Positive(xs[1..])
  }

  /** The positive entries keep their input order: filtering a concatenation filters each part. */
  lemma {:induction false} PositiveConcat(a: seq<real>, b: seq<real>)
    ensures Positive(a + b) == Positive(a) + Positive(b)
    decreases |a|
  {
    if a == [] {
      assert a + b == b;
    } else {
      assert (a + b)[0] == a[0];
      assert (a + b)[1..] == a[1..] + b;
      PositiveConcat(a[1..], b);
    }
  }

  /** The numbers in the four price columns (מחיר מעודכן 1-4). */
  function PriceCells(row: Row): seq<real> {
    [CellNumber(row, 13), CellNumber(row, 14), CellNumber(row, 15), CellNumber(row, 16)]
  }

  /** The positive values of the four price columns, in column order. */
  function Prices(row: Row): (r: seq<real>)
    ensures |r| <= 4
    ensures forall i :: 0 <= i < |r| ==> r[i] > 0.0
    ensures forall x :: x in r <==> x in PriceCells(row) && x > 0.0
  {
    Positive(PriceCells(row))
  }

  /** The values the filter reads from a row: text cells lower-cased, numeric cells parsed. */
  datatype Listing = Listing(
    city: string, neighborhood: string, street: string, propertyType: string,
    rooms: real, size: real, prices: seq<real>, status: string)

  function ReadListing(row: Row): (l: Listing)
    ensures forall i :: 0 <= i < |l.prices| ==> l.prices[i] > 0.0
  {
    Listing(
      ToLower(Cell(row, CityCol)), ToLower(Cell(row, NeighborhoodCol)),
      ToLower(Cell(row, StreetCol)), ToLower(Cell(row, TypeCol)),
      CellNumber(row, RoomsCol), CellNumber(row, SizeCol),
      Prices(row), ToLower(Cell(row, StatusCol)))
  }

  /** An absent text criterion matches; a present one must occur in the (lower-cased) cell, ignoring case. */
  predicate TextMatches(cell: string, criterion: string) {
    criterion == "" || Contains(cell, ToLower(criterion))
  }

  /** Inclusive bounds; a bound of 0 is no bound. */
  predicate InRange(x: real, lo: real, hi: real) {
    (lo == 0.0 || x >= lo) && (hi == 0.0 || x <= hi)
  }

  /** A row without a price passes; otherwise some price lies in [minPrice || 0, maxPrice || cap]. */
  predicate PriceMatches(prices: seq<real>, lo: real, hi: real) {
    var cap := if hi == 0.0 then PriceCap else hi;
    |prices| == 0 || exists i :: 0 <= i < |prices| && lo <= prices[i] <= cap
  }

  predicate StatusMatches(status: string, includeSold: bool) {
    includeSold || Contains(status, ActiveStatus)
  }

  /** The conjunction of the eight tests on the values read from a row. */
  predicate ListingMatches(f: Filter, l: Listing) {
    && TextMatches(l.city, f.city)
    && TextMatches(l.neighborhood, f.neighborhood)
    && TextMatches(l.street, f.street)
    && TextMatches(l.propertyType, f.propertyType)
    && InRange(l.rooms, f.minRooms, f.maxRooms)
    && InRange(l.size, f.minSize, f.maxSize)
    && PriceMatches(l.prices, f.minPrice, f.maxPrice)
    && StatusMatches(l.status, f.includeSold)
  }

  /** The predicate passed to rows.filter. */
  predicate Matches(f: Filter, row: Row) {
    ListingMatches(f, ReadListing(row))
  }

  /** Array.prototype.filter on rows, for a predicate `keep`. */
  function Keep(rows: seq<Row>, keep: Row -> bool): (r: seq<Row>)
    ensures |r| <= |rows|
    ensures forall row :: row in r <==> row in rows && keep(row)
  {
    if rows == [] then []
    else
      assert forall row :: row in rows <==> row == rows[0] || row in rows[1..];
      if keep(rows[0]) then [rows[0]] + Keep(rows[1..], keep) else Keep(rows[1..], keep)
  }

  lemma {:induction false} KeepConcat(a: seq<Row>, b: seq<Row>, keep: Row -> bool)
    ensures Keep(a + b, keep) == Keep(a, keep) + Keep(b, keep)
  {
    if a == [] {
      assert a + b == b;
    } else {
      assert (a + b)[0] == a[0];
      assert (a + b)[1..] == a[1..] + b;
      KeepConcat(a[1..], b, keep);
    }
  }

  lemma {:induction false} KeepIdempotent(rows: seq<Row>, keep: Row -> bool)
    ensures Keep(Keep(rows, keep), keep) == Keep(rows, keep)
  {
    if rows != [] {
      KeepIdempotent(rows[1..], keep);
      if keep(rows[0]) {
        var rest := Keep(rows[1..], keep);
        assert ([rows[0]] + rest)[1..] == rest;
      }
    }
  }

  lemma {:induction false} KeepAll(rows: seq<Row>, keep: Row -> bool)
    requires forall i :: 0 <= i < |rows| ==> keep(rows[i])
    ensures Keep(rows, keep) == rows
  {
    if rows != [] {
      KeepAll(rows[1..], keep);
    }
  }

  /** rows.filter(row => Matches(f, row)) */
  function FilterRows(f: Filter, rows: seq<Row>): (r: seq<Row>)
    ensures |r| <= |rows|
    ensures forall row :: row in r <==> row in rows && Matches(f, row)
  {
    Keep(rows, row => Matches(f, row))
  }

  /** Filtering a concatenation filters each part: the kept rows keep their order. */
  lemma FilterRowsConcat(f: Filter, a: seq<Row>, b: seq<Row>)
    ensures FilterRows(f, a + b) == FilterRows(f, a) + FilterRows(f, b)
  {
    KeepConcat(a, b, row => Matches(f, row));
  }

  /** Filtering twice with the same criteria is filtering once. */
  lemma FilterRowsIdempotent(f: Filter, rows: seq<Row>)
    ensures FilterRows(f, FilterRows(f, rows)) == FilterRows(f, rows)
  {
    KeepIdempotent(rows, row => Matches(f, row));
  }

  /** When every row passes, the filter returns the rows unchanged. */
  lemma FilterRowsKeepsAll(f: Filter, rows: seq<Row>)
    requires forall i :: 0 <= i < |rows| ==> Matches(f, rows[i])
    ensures FilterRows(f, rows) == rows
  {
    KeepAll(rows, row => Matches(f, row));
  }

  lemma LowerCharIdempotent(c: char)
    ensures LowerChar(LowerChar(c)) == LowerChar(c)
  {
  }

  lemma ToLowerIdempotent(s: string)
    ensures ToLower(ToLower(s)) == ToLower(s)
  {
    forall i | 0 <= i < |s|
      ensures ToLower(ToLower(s))[i] == ToLower(s)[i]
    {
      LowerCharIdempotent(s[i]);
    }
  }

  /**
   * The text test on any of the four text columns: the criterion's case does not
   * matter, and a present criterion is a substring test on the lower-cased cell.
   */
  lemma TextMatchesIgnoresCase(row: Row, col: nat, criterion: string)
    ensures TextMatches(ToLower(Cell(row, col)), ToLower(criterion)) == TextMatches(ToLower(Cell(row, col)), criterion)
    ensures TextMatches(ToLower(Cell(row, col)), criterion) <==> CellHas(row, col, criterion)
  {
    ToLowerIdempotent(criterion);
    assert ToLower(criterion) == "" <==> criterion == "";
    ContainsIff(ToLower(Cell(row, col)), ToLower(criterion));
  }

  /** A text criterion on a column, stated on the raw cell: absent, or occurring in it with both sides lower-cased. */
  ghost predicate CellHas(row: Row, col: nat, criterion: string) {
    criterion == "" || exists i :: OccursAt(ToLower(Cell(row, col)), ToLower(criterion), i)
  }

  /** The price test on the four price cells: none holds a positive number, or a positive one lies in [lo, hi || cap]. */
  ghost predicate PriceCellsMatch(row: Row, lo: real, hi: real) {
    PositiveInRange(PriceCells(row), lo, hi)
  }

  /** No entry is positive, or some positive entry lies in [lo, hi || cap]. */
  ghost predicate PositiveInRange(xs: seq<real>, lo: real, hi: real) {
    var cap := if hi == 0.0 then PriceCap else hi;
    || !(exists k :: 0 <= k < |xs| && xs[k] > 0.0)
    || (exists k :: 0 <= k < |xs| && xs[k] > 0.0 && lo <= xs[k] <= cap)
  }

  /** The prices a row offers are exactly the positive numbers of its four price cells. */
  lemma PricesOfRow(row: Row, x: real)
    ensures x in ReadListing(row).prices <==> x > 0.0 && exists k :: 0 <= k < 4 && x == PriceCells(row)[k]
  {
    assert ReadListing(row).prices == Positive(PriceCells(row));
    InPositive(PriceCells(row), x);
  }

  /** `.filter(p => p > 0)` keeps exactly the positive entries. */
  lemma InPositive(xs: seq<real>, x: real)
    ensures x in Positive(xs) <==> x > 0.0 && exists k :: 0 <= k < |xs| && x == xs[k]
  {
  }

  /** `prices.length === 0 || prices.some(...)`, stated on the four price cells. */
  lemma PriceMatchesCells(row: Row, lo: real, hi: real)
    ensures PriceMatches(ReadListing(row).prices, lo, hi) <==> PriceCellsMatch(row, lo, hi)
  {
    assert ReadListing(row).prices == Positive(PriceCells(row));
    PositiveMatches(PriceCells(row), lo, hi);
  }

  /** The price test on the positive entries, stated on the entries themselves. */
  lemma PositiveMatches(xs: seq<real>, lo: real, hi: real)
    ensures PriceMatches(Positive(xs), lo, hi) <==> PositiveInRange(xs, lo, hi)
  {
    var cap := if hi == 0.0 then PriceCap else hi;
    var p := Positive(xs);
    if exists k :: 0 <= k < |xs| && xs[k] > 0.0 {
      var k :| 0 <= k < |xs| && xs[k] > 0.0;
      InPositive(xs, xs[k]);
    }
    if p != [] {
      InPositive(xs, p[0]);
    }
    if exists i :: 0 <= i < |p| && lo <= p[i] <= cap {
      var i :| 0 <= i < |p| && lo <= p[i] <= cap;
      InPositive(xs, p[i]);
    }
    if exists k :: 0 <= k < |xs| && xs[k] > 0.0 && lo <= xs[k] <= cap {
      var k :| 0 <= k < |xs| && xs[k] > 0.0 && lo <= xs[k] <= cap;
      InPositive(xs, xs[k]);
      var i :| 0 <= i < |p| && p[i] == xs[k];
    }
  }

  /**
   * The row predicate of rows.filter, every test stated on the row's own cells:
   * the four text columns, the rooms and size ranges, the price cells 13-16 and
   * the status column.
   */
  lemma MatchesSpec(f: Filter, row: Row)
    ensures Matches(f, row) <==>
      && CellHas(row, CityCol, f.city)
      && CellHas(row, NeighborhoodCol, f.neighborhood)
      && CellHas(row, StreetCol, f.street)
      && CellHas(row, TypeCol, f.propertyType)
      && InRange(CellNumber(row, RoomsCol), f.minRooms, f.maxRooms)
      && InRange(CellNumber(row, SizeCol), f.minSize, f.maxSize)
      && PriceCellsMatch(row, f.minPrice, f.maxPrice)
      && (f.includeSold || exists i :: OccursAt(ToLower(Cell(row, StatusCol)), ActiveStatus, i))
  {
    TextMatchesIgnoresCase(row, CityCol, f.city);
    TextMatchesIgnoresCase(row, NeighborhoodCol, f.neighborhood);
    TextMatchesIgnoresCase(row, StreetCol, f.street);
    TextMatchesIgnoresCase(row, TypeCol, f.propertyType);
    PriceMatchesCells(row, f.minPrice, f.maxPrice);
    ContainsIff(ToLower(Cell(row, StatusCol)), ActiveStatus);
  }

  /** With both bounds given, the range test is the closed interval [lo, hi]. */
  lemma InRangeClosed(x: real, lo: real, hi: real)
    requires lo > 0.0 && hi > 0.0
    ensures InRange(x, lo, hi) <==> lo <= x <= hi
  {
  }

  /** A row whose price cells hold no positive number passes the price test whatever the bounds. */
  lemma NoPricePasses(row: Row, lo: real, hi: real)
    requires forall k :: 0 <= k < 4 ==> PriceCells(row)[k] <= 0.0
    ensures PriceMatches(ReadListing(row).prices, lo, hi)
  {
    PriceMatchesCells(row, lo, hi);
  }

  /** An empty filter keeps the active rows that have no price or some price up to the cap. */
  lemma NoCriteriaKeepsActive(l: Listing)
    requires forall i :: 0 <= i < |l.prices| ==> l.prices[i] > 0.0
    ensures ListingMatches(NoCriteria, l) <==>
      && Contains(l.status, ActiveStatus)
      && (l.prices == [] || exists i :: 0 <= i < |l.prices| && l.prices[i] <= PriceCap)
  {
    if l.prices != [] && (exists i :: 0 <= i < |l.prices| && l.prices[i] <= PriceCap) {
      var i :| 0 <= i < |l.prices| && l.prices[i] <= PriceCap;
      assert 0.0 <= l.prices[i] <= PriceCap;
    }
  }

  /** includeSold only adds rows: the active-status test is the one it lifts. */
  lemma IncludeSoldWidens(f: Filter, l: Listing)
    ensures ListingMatches(f.(includeSold := false), l) ==> ListingMatches(f.(includeSold := true), l)
    ensures Contains(l.status, ActiveStatus) ==>
      (ListingMatches(f.(includeSold := false), l) <==> ListingMatches(f.(includeSold := true), l))
  {
  }

  /** The worked example: minRooms 3, maxPrice 2000000, on an active 3-room listing with one price. */
  lemma RoomsAndPriceExample(l: Listing)
    requires l.rooms == 3.0 && Contains(l.status, ActiveStatus)
    ensures l.prices == [1800000.0] ==> ListingMatches(NoCriteria.(minRooms := 3.0, maxPrice := 2000000.0), l)
    ensures l.prices == [2500000.0] ==> !ListingMatches(NoCriteria.(minRooms := 3.0, maxPrice := 2000000.0), l)
  {
    if l.prices == [1800000.0] {
      assert 0.0 <= l.prices[0] <= 2000000.0;
    }
  }

  // ---------------------------------------------------------------------
  // formatPropertyForSummary and summarizeResults
  // ---------------------------------------------------------------------

  const NoPrice: string := "לא צוין"
  const PriceLabel: string := "מחיר עדכני: "

  /** `prices.map(formatPrice)` */
  function FormatPrices(prices: seq<real>, fmt: real -> string): seq<string> {
    seq(|prices|, i requires 0 <= i < |prices| => fmt(prices[i]))
  }

  /** The price line: the first formatted price (or the no-price text), then a history line of the others. */
  function PriceSlot(h: seq<string>): string {
    var current := if |h| > 0 && h[0] != "" then h[0] else NoPrice;
    var history := if |h| > 1 then "\nהיסטוריית מחירים: " + Join(h[1..], ", ") else "";
    PriceLabel + current + history
  }

  /**
   * The slot shows the first price when there is one and the no-price text when
   * there is none; with prices formatted on one line, it breaks into a second
   * (history) line exactly when there is more than one price.
   */
  lemma PriceSlotSpec(h: seq<string>)
    requires forall i :: 0 <= i < |h| ==> '\n' !in h[i]
    ensures h == [] ==> PriceSlot(h) == PriceLabel + NoPrice
    ensures h != [] && h[0] != "" ==> StartsWith(PriceSlot(h), PriceLabel + h[0])
    ensures '\n' in PriceSlot(h) <==> |h| > 1
  {
    var current := if |h| > 0 && h[0] != "" then h[0] else NoPrice;
    assert '\n' !in PriceLabel;
    assert '\n' !in NoPrice;
    assert '\n' !in current;
    if |h| > 1 {
      var history := "\nהיסטוריית מחירים: " + Join(h[1..], ", ");
      assert PriceSlot(h) == (PriceLabel + current) + history;
      assert (PriceLabel + current + history)[|PriceLabel + current|] == '\n';
    } else {
      assert PriceSlot(h) == PriceLabel + current;
    }
    if h != [] && h[0] != "" {
      assert PriceSlot(h)[..|PriceLabel + h[0]|] == PriceLabel + h[0];
    }
  }

  function YesNo(present: bool): string {
    if present then "יש" else "אין"
  }

  /** The six lines of formatPropertyForSummary; the price line may itself break into two. */
  function PropertyLines(row: Row, fmt: real -> string): (r: seq<string>)
    ensures |r| == 6
    ensures StartsWith(r[0], "נכס ב" + Cell(row, CityCol))
    ensures r[5] == "הערות: " + Cell(row, 30)
  {
    var head := "נכס ב" + Cell(row, 5);
    var first := head + (", " + Cell(row, 3) + ", " + Cell(row, 4) + " " + Cell(row, 6));
    assert first[..|head|] == head;
    [ first,
      "סוג: " + Cell(row, 7) + ", " + Cell(row, 8) + " חדרים, " + Cell(row, 9) + " מ\"ר",
      "קומה: " + Cell(row, 17) + ", " + YesNo(Cell(row, 20) != "") + " מעלית",
      "מצב: " + Cell(row, 28) + ", פינוי: " + Cell(row, 29),
      PriceSlot(FormatPrices(Prices(row), fmt)),
      "הערות: " + Cell(row, 30) ]
  }

  /** formatPropertyForSummary: the lines joined by line breaks. */
  function FormatProperty(row: Row, fmt: real -> string): string {
    Join(PropertyLines(row, fmt), "\n")
  }

  /** A description opens with the city and address and closes with the notes cell. */
  lemma FormatPropertyEnds(row: Row, fmt: real -> string)
    ensures StartsWith(FormatProperty(row, fmt), "נכס ב" + Cell(row, CityCol))
    ensures EndsWith(FormatProperty(row, fmt), "הערות: " + Cell(row, 30))
  {
    var lines := PropertyLines(row, fmt);
    JoinEnds(lines, "\n");
    AffixTransitive(Join(lines, "\n"), lines[0], "נכס ב" + Cell(row, CityCol));
  }

  /** formatPropertyForSummary as a function value, for `rows.map`. */
  function Describer(fmt: real -> string): Row -> string {
    row => FormatProperty(row, fmt)
  }

  /** `rows.map(describe)` */
  function MapRows(rows: seq<Row>, describe: Row -> string): (r: seq<string>)
    ensures |r| == |rows|
  {
    if rows == [] then [] else [describe(rows[0])] + MapRows(rows[1..], describe)
  }

  /** Mapping is row by row: the map of a concatenation is the two maps, in order. */
  lemma {:induction false} MapRowsConcat(a: seq<Row>, b: seq<Row>, describe: Row -> string)
    ensures MapRows(a + b, describe) == MapRows(a, describe) + MapRows(b, describe)
  {
    if a == [] {
      assert a + b == b;
    } else {
      assert (a + b)[0] == a[0];
      assert (a + b)[1..] == a[1..] + b;
      MapRowsConcat(a[1..], b, describe);
    }
  }

  /** How many matches the summary lists in full. */
  const ListedMatches: nat := 5

  /** The first five rows, described and separated by a blank line. */
  function Listed(rows: seq<Row>, describe: Row -> string): string {
    var n := if |rows| < ListedMatches then |rows| else ListedMatches;
    Join(MapRows(rows[..n], describe), "\n\n")
  }

  /** The first five matches, formatted and separated by a blank line. */
  function ShortList(rows: seq<Row>, fmt: real -> string): string {
    Listed(rows, Describer(fmt))
  }

  /** Matches beyond the fifth never reach the short list. */
  lemma ShortListIgnoresTail(rows: seq<Row>, more: seq<Row>, fmt: real -> string)
    requires |rows| >= ListedMatches
    ensures ShortList(rows + more, fmt) == ShortList(rows, fmt)
  {
    assert (rows + more)[..ListedMatches] == rows[..ListedMatches];
  }

  /**
   * The short list grows one blank-line-separated description per match while
   * fewer than five are listed: no matches give "", one match its description.
   */
  lemma ShortListEntries(rows: seq<Row>, x: Row, fmt: real -> string)
    ensures ShortList([], fmt) == ""
    ensures ShortList([x], fmt) == FormatProperty(x, fmt)
    ensures 1 <= |rows| < ListedMatches ==>
      ShortList(rows + [x], fmt) == ShortList(rows, fmt) + "\n\n" + FormatProperty(x, fmt)
  {
    ListedEntries(rows, x, Describer(fmt));
    assert Describer(fmt)(x) == FormatProperty(x, fmt);
  }

  lemma ListedEntries(rows: seq<Row>, x: Row, describe: Row -> string)
    ensures Listed([], describe) == ""
    ensures Listed([x], describe) == describe(x)
    ensures 1 <= |rows| < ListedMatches ==>
      Listed(rows + [x], describe) == Listed(rows, describe) + "\n\n" + describe(x)
  {
    assert [x][..1] == [x];
    assert [x][1..] == [];
    if 1 <= |rows| < ListedMatches {
      assert (rows + [x])[..|rows| + 1] == rows + [x];
      assert rows[..|rows|] == rows;
      MapRowsConcat(rows, [x], describe);
      assert MapRows([x], describe) == [describe(x)];
      JoinSnoc(MapRows(rows, describe), describe(x), "\n\n");
    }
  }

  /** The four placeholder replacements of summarizeResults, each on the first occurrence, in this order. */
  function FillSummary(template: string, query: string, filterJson: string, count: string, list: string): string {
    var p1 := ReplaceFirst(template, "<USER_QUERY>", query);
    var p2 := ReplaceFirst(p1, "<FILTER_JSON>", filterJson);
    var p3 := ReplaceFirst(p2, "<COUNT>", count);
    ReplaceFirst(p3, "<SHORT_LIST>", list)
  }

  /** The summary prompt: the query, the filter, the full match count and the short list. */
  function SummaryPrompt(template: string, query: string, filterJson: string, matches: seq<Row>, fmt: real -> string): string {
    FillSummary(template, query, filterJson, NatToString(|matches|), ShortList(matches, fmt))
  }

  /**
   * On a template holding the four placeholders in order, with no '<' in the
   * text between them or in the values substituted before the last, every
   * placeholder gives way to its value.
   */
  lemma FillSummaryInOrder(t0: string, t1: string, t2: string, t3: string, t4: string,
                           query: string, filterJson: string, count: string, list: string)
    requires '<' !in t0 && '<' !in t1 && '<' !in t2 && '<' !in t3
    requires '<' !in query && '<' !in filterJson && '<' !in count
    ensures FillSummary(t0 + "<USER_QUERY>" + t1 + "<FILTER_JSON>" + t2 + "<COUNT>" + t3 + "<SHORT_LIST>" + t4,
                        query, filterJson, count, list)
         == t0 + query + t1 + filterJson + t2 + count + t3 + list + t4
  {
    var template := t0 + "<USER_QUERY>" + t1 + "<FILTER_JSON>" + t2 + "<COUNT>" + t3 + "<SHORT_LIST>" + t4;
    var a3 := t0 + query + t1 + filterJson + t2;
    FillFirstTwo(t0, t1, t2 + "<COUNT>" + t3 + "<SHORT_LIST>" + t4, query, filterJson);
    assert template == t0 + "<USER_QUERY>" + t1 + "<FILTER_JSON>" + (t2 + "<COUNT>" + t3 + "<SHORT_LIST>" + t4);
    assert a3 + "<COUNT>" + t3 + "<SHORT_LIST>" + t4 == t0 + query + t1 + filterJson + (t2 + "<COUNT>" + t3 + "<SHORT_LIST>" + t4);
    FillLastTwo(a3, t3, t4, count, list);
  }

  lemma FillFirstTwo(t0: string, t1: string, rest: string, query: string, filterJson: string)
    requires '<' !in t0 && '<' !in t1 && '<' !in query
    ensures ReplaceFirst(ReplaceFirst(t0 + "<USER_QUERY>" + t1 + "<FILTER_JSON>" + rest, "<USER_QUERY>", query), "<FILTER_JSON>", filterJson)
         == t0 + query + t1 + filterJson + rest
  {
    var rest1 := t1 + "<FILTER_JSON>" + rest;
    assert t0 + "<USER_QUERY>" + t1 + "<FILTER_JSON>" + rest == t0 + "<USER_QUERY>" + rest1;
    ReplaceFirstAfter(t0, "<USER_QUERY>", rest1, query);
    assert t0 + query + rest1 == (t0 + query + t1) + "<FILTER_JSON>" + rest;
    ReplaceFirstAfter(t0 + query + t1, "<FILTER_JSON>", rest, filterJson);
  }

  lemma FillLastTwo(a: string, t3: string, t4: string, count: string, list: string)
    requires '<' !in a && '<' !in t3 && '<' !in count
    ensures ReplaceFirst(ReplaceFirst(a + "<COUNT>" + t3 + "<SHORT_LIST>" + t4, "<COUNT>", count), "<SHORT_LIST>", list)
         == a + count + t3 + list + t4
  {
    var rest := t3 + "<SHORT_LIST>" + t4;
    assert a + "<COUNT>" + t3 + "<SHORT_LIST>" + t4 == a + "<COUNT>" + rest;
    ReplaceFirstAfter(a, "<COUNT>", rest, count);
    assert a + count + rest == (a + count + t3) + "<SHORT_LIST>" + t4;
    ReplaceFirstAfter(a + count + t3, "<SHORT_LIST>", t4, list);
  }

  /** A count written by toString holds no '<', so the short list lands in its placeholder. */
  lemma SummaryPromptInOrder(t0: string, t1: string, t2: string, t3: string, t4: string,
                             query: string, filterJson: string, matches: seq<Row>, fmt: real -> string)
    requires '<' !in t0 && '<' !in t1 && '<' !in t2 && '<' !in t3
    requires '<' !in query && '<' !in filterJson
    ensures SummaryPrompt(t0 + "<USER_QUERY>" + t1 + "<FILTER_JSON>" + t2 + "<COUNT>" + t3 + "<SHORT_LIST>" + t4,
                          query, filterJson, matches, fmt)
         == t0 + query + t1 + filterJson + t2 + NatToString(|matches|) + t3 + ShortList(matches, fmt) + t4
  {
    var count := NatToString(|matches|);
    assert forall i :: 0 <= i < |count| ==> count[i] != '<';
    FillSummaryInOrder(t0, t1, t2, t3, t4, query, filterJson, count, ShortList(matches, fmt));
  }

  // ---------------------------------------------------------------------
  // processQuery
  // ---------------------------------------------------------------------

  /**
   * What the bot calls out to: the two language-model completions (prompt to
   * reply text, or the error they throw), JSON.parse of a filter,
   * JSON.stringify of a filter, the SPREADSHEET_ID setting ("" when unset), the
   * read of Assets!A2:AI, and the he-IL currency formatter.
   */
  datatype QueryServices = QueryServices(
    interpretModel: string -> Result<string>,
    parseFilter: string -> Option<Filter>,
    filterJson: Filter -> string,
    spreadsheetId: string,
    assets: SheetRead,
    formatPrice: real -> string,
    summarizeModel: string -> Result<string>)

  const ParseFailure: string := "Failed to parse query interpretation"
  const MissingSheet: string := "Missing SPREADSHEET_ID configuration"
  const Unauthorized: string := "Unauthorized query source"

  /** interpretQuery: the prompt with the query, the trimmed reply parsed as a filter. */
  function InterpretQuery(prompt: string, query: string, s: QueryServices): (r: Result<Filter>)
    ensures s.interpretModel(ReplaceFirst(prompt, "<USER_QUERY>", query)).Failure? ==>
      r == Failure(s.interpretModel(ReplaceFirst(prompt, "<USER_QUERY>", query)).error)
    ensures s.interpretModel(ReplaceFirst(prompt, "<USER_QUERY>", query)).Success? ==>
      var raw := Trim(s.interpretModel(ReplaceFirst(prompt, "<USER_QUERY>", query)).value);
      r == if s.parseFilter(raw).Some? then Success(s.parseFilter(raw).value) else Failure(ParseFailure)
  {
    var reply :- s.interpretModel(ReplaceFirst(prompt, "<USER_QUERY>", query));
    match s.parseFilter(Trim(reply))
    case Some(f) => Success(f)
    case None => Failure(ParseFailure)
  }

  /** filterProperties: the configuration check, the read, then the row predicate. */
  function FilterProperties(f: Filter, s: QueryServices): (r: Result<seq<Row>>)
    ensures s.spreadsheetId == "" ==> r == Failure(MissingSheet)
    ensures s.spreadsheetId != "" && s.assets.Failure? ==> r == Failure(s.assets.error)
    ensures s.spreadsheetId != "" && s.assets.Success? ==> r == Success(FilterRows(f, s.assets.value))
  {
    if s.spreadsheetId == "" then Failure(MissingSheet)
    else
      var rows :- s.assets;
      Success(FilterRows(f, rows))
  }

  /** summarizeResults: the trimmed completion of the filled summary prompt. */
  function SummarizeResults(prompt: string, query: string, f: Filter, matches: seq<Row>, s: QueryServices): Result<string> {
    var reply :- s.summarizeModel(SummaryPrompt(prompt, query, s.filterJson(f), matches, s.formatPrice));
    Success(Trim(reply))
  }

  /** processQuery: refuse a sender other than the bot's own number, then interpret, filter and summarize. */
  function ProcessQuery(interpretPrompt: string, summarizePrompt: string, query: string,
                        fromNumber: string, myNumber: string, s: QueryServices): Result<string> {
    if fromNumber != "" && fromNumber != myNumber then Failure(Unauthorized)
    else
      var f :- InterpretQuery(interpretPrompt, query, s);
      var matches :- FilterProperties(f, s);
      SummarizeResults(summarizePrompt, query, f, matches, s)
  }

  /** A query from another number is refused before any service is used; the bot's own number is never refused. */
  lemma ProcessQueryAuthorization(ip: string, sp: string, query: string, fromNumber: string, myNumber: string, s: QueryServices)
    ensures fromNumber != "" && fromNumber != myNumber ==> ProcessQuery(ip, sp, query, fromNumber, myNumber, s) == Failure(Unauthorized)
    ensures ProcessQuery(ip, sp, query, myNumber, myNumber, s) == ProcessQuery(ip, sp, query, "", myNumber, s)
    ensures
      (&& (fromNumber == "" || fromNumber == myNumber)
       && s.interpretModel(ReplaceFirst(ip, "<USER_QUERY>", query)).Success?
       && s.parseFilter(Trim(s.interpretModel(ReplaceFirst(ip, "<USER_QUERY>", query)).value)).Some?
       && s.spreadsheetId != "" && s.assets.Success?)
      ==>
      var f := s.parseFilter(Trim(s.interpretModel(ReplaceFirst(ip, "<USER_QUERY>", query)).value)).value;
      ProcessQuery(ip, sp, query, fromNumber, myNumber, s) == SummarizeResults(sp, query, f, FilterRows(f, s.assets.value), s)
  {
  }

  // ---------------------------------------------------------------------
  // The messages.upsert handler and handleWhatsAppQuery
  // ---------------------------------------------------------------------

  const BotMarker: string := "[BOT]"
  const ReplyPrefix: string := "[BOT]\n"
  const ErrorReplyPrefix: string := "שגיאה בעיבוד השאילתה: "

  /** A message the bot sends: the chat it goes to and its text. */
  datatype Reply = Reply(chat: string, text: string)

  /** `((participant || remoteJid || '').split('@')[0] || '').trim()` */
  function SenderId(key: MessageKey): string {
    Trim(Before(if key.participant != "" then key.participant else key.remoteJid, '@'))
  }

  /** A chat that is not a group: a remoteJid not ending in @g.us. */
  predicate IsDirect(key: MessageKey) {
    key.remoteJid != "" && !EndsWith(key.remoteJid, "@g.us")
  }

  /** The outcome of the guard chain for one message of a batch. */
  datatype Route = Malformed | OwnReply | NoSender | NotDirect | OtherSender | ToQueryHandler

  function RouteOf(m: Message, myNumber: string): Route {
    if m.key.None? then Malformed
    else
      var key := m.key.value;
      if key.fromMe && StartsWith(Trim(QueryText(m.content)), BotMarker) then OwnReply
      else if SenderId(key) == "" || myNumber == "" then NoSender
      else if IsDirect(key) && SenderId(key) == myNumber then ToQueryHandler
      else if !IsDirect(key) then NotDirect
      else OtherSender
  }

  /**
   * A message reaches the query handler exactly when it has a key, is not the
   * bot's own marked reply, comes from a direct chat and its sender id is the
   * bot's (non-empty) number.
   */
  lemma RouteToHandlerIff(m: Message, myNumber: string)
    ensures RouteOf(m, myNumber) == ToQueryHandler <==>
      && m.key.Some?
      && !(m.key.value.fromMe && StartsWith(Trim(QueryText(m.content)), BotMarker))
      && m.key.value.remoteJid != ""
      && !EndsWith(m.key.value.remoteJid, "@g.us")
      && SenderId(m.key.value) != ""
      && SenderId(m.key.value) == myNumber
  {
  }

  lemma ReplyPrefixMarked(t: string)
    ensures StartsWith(Trim(ReplyPrefix + t), BotMarker)
  {
    assert StartsWith(ReplyPrefix + t, BotMarker) by {
      assert (ReplyPrefix + t)[..|BotMarker|] == BotMarker;
    }
    TrimKeepsPrefix(ReplyPrefix + t, BotMarker);
  }

  /** The bot's own replies, echoed back as self-sent messages, never reach the handler. */
  lemma OwnRepliesNotRouted(m: Message, myNumber: string, t: string)
    requires m.key.Some? && m.key.value.fromMe
    requires m.content.Some? && QueryText(m.content) == ReplyPrefix + t
    ensures RouteOf(m, myNumber) == OwnReply
  {
    ReplyPrefixMarked(t);
  }

  /** The reply text for the outcome of processQuery. */
  function ReplyText(outcome: Result<string>): (r: string)
    ensures StartsWith(r, ReplyPrefix)
    ensures outcome.Success? ==> r[|ReplyPrefix|..] == outcome.value
    ensures outcome.Failure? ==> r[|ReplyPrefix|..] == ErrorReplyPrefix + outcome.error
  {
    var body := match outcome
      case Success(summary) => summary
      case Failure(e) => ErrorReplyPrefix + e;
    assert (ReplyPrefix + body)[..|ReplyPrefix|] == ReplyPrefix;
    ReplyPrefix + body
  }

  /** handleWhatsAppQuery: ignore an empty or marked query, otherwise reply in the same chat. */
  function HandleQuery(m: Message, myNumber: string, interpretPrompt: string, summarizePrompt: string, s: QueryServices): Option<Reply>
    requires m.key.Some?
  {
    var query := QueryText(m.content);
    if query == "" || StartsWith(Trim(query), BotMarker) then None
    else Some(Reply(m.key.value.remoteJid, ReplyText(ProcessQuery(interpretPrompt, summarizePrompt, query, myNumber, myNumber, s))))
  }

  /**
   * The handler stays silent exactly on empty or marked queries; otherwise it
   * answers in the message's chat with a marked reply.
   */
  lemma HandleQuerySpec(m: Message, myNumber: string, ip: string, sp: string, s: QueryServices)
    requires m.key.Some?
    ensures HandleQuery(m, myNumber, ip, sp, s).None? <==>
      QueryText(m.content) == "" || StartsWith(Trim(QueryText(m.content)), BotMarker)
    ensures HandleQuery(m, myNumber, ip, sp, s).Some? ==>
      var r := HandleQuery(m, myNumber, ip, sp, s).value;
      && r.chat == m.key.value.remoteJid
      && StartsWith(r.text, ReplyPrefix)
      && r.text == ReplyText(ProcessQuery(ip, sp, QueryText(m.content), myNumber, myNumber, s))
  {
  }

  /** What handleWhatsAppQuery sends for a message: nothing or one reply. */
  function Answer(m: Message, myNumber: string, ip: string, sp: string, s: QueryServices): seq<Reply>
    requires m.key.Some?
  {
    match HandleQuery(m, myNumber, ip, sp, s)
    case None => []
    case Some(r) => [r]
  }

  /** What one message of a batch makes the bot send. */
  function RepliesTo(m: Message, myNumber: string, ip: string, sp: string, s: QueryServices): seq<Reply> {
    if RouteOf(m, myNumber) != ToQueryHandler then [] else Answer(m, myNumber, ip, sp, s)
  }

  /** What a batch makes the bot send, message by message. */
  function Replies(ms: seq<Message>, myNumber: string, ip: string, sp: string, s: QueryServices): seq<Reply> {
    if ms == [] then [] else Replies(ms[..|ms| - 1], myNumber, ip, sp, s) + RepliesTo(ms[|ms| - 1], myNumber, ip, sp, s)
  }

  lemma RepliesSnoc(ms: seq<Message>, i: nat, myNumber: string, ip: string, sp: string, s: QueryServices)
    requires i < |ms|
    ensures Replies(ms[..i + 1], myNumber, ip, sp, s) == Replies(ms[..i], myNumber, ip, sp, s) + RepliesTo(ms[i], myNumber, ip, sp, s)
  {
    assert ms[..i + 1][..i] == ms[..i];
  }

  lemma RepliesWhole(ms: seq<Message>, myNumber: string, ip: string, sp: string, s: QueryServices)
    ensures Replies(ms[..|ms|], myNumber, ip, sp, s) == Replies(ms, myNumber, ip, sp, s)
  {
    assert ms[..|ms|] == ms;
  }

  /** Every reply the bot sends is marked and answers a handled message from the bot's own number. */
  lemma {:induction false} RepliesMarked(ms: seq<Message>, myNumber: string, ip: string, sp: string, s: QueryServices)
    ensures forall r :: r in Replies(ms, myNumber, ip, sp, s) ==>
      StartsWith(r.text, ReplyPrefix)
      && exists i :: 0 <= i < |ms| && RouteOf(ms[i], myNumber) == ToQueryHandler && r.chat == ms[i].key.value.remoteJid
  {
    if ms != [] {
      var init := ms[..|ms| - 1];
      RepliesMarked(init, myNumber, ip, sp, s);
      forall r | r in Replies(ms, myNumber, ip, sp, s)
        ensures StartsWith(r.text, ReplyPrefix)
        ensures exists i :: 0 <= i < |ms| && RouteOf(ms[i], myNumber) == ToQueryHandler && r.chat == ms[i].key.value.remoteJid
      {
        if r in Replies(init, myNumber, ip, sp, s) {
          var i :| 0 <= i < |init| && RouteOf(init[i], myNumber) == ToQueryHandler && r.chat == init[i].key.value.remoteJid;
          assert ms[i] == init[i];
        } else {
          var last := ms[|ms| - 1];
          assert r in RepliesTo(last, myNumber, ip, sp, s);
          HandleQuerySpec(last, myNumber, ip, sp, s);
          assert RouteOf(ms[|ms| - 1], myNumber) == ToQueryHandler;
        }
      }
    }
  }

  /** What one messages.upsert event makes the bot send: nothing without a registered handler or an array. */
  function UpsertReplies(batch: Option<seq<Message>>, handlers: nat, myNumber: string, ip: string, sp: string, s: QueryServices): (r: seq<Reply>)
    ensures handlers == 0 || batch.None? ==> r == []
  {
    if handlers == 0 || batch.None? then [] else Replies(batch.value, myNumber, ip, sp, s)
  }

  /**
   * The outcome of initialize's setup steps, in the order they run: creating the
   * clients, reading the two prompt files (the first may have been read when the
   * second fails), and awaiting the connection.
   */
  datatype Setup =
    | ClientsFailed(error: string)
    | PromptsFailed(interpretRead: Option<string>, error: string)
    | ConnectionFailed(interpretText: string, summarizeText: string, error: string)
    | Ready(interpretText: string, summarizeText: string, userId: string)

  /** The QueryBot singleton. `myNumber` is "" while unset. */
  class QueryBot {
    var initialized: bool
    var myNumber: string
    var interpretPrompt: string
    var summarizePrompt: string
    /** The number of messages.upsert handlers registered on the socket. */
    var handlers: nat
    /** Everything sent through the socket so far. */
    var outbox: seq<Reply>

    /** A handler is registered exactly once initialize has completed. */
    ghost predicate Valid()
      reads this
    {
      handlers == (if initialized then 1 else 0)
    }

    constructor()
      ensures Valid() && !initialized && myNumber == "" && interpretPrompt == "" && summarizePrompt == ""
      ensures outbox == []
    {
      initialized := false;
      myNumber := "";
      interpretPrompt := "";
      summarizePrompt := "";
      handlers := 0;
      outbox := [];
    }

    /**
     * initialize: a no-op once initialized; otherwise the steps run in order and
     * the first failure is returned, keeping what earlier steps stored.
     */
    method Initialize(setup: Setup) returns (r: Result<()>)
      requires Valid()
      modifies this
      ensures Valid() && outbox == old(outbox)
      ensures old(initialized) ==> r.Success? && unchanged(this)
      ensures !old(initialized) && setup.Ready? ==>
        && r.Success? && initialized
        && myNumber == Before(setup.userId, ':')
        && interpretPrompt == setup.interpretText && summarizePrompt == setup.summarizeText
      ensures !old(initialized) && setup.ConnectionFailed? ==>
        && r == Failure(setup.error) && !initialized && myNumber == old(myNumber)
        && interpretPrompt == setup.interpretText && summarizePrompt == setup.summarizeText
      ensures !old(initialized) && setup.ClientsFailed? ==> r == Failure(setup.error) && unchanged(this)
      ensures !old(initialized) && setup.PromptsFailed? ==>
        && r == Failure(setup.error) && !initialized && myNumber == old(myNumber) && handlers == old(handlers)
        && interpretPrompt == setup.interpretRead.GetOr(old(interpretPrompt)) && summarizePrompt == old(summarizePrompt)
    {
      if initialized {
        return Success(());
      }
      match setup
      case ClientsFailed(e) =>
        r := Failure(e);
      case PromptsFailed(first, e) =>
        if first.Some? {
          interpretPrompt := first.value;
        }
        r := Failure(e);
      case ConnectionFailed(it, st, e) =>
        interpretPrompt := it;
        summarizePrompt := st;
        r := Failure(e);
      case Ready(it, st, id) =>
        interpretPrompt := it;
        summarizePrompt := st;
        myNumber := Before(id, ':');
        handlers := handlers + 1;
        initialized := true;
        r := Success(());
    }

    /**
     * handleWhatsAppQuery: process the message's query and send the reply (or
     * the error text) to its chat; an empty or marked query sends nothing.
     */
    method HandleWhatsAppQuery(m: Message, s: QueryServices)
      requires m.key.Some?
      modifies this
      ensures initialized == old(initialized) && myNumber == old(myNumber) && handlers == old(handlers)
      ensures interpretPrompt == old(interpretPrompt) && summarizePrompt == old(summarizePrompt)
      ensures outbox == old(outbox) + Answer(m, myNumber, interpretPrompt, summarizePrompt, s)
    {
      var reply := HandleQuery(m, myNumber, interpretPrompt, summarizePrompt, s);
      if reply.Some? {
        outbox := outbox + [reply.value];
      }
    }

    /** Route one message of a batch and, when it goes to the query handler, answer it. */
    method Deliver(m: Message, s: QueryServices)
      modifies this
      ensures initialized == old(initialized) && myNumber == old(myNumber) && handlers == old(handlers)
      ensures interpretPrompt == old(interpretPrompt) && summarizePrompt == old(summarizePrompt)
      ensures outbox == old(outbox) + RepliesTo(m, myNumber, interpretPrompt, summarizePrompt, s)
    {
      if RouteOf(m, myNumber) == ToQueryHandler {
        HandleWhatsAppQuery(m, s);
      }
    }

    /**
     * The registered messages.upsert handler: a batch that is not an array is
     * ignored; otherwise each message is routed and, when handled, answered.
     */
    method OnMessagesUpsert(batch: Option<seq<Message>>, s: QueryServices)
      requires Valid()
      modifies this
      ensures Valid()
      ensures initialized == old(initialized) && myNumber == old(myNumber) && handlers == old(handlers)
      ensures interpretPrompt == old(interpretPrompt) && summarizePrompt == old(summarizePrompt)
      ensures outbox == old(outbox) + UpsertReplies(batch, handlers, myNumber, interpretPrompt, summarizePrompt, s)
    {
      if handlers == 0 || batch.None? {
        return;
      }
      var ms := batch.value;
      ghost var me, ip, sp := myNumber, interpretPrompt, summarizePrompt;
      for i := 0 to |ms|
        invariant initialized == old(initialized) && handlers == old(handlers)
        invariant myNumber == me && interpretPrompt == ip && summarizePrompt == sp
        invariant outbox == old(outbox) + Replies(ms[..i], me, ip, sp, s)
      {
        RepliesSnoc(ms, i, me, ip, sp, s);
        Deliver(ms[i], s);
      }
      RepliesWhole(ms, me, ip, sp, s);
    }
  }
}
