/**
 * The spreadsheet record sink: one fixed-width row per submission, appended
 * after reading how many rows column A holds, and a status update that looks
 * an application id up in column B and overwrites one cell of that row.
 *
 * The spreadsheet is a sequence of rows held by a `Workbook`; the API's read,
 * append and update calls are `Call` parameters saying whether they succeed.
 */
module Sheets {
  import opened Wrappers
  import opened Text
  import Json

  /** A cell as the API sees it. */
  datatype Cell = Blank | Str(text: string) | Num(n: int)

  type Row = seq<Cell>

  /** What a founder submission carries (absent fields are `None`). */
  datatype FounderData = FounderData(
    applicationId: Option<string>, founderName: Option<string>, email: Option<string>,
    phone: Option<string>, linkedinUrl: Option<string>, startupName: Option<string>,
    domain: Option<string>, stage: Option<string>, jobTitle: Option<string>,
    roleType: Option<string>, experienceLevel: Option<string>,
    locationPreference: Option<string>, compensationType: Option<string>,
    videoDriveLink: Option<string>, videoDriveId: Option<string>,
    couponCode: Option<string>, amountPaid: Option<int>)

  /** What a seeker application carries; the four multi-select fields are lists. */
  datatype SeekerData = SeekerData(
    applicationId: Option<string>, fullName: Option<string>, email: Option<string>,
    phone: Option<string>, linkedinUrl: Option<string>, currentLocation: Option<string>,
    currentRole: Option<string>, yearsOfExperience: Option<string>, keySkills: Option<string>,
    domainExpertise: Option<seq<string>>, preferredRoleType: Option<seq<string>>,
    preferredStartupStage: Option<seq<string>>, industryPreferences: Option<seq<string>>,
    locationPreference: Option<string>, availability: Option<string>,
    videoDriveLink: Option<string>, videoDriveId: Option<string>,
    couponCode: Option<string>, amountPaid: Option<int>)

  datatype SaveReceipt = SaveReceipt(rowNumber: nat)

  const FounderWidth: nat := 20
  const SeekerWidth: nat := 22
  /** Column T */
  const FounderStatusColumn: nat := 19
  /** Column V */
  const SeekerStatusColumn: nat := 21
  const SaveErrorPrefix: string := "Failed to save data to Google Sheets: "
  const NotFoundMessage: string := "Application not found"
  /** What `findIndex` on an absent column throws. */
  const NoValuesMessage: string := "Cannot read properties of undefined (reading 'findIndex')"

  /** The letter of a column, for the first 26 columns. */
  function ColumnLetter(i: nat): char
    requires i < 26
  {
    ('A' as int + i) as char
  }

  /** A field copied as it is: an absent value leaves the cell blank. */
  function Field(v: Option<string>): Cell {
    match v
    case Some(s) => Str(s)
    case None => Blank
  }

  /** `v || ''` */
  function TextOrEmpty(v: Option<string>): (c: Cell)
    ensures v.Some? ==> c == Str(v.value)
    ensures v.None? ==> c == Str("")
  {
    Str(v.GetOr(""))
  }

  /** `v || 0` */
  function AmountOrZero(v: Option<int>): (c: Cell)
    ensures v.Some? ==> c == Num(v.value)
    ensures v.None? ==> c == Num(0)
  {
    Num(v.GetOr(0))
  }

  /** `JSON.stringify(v || [])` */
  function ListCell(v: Option<seq<string>>): (c: Cell)
    ensures c.Str? && (v.None? ==> c == Str("[]"))
  {
    Str(Json.EncodeStrings(v.GetOr([])))
  }

  /** The founder row, columns A to T. */
  function FounderRow(id: nat, d: FounderData, submittedAt: string): (r: Row)
    ensures |r| == FounderWidth
    ensures r[0] == Num(id) && r[1] == Field(d.applicationId)
    ensures r[|r| - 1] == Str("Pending")
  {
    [ Num(id), Field(d.applicationId), Field(d.founderName), Field(d.email), Field(d.phone),
      TextOrEmpty(d.linkedinUrl), Field(d.startupName), Field(d.domain), Field(d.stage),
      Field(d.jobTitle), Field(d.roleType), Field(d.experienceLevel),
      Field(d.locationPreference), Field(d.compensationType),
      TextOrEmpty(d.videoDriveLink), TextOrEmpty(d.videoDriveId), Str(submittedAt),
      TextOrEmpty(d.couponCode), AmountOrZero(d.amountPaid), Str("Pending") ]
  }

  /** The seeker row, columns A to V. */
  function SeekerRow(id: nat, d: SeekerData, submittedAt: string): (r: Row)
    ensures |r| == SeekerWidth
    ensures r[0] == Num(id) && r[1] == Field(d.applicationId)
    ensures r[|r| - 1] == Str("Pending")
  {
    SeekerProfile(id, d) + SeekerListCells(d) + SeekerClosing(d, submittedAt)
  }

  /** Columns A to J of a seeker row. */
  function SeekerProfile(id: nat, d: SeekerData): (r: Row)
    ensures |r| == 10
  {
    [ Num(id), Field(d.applicationId), Field(d.fullName), Field(d.email), Field(d.phone),
      TextOrEmpty(d.linkedinUrl), Field(d.currentLocation), Field(d.currentRole),
      Field(d.yearsOfExperience), Field(d.keySkills) ]
  }

  /** Columns K to N of a seeker row: the multi-select lists. */
  function SeekerListCells(d: SeekerData): (r: Row)
    ensures |r| == 4
  {
    [ ListCell(d.domainExpertise), ListCell(d.preferredRoleType),
      ListCell(d.preferredStartupStage), ListCell(d.industryPreferences) ]
  }

  /** Columns O to V of a seeker row. */
  function SeekerClosing(d: SeekerData, submittedAt: string): (r: Row)
    ensures |r| == 8
  {
    [ Field(d.locationPreference), Field(d.availability),
      TextOrEmpty(d.videoDriveLink), TextOrEmpty(d.videoDriveId), Str(submittedAt),
      TextOrEmpty(d.couponCode), AmountOrZero(d.amountPaid), Str("Pending") ]
  }

  /** The optional cells of a founder row default to `''` and 0. */
  lemma FounderRowDefaults(id: nat, d: FounderData, submittedAt: string)
    requires d.linkedinUrl.None? && d.videoDriveLink.None? && d.videoDriveId.None?
    requires d.couponCode.None? && d.amountPaid.None?
    ensures var r := FounderRow(id, d, submittedAt);
      r[5] == Str("") && r[14] == Str("") && r[15] == Str("") && r[17] == Str("") && r[18] == Num(0)
  {
  }

  /** A multi-select cell reads back as the list it was written from. */
  lemma ListCellRoundTrip(v: Option<seq<string>>)
    ensures Json.DecodeStrings(ListCell(v).text) == Some(v.GetOr([]))
  {
    Json.EncodeStringsRoundTrip(v.GetOr([]));
  }

  /** The four multi-select lists of a seeker, an absent one read as empty. */
  function SeekerLists(d: SeekerData): seq<seq<string>> {
    [ d.domainExpertise.GetOr([]), d.preferredRoleType.GetOr([]),
      d.preferredStartupStage.GetOr([]), d.industryPreferences.GetOr([]) ]
  }

  /**
   * The four multi-select cells of a seeker row (K to N) are JSON text that reads
   * back as the lists given, or as the empty list when a list is absent.
   */
  lemma SeekerRowLists(id: nat, d: SeekerData, submittedAt: string, k: nat)
    requires k < 4
    ensures SeekerRow(id, d, submittedAt)[10 + k].Str?
    ensures Json.DecodeStrings(SeekerRow(id, d, submittedAt)[10 + k].text) == Some(SeekerLists(d)[k])
  {
    var r := SeekerRow(id, d, submittedAt);
    var v := [d.domainExpertise, d.preferredRoleType, d.preferredStartupStage, d.industryPreferences][k];
    assert r[10 + k] == SeekerListCells(d)[k] == ListCell(v);
    assert SeekerLists(d)[k] == v.GetOr([]);
    ListCellRoundTrip(v);
  }

  /** The optional cells of a seeker row default to `''` and 0. */
  lemma SeekerRowDefaults(id: nat, d: SeekerData, submittedAt: string)
    requires d.linkedinUrl.None? && d.videoDriveLink.None? && d.videoDriveId.None?
    requires d.couponCode.None? && d.amountPaid.None?
    ensures var r := SeekerRow(id, d, submittedAt);
      r[5] == Str("") && r[16] == Str("") && r[17] == Str("") && r[19] == Str("") && r[20] == Num(0)
  {
    var r, c := SeekerRow(id, d, submittedAt), SeekerClosing(d, submittedAt);
    assert r[5] == SeekerProfile(id, d)[5];
    assert r[16] == c[2] && r[17] == c[3] && r[19] == c[5] && r[20] == c[6];
  }

  /** The status update writes the last column of the row layout of its kind. */
  lemma StatusColumnIsLastColumn()
    ensures FounderStatusColumn == FounderWidth - 1 && ColumnLetter(FounderStatusColumn) == 'T'
    ensures SeekerStatusColumn == SeekerWidth - 1 && ColumnLetter(SeekerStatusColumn) == 'V'
  {
  }

  // ---------------------------------------------------------------------------
  // Reading a column

  predicate Filled(row: Row, col: nat) {
    col < |row| && row[col] != Blank
  }

  /**
   * How many values a read of one column returns: up to the last row whose cell
   * in that column is not blank (trailing blank rows are not returned).
   */
  function ColumnLength(rows: seq<Row>, col: nat): (n: nat)
    ensures n <= |rows|
    ensures n > 0 ==> Filled(rows[n - 1], col)
    ensures forall i :: n <= i < |rows| ==> !Filled(rows[i], col)
  {
    if rows == [] then 0
    else if Filled(rows[|rows| - 1], col) then |rows|
    else ColumnLength(rows[..|rows| - 1], col)
  }

  /** `values ? values.length : 1` for column A. */
  function RowCount(rows: seq<Row>): (n: nat)
    ensures n >= 1
    ensures ColumnLength(rows, 0) == 0 ==> n == 1
    ensures ColumnLength(rows, 0) > 0 ==> n == ColumnLength(rows, 0)
  {
    var n := ColumnLength(rows, 0);
    if n == 0 then 1 else n
  }

  /** The text a cell reads as. */
  function CellText(c: Cell): string {
    match c
    case Blank => ""
    case Str(s) => s
    case Num(n) => IntToString(n)
  }

  /** `row => row[0] === applicationId` on a read of column B. */
  predicate MatchesId(row: Row, applicationId: string) {
    Filled(row, 1) && CellText(row[1]) == applicationId
  }

  /** `findIndex` over the first `n` rows. */
  function FindIndex(rows: seq<Row>, n: nat, applicationId: string): (r: Option<nat>)
    requires n <= |rows|
    ensures r.Some? ==> r.value < n && MatchesId(rows[r.value], applicationId)
    ensures r.Some? ==> forall j :: 0 <= j < r.value ==> !MatchesId(rows[j], applicationId)
    ensures r.None? ==> forall j :: 0 <= j < n ==> !MatchesId(rows[j], applicationId)
  {
    if n == 0 then None
    else match FindIndex(rows, n - 1, applicationId)
      case Some(i) => Some(i)
      case None => if MatchesId(rows[n - 1], applicationId) then Some(n - 1) else None
  }

  /** Writing one cell; a row shorter than the column is filled out with blanks. */
  function SetCell(row: Row, col: nat, v: Cell): (r: Row)
    ensures |r| == if col < |row| then |row| else col + 1
    ensures r[col] == v
    ensures forall j :: 0 <= j < |row| && j != col ==> r[j] == row[j]
    ensures forall j :: |row| <= j < |r| && j != col ==> r[j] == Blank
  {
    if col < |row| then row[col := v] else row + seq(col - |row|, _ => Blank) + [v]
  }

  // ---------------------------------------------------------------------------
  // Row arithmetic

  /**
   * When every row so far has its ID cell filled (the header included), the
   * returned row number is the row the new submission lands on, and its ID is
   * that row number minus the header.
   */
  lemma RowNumberIsAppendedRow(rows: seq<Row>, row: Row)
    requires rows != [] && Filled(rows[|rows| - 1], 0)
    ensures RowCount(rows) + 1 == |rows + [row]|
    ensures RowCount(rows) == |rows + [row]| - 1
  {
  }

  /**
   * On a sheet that has no header row yet, the count falls back to 1: the row is
   * appended as row 1 but reported as row 2.
   */
  lemma EmptySheetRowNumber(row: Row)
    ensures RowCount([]) + 1 == 2 && |[] + [row]| == 1
  {
  }

  class Workbook {
    /** Founders_Submissions, row 1 first. */
    var founders: seq<Row>
    /** Seekers_Applications, row 1 first. */
    var seekers: seq<Row>

    constructor (founders: seq<Row>, seekers: seq<Row>)
      ensures this.founders == founders && this.seekers == seekers
    {
      this.founders := founders;
      this.seekers := seekers;
    }

    /** `saveFounderSubmission`: count column A, append one 20-cell row, report its number. */
    method SaveFounderSubmission(d: FounderData, submittedAt: string, read: Call, append: Call)
      returns (r: Result<SaveReceipt, string>)
      modifies this`founders
      ensures r.Ok? <==> read.Succeeds? && append.Succeeds?
      ensures r.Ok? ==>
        && founders == old(founders) + [FounderRow(RowCount(old(founders)), d, submittedAt)]
        && r.value.rowNumber == RowCount(old(founders)) + 1
      ensures r.Err? ==>
        && founders == old(founders)
        && r.error == SaveErrorPrefix + (if read.Fails? then read.message else append.message)
    {
      if read.Fails? {
        return Err(SaveErrorPrefix + read.message);
      }
      var rowCount := RowCount(founders);
      var newId := rowCount;
      var rowData := FounderRow(newId, d, submittedAt);
      if append.Fails? {
        return Err(SaveErrorPrefix + append.message);
      }
      founders := founders + [rowData];
      r := Ok(SaveReceipt(rowCount + 1));
    }

    /** `saveSeekerApplication`: count column A, append one 22-cell row, report its number. */
    method SaveSeekerApplication(d: SeekerData, submittedAt: string, read: Call, append: Call)
      returns (r: Result<SaveReceipt, string>)
      modifies this`seekers
      ensures r.Ok? <==> read.Succeeds? && append.Succeeds?
      ensures r.Ok? ==>
        && seekers == old(seekers) + [SeekerRow(RowCount(old(seekers)), d, submittedAt)]
        && r.value.rowNumber == RowCount(old(seekers)) + 1
      ensures r.Err? ==>
        && seekers == old(seekers)
        && r.error == SaveErrorPrefix + (if read.Fails? then read.message else append.message)
    {
      if read.Fails? {
        return Err(SaveErrorPrefix + read.message);
      }
      var rowCount := RowCount(seekers);
      var newId := rowCount;
      var rowData := SeekerRow(newId, d, submittedAt);
      if append.Fails? {
        return Err(SaveErrorPrefix + append.message);
      }
      seekers := seekers + [rowData];
      r := Ok(SaveReceipt(rowCount + 1));
    }

    /**
     * `updateApplicationStatus`: read column B of the sheet of `kind`, find the
     * first row whose id matches, and overwrite its status cell (T or V). Row
     * `rowIndex + 1` in the sheet's 1-based numbering is the matched row itself,
     * since the column read starts at row 1.
     */
    method UpdateApplicationStatus(applicationId: string, status: string, kind: string,
                                   read: Call, write: Call)
      returns (r: Result<(), string>)
      modifies this`founders, this`seekers
      ensures var rows := if kind == "founder" then old(founders) else old(seekers);
        var col := if kind == "founder" then FounderStatusColumn else SeekerStatusColumn;
        var n := ColumnLength(rows, 1);
        var found := FindIndex(rows, n, applicationId);
        && (r.Ok? <==> read.Succeeds? && n > 0 && found.Some? && write.Succeeds?)
        && (r.Err? ==> r.error == (if read.Fails? then read.message
                                   else if n == 0 then NoValuesMessage
                                   else if found.None? then NotFoundMessage
                                   else write.message))
        && (r.Ok? ==> (if kind == "founder" then founders else seekers)
                      == rows[found.value := SetCell(rows[found.value], col, Str(status))])
        && (r.Err? ==> founders == old(founders) && seekers == old(seekers))
      ensures kind == "founder" ==> seekers == old(seekers)
      ensures kind != "founder" ==> founders == old(founders)
    {
      var isFounder := kind == "founder";
      var statusColumn := if isFounder then FounderStatusColumn else SeekerStatusColumn;
      if read.Fails? {
        return Err(read.message);
      }
      var sheet := if isFounder then founders else seekers;
      var n := ColumnLength(sheet, 1);
      if n == 0 {
        return Err(NoValuesMessage);
      }
      var rowIndex := FindIndex(sheet, n, applicationId);
      if rowIndex.None? {
        return Err(NotFoundMessage);
      }
      if write.Fails? {
        return Err(write.message);
      }
      var i := rowIndex.value;
      var updated := sheet[i := SetCell(sheet[i], statusColumn, Str(status))];
      if isFounder {
        founders := updated;
      } else {
        seekers := updated;
      }
      r := Ok(());
    }
  }
}
