/**
 * The batch upload (backend/app/services/file_service.py): acceptance of the uploaded
 * file, the email check, the normalisation and flexible mapping of column names, the
 * row loop that creates reviews and tallies the results, and the summary of a run.
 * Reading the spreadsheet (pandas) is a collaborator whose result is passed in; cells
 * arrive as the text `str(cell)` gives, so a missing cell is the text "nan".
 */
module FileService {
  import opened Wrappers
  import Text
  import ReviewModel
  import ReviewService

  // ---------------------------------------------------------------------
  // Configuration

  const SupportedExtensions: seq<string> := [".xlsx", ".xls", ".csv"]
  const MaxFileSize: nat := 10 * 1024 * 1024
  const RequiredColumns: seq<string> := ["customer_name", "customer_email", "review"]

  datatype FileConfig = FileConfig(supportedExtensions: seq<string>, maxFileSize: nat, requiredColumns: seq<string>)

  /** `get_file_config`. */
  function GetFileConfig(): (c: FileConfig)
    ensures c.maxFileSize == 10485760
    ensures |c.supportedExtensions| == 3 && |c.requiredColumns| == 3
  {
    FileConfig(SupportedExtensions, MaxFileSize, RequiredColumns)
  }

  /** FastAPI's `HTTPException(status_code, detail)`. */
  datatype HttpError = HttpError(status: nat, detail: string) {
    /** `str(exc)`: the status code, a colon and the detail. */
    function Str(): string {
      Text.NatToString(status) + ": " + detail
    }
  }

  // ---------------------------------------------------------------------
  // validate_file

  /** The upload as the service sees it: its file name and, if known, its size in bytes. */
  datatype Upload = Upload(filename: string, size: Option<int>)

  predicate HasSupportedExtension(filename: string) {
    exists i :: 0 <= i < |SupportedExtensions| && Text.EndsWith(Text.Lower(filename), SupportedExtensions[i])
  }

  const UnsupportedTypeDetail := "Unsupported file type. Supported types: " + Text.Join(SupportedExtensions, ", ")
  const FileTooLargeDetail := "File size too large. Maximum size: 10.0MB"

  /**
   * `validate_file`: the lower-cased name must end in a supported extension; a known
   * size above the limit is refused, while an unknown size or a size of 0 is not checked.
   */
  function ValidateFile(file: Upload): (r: Outcome<HttpError>)
    ensures r.Pass? <==>
      HasSupportedExtension(file.filename) && (file.size.None? || file.size.value <= MaxFileSize)
    ensures r.Fail? ==> r.error.status == 400
    ensures r.Fail? && !HasSupportedExtension(file.filename) ==> r.error.detail == UnsupportedTypeDetail
    ensures r.Fail? && HasSupportedExtension(file.filename) ==> r.error.detail == FileTooLargeDetail
  {
    if !HasSupportedExtension(file.filename) then Fail(HttpError(400, UnsupportedTypeDetail))
    else if file.size.Some? && file.size.value != 0 && file.size.value > MaxFileSize then
      Fail(HttpError(400, FileTooLargeDetail))
    else Pass
  }

  /** The extension check ignores case: a name and its lower-cased form are judged alike. */
  lemma ValidateFileIgnoresCase(file: Upload)
    ensures ValidateFile(file) == ValidateFile(file.(filename := Text.Lower(file.filename)))
  {
    Text.LowerIdempotent(file.filename);
  }

  // ---------------------------------------------------------------------
  // validate_email: r'^[a-zA-Z0-9._%+-]+@[a-zA-Z0-9.-]+\.[a-zA-Z]{2,}$' with `re.match`

  predicate AsciiLetter(c: char) {
    'a' <= c <= 'z' || 'A' <= c <= 'Z'
  }

  predicate AsciiDigit(c: char) {
    '0' <= c <= '9'
  }

  /** `[a-zA-Z0-9._%+-]` */
  predicate LocalChar(c: char) {
    AsciiLetter(c) || AsciiDigit(c) || c == '.' || c == '_' || c == '%' || c == '+' || c == '-'
  }

  /** `[a-zA-Z0-9.-]` */
  predicate DomainChar(c: char) {
    AsciiLetter(c) || AsciiDigit(c) || c == '.' || c == '-'
  }

  /**
   * The pattern between `^` and `$`, read as the regular expression means it: a split
   * of `t` into local part, "@", domain run, "." and two or more letters.
   */
  predicate PatternBody(t: string) {
    exists at, dot :: 0 < at && at + 1 < dot && dot + 3 <= |t| && t[at] == '@' && t[dot] == '.'
      && (forall i :: 0 <= i < at ==> LocalChar(t[i]))
      && (forall i :: at < i < dot ==> DomainChar(t[i]))
      && (forall i :: dot < i < |t| ==> AsciiLetter(t[i]))
  }

  /** `re.match` with the pattern: `$` also matches just before a final line break. */
  predicate EmailRegexMatch(s: string) {
    PatternBody(s) || (s != [] && s[|s| - 1] == '\n' && PatternBody(s[..|s| - 1]))
  }

  /** Index of the last occurrence of `c` in `s`. */
  function LastIndexOf(s: string, c: char): (k: nat)
    requires c in s
    ensures k < |s| && s[k] == c
    ensures forall j :: k < j < |s| ==> s[j] != c
  {
    if s[|s| - 1] == c then |s| - 1
    else
      assert c in s[..|s| - 1] by {
        var i :| 0 <= i < |s| && s[i] == c;
        assert s[..|s| - 1][i] == c;
      }
      LastIndexOf(s[..|s| - 1], c)
  }

  /** The pattern decided by a scan: the first "@" and the last "." are the only candidates. */
  predicate ScanBody(t: string) {
    '@' in t && '.' in t
    && var at := Text.IndexOf(t, '@');
    var dot := LastIndexOf(t, '.');
    && 0 < at && at + 1 < dot && dot + 3 <= |t|
    && (forall i :: 0 <= i < at ==> LocalChar(t[i]))
    && (forall i :: at < i < dot ==> DomainChar(t[i]))
    && (forall i :: dot < i < |t| ==> AsciiLetter(t[i]))
  }

  lemma ScanBodyIsPattern(t: string)
    ensures ScanBody(t) <==> PatternBody(t)
  {
    if ScanBody(t) {
      ScanGivesPattern(t);
    }
    if PatternBody(t) {
      PatternGivesScan(t);
    }
  }

  lemma ScanGivesPattern(t: string)
    requires ScanBody(t)
    ensures PatternBody(t)
  {
    var at, dot := Text.IndexOf(t, '@'), LastIndexOf(t, '.');
    assert t[at] == '@' && t[dot] == '.';
  }

  lemma PatternGivesScan(t: string)
    requires PatternBody(t)
    ensures ScanBody(t)
  {
    var at, dot :| 0 < at && at + 1 < dot && dot + 3 <= |t| && t[at] == '@' && t[dot] == '.'
      && (forall i :: 0 <= i < at ==> LocalChar(t[i]))
      && (forall i :: at < i < dot ==> DomainChar(t[i]))
      && (forall i :: dot < i < |t| ==> AsciiLetter(t[i]));
    FirstAtIsWitness(t, at);
    LastDotIsWitness(t, dot);
  }

  /** An "@" preceded only by local-part characters is the first "@". */
  lemma FirstAtIsWitness(t: string, at: nat)
    requires at < |t| && t[at] == '@'
    requires forall i :: 0 <= i < at ==> LocalChar(t[i])
    ensures '@' in t && Text.IndexOf(t, '@') == at
  {
  }

  /** A "." followed only by letters is the last ".". */
  lemma LastDotIsWitness(t: string, dot: nat)
    requires dot < |t| && t[dot] == '.'
    requires forall i :: dot < i < |t| ==> AsciiLetter(t[i])
    ensures '.' in t && LastIndexOf(t, '.') == dot
  {
  }

  /** `validate_email`. */
  function ValidateEmail(email: string): (ok: bool)
    ensures ok <==> EmailRegexMatch(email)
  {
    ScanBodyIsPattern(email);
    if email != [] && email[|email| - 1] == '\n' then
      ScanBodyIsPattern(email[..|email| - 1]);
      ScanBody(email) || ScanBody(email[..|email| - 1])
    else
      ScanBody(email)
  }

  lemma NoAtInSlice(s: string, lo: nat, hi: nat)
    requires lo <= hi <= |s|
    requires forall i :: lo <= i < hi ==> s[i] != '@'
    ensures ReviewModel.AtFree(s[lo..hi])
  {
  }

  /** Every address `validate_email` accepts (its contract is this pattern) also meets the constraint of the review document. */
  lemma ValidEmailFitsReviewPattern(email: string)
    requires EmailRegexMatch(email)
    ensures ReviewModel.MatchesEmailPattern(email)
  {
    if PatternBody(email) {
      PatternFitsReview(email, email);
    } else {
      var t := email[..|email| - 1];
      assert email == t + [email[|email| - 1]];
      PatternFitsReview(t, email);
    }
  }

  lemma PatternFitsReview(t: string, email: string)
    requires PatternBody(t)
    requires email == t || email == t + ['\n']
    ensures ReviewModel.MatchesEmailPattern(email)
  {
    var at, dot :| 0 < at && at + 1 < dot && dot + 3 <= |t| && t[at] == '@' && t[dot] == '.'
      && (forall i :: 0 <= i < at ==> LocalChar(t[i]))
      && (forall i :: at < i < dot ==> DomainChar(t[i]))
      && (forall i :: dot < i < |t| ==> AsciiLetter(t[i]));
    WitnessFitsReview(t, email, at, dot);
  }

  /** The positions at which the validator's pattern matched give the review constraint. */
  lemma WitnessFitsReview(t: string, email: string, at: nat, dot: nat)
    requires email == t || email == t + ['\n']
    requires 0 < at && at + 1 < dot && dot + 3 <= |t| && t[at] == '@' && t[dot] == '.'
    requires forall i :: 0 <= i < at ==> LocalChar(t[i])
    requires forall i :: at < i < dot ==> DomainChar(t[i])
    requires forall i :: dot < i < |t| ==> AsciiLetter(t[i])
    ensures ReviewModel.MatchesEmailPattern(email)
  {
    forall i | 0 <= i < |email| && i != at
      ensures email[i] != '@'
    {
      if i < |t| {
        assert email[i] == t[i];
      } else {
        assert email[i] == '\n';
      }
    }
    OneAtFitsReview(email, at, dot);
  }

  /** A string whose only "@" is at `at`, with a "." further on that is not last, meets the review constraint. */
  lemma OneAtFitsReview(email: string, at: nat, dot: nat)
    requires 0 < at && at + 1 < dot && dot + 1 < |email| && email[at] == '@' && email[dot] == '.'
    requires forall i :: 0 <= i < |email| && i != at ==> email[i] != '@'
    ensures ReviewModel.MatchesEmailPattern(email)
  {
    NoAtInSlice(email, 0, at);
    NoAtInSlice(email, at + 1, dot);
    NoAtInSlice(email, dot + 1, |email|);
    assert email[..at] == email[0..at];
    assert email[dot + 1..] == email[dot + 1..|email|];
  }

  // ---------------------------------------------------------------------
  // Column names

  /** `str.strip().str.lower().str.replace(' ', '_')` on one column name. */
  function NormalizeColumn(name: string): string {
    Text.ReplaceChar(Text.Lower(Text.Strip(name)), ' ', '_')
  }

  /** A normalised name has no spaces, no upper-case ASCII letters and nothing to strip. */
  lemma NormalizedShape(name: string)
    ensures var r := NormalizeColumn(name);
      && (forall i :: 0 <= i < |r| ==> r[i] != ' ' && !('A' <= r[i] <= 'Z'))
      && (r == [] || (!Text.IsSpace(r[0]) && !Text.IsSpace(r[|r| - 1])))
  {
    var stripped := Text.Strip(name);
    var lowered := Text.Lower(stripped);
    var r := NormalizeColumn(name);
    assert forall i :: 0 <= i < |r| ==> r[i] == '_' || r[i] == Text.LowerChar(stripped[i]);
    if r != [] {
      assert r[0] == Text.LowerChar(stripped[0]);
      assert r[|r| - 1] == Text.LowerChar(stripped[|r| - 1]);
    }
  }

  /** Normalising a normalised name changes nothing. */
  lemma NormalizeColumnIdempotent(name: string)
    ensures NormalizeColumn(NormalizeColumn(name)) == NormalizeColumn(name)
  {
    var n := NormalizeColumn(name);
    NormalizedShape(name);
    Text.StripOfStripped(n);
    assert Text.Lower(n) == n;
    assert Text.ReplaceChar(n, ' ', '_') == n;
  }

  /** The normalised names of a whole header. */
  function NormalizedColumns(columns: seq<string>): (r: seq<string>)
    ensures |r| == |columns| && forall i :: 0 <= i < |r| ==> r[i] == NormalizeColumn(columns[i])
  {
    seq(|columns|, i requires 0 <= i < |columns| => NormalizeColumn(columns[i]))
  }

  // ---------------------------------------------------------------------
  // validate_dataframe_structure

  /** The words a column name may contain to stand for a required column. */
  function Keywords(required: string): seq<string> {
    if required == "customer_name" then ["name", "customer"]
    else if required == "customer_email" then ["email", "mail"]
    else if required == "review" then ["review", "comment", "feedback"]
    else []
  }

  /**
   * The test of the inner loop: either name contains the other, or the column name
   * contains one of the required column's words.
   */
  predicate ColumnMatches(required: string, column: string) {
    Text.Contains(column, required) || Text.Contains(required, column)
    || exists k :: 0 <= k < |Keywords(required)| && Text.Contains(column, Keywords(required)[k])
  }

  /** The first column, in header order, that matches. */
  function FirstMatch(required: string, columns: seq<string>): (r: Option<nat>)
    ensures r.Some? ==> r.value < |columns| && ColumnMatches(required, columns[r.value])
    ensures r.Some? ==> forall j :: 0 <= j < r.value ==> !ColumnMatches(required, columns[j])
    ensures r.None? <==> forall j :: 0 <= j < |columns| ==> !ColumnMatches(required, columns[j])
  {
    if columns == [] then None
    else if ColumnMatches(required, columns[0]) then Some(0)
    else
      var r := FirstMatch(required, columns[1..]);
      assert forall j :: 1 <= j < |columns| ==> columns[1..][j - 1] == columns[j];
      if r.None? then None else Some(r.value + 1)
  }

  /** Index of the first column named exactly `name`. */
  function ColumnIndex(columns: seq<string>, name: string): (k: nat)
    requires name in columns
    ensures k < |columns| && columns[k] == name
    ensures forall j :: 0 <= j < k ==> columns[j] != name
  {
    if columns[0] == name then 0 else 1 + ColumnIndex(columns[1..], name)
  }

  /**
   * The column chosen for `required`: as written, the first match; with `exactFirst`,
   * a column named exactly `required` wins over earlier partial matches.
   */
  function ChosenColumn(required: string, columns: seq<string>, exactFirst: bool): (r: Option<nat>)
    ensures r.Some? ==> r.value < |columns|
    ensures r.None? <==> FirstMatch(required, columns).None?
    ensures !exactFirst ==> r == FirstMatch(required, columns)
  {
    if exactFirst && required in columns then
      assert Text.StartsWith(required, required);
      Some(ColumnIndex(columns, required))
    else FirstMatch(required, columns)
  }

  /** The mapping the outer loop builds over `required`, in order. */
  function MappingOf(required: seq<string>, columns: seq<string>, exactFirst: bool): map<string, string>
    decreases |required|
  {
    if required == [] then map[]
    else
      var m := MappingOf(required[..|required| - 1], columns, exactFirst);
      var col := required[|required| - 1];
      match ChosenColumn(col, columns, exactFirst)
      case Some(k) => m[col := columns[k]]
      case None => m
  }

  /** The required columns without a match, in order. */
  function MissingOf(required: seq<string>, columns: seq<string>, exactFirst: bool): seq<string>
    decreases |required|
  {
    if required == [] then []
    else
      var missing := MissingOf(required[..|required| - 1], columns, exactFirst);
      var col := required[|required| - 1];
      if ChosenColumn(col, columns, exactFirst).None? then missing + [col] else missing
  }

  /** The names that `keep` accepts, front to back. */
  function Filter(names: seq<string>, keep: string -> bool): seq<string>
    decreases |names|
  {
    if names == [] then [] else (if keep(names[0]) then [names[0]] else []) + Filter(names[1..], keep)
  }

  /** Filtering one more name at the back extends the filter at the back. */
  lemma {:induction false} FilterSnoc(front: seq<string>, name: string, keep: string -> bool)
    ensures Filter(front + [name], keep) == Filter(front, keep) + (if keep(name) then [name] else [])
    decreases |front|
  {
    if front != [] {
      assert (front + [name])[1..] == front[1..] + [name];
      FilterSnoc(front[1..], name, keep);
    } else {
      assert front + [name] == [name];
    }
  }

  /** Whether `required` has no chosen column. */
  function Unmatched(columns: seq<string>, exactFirst: bool): string -> bool {
    c => ChosenColumn(c, columns, exactFirst).None?
  }

  /**
   * What the two loops compute: a required column is mapped exactly when some column
   * matches it, to the chosen column; the others are listed as missing.
   */
  lemma {:induction false} MappingMeaning(required: seq<string>, columns: seq<string>, exactFirst: bool)
    ensures forall c :: c in MappingOf(required, columns, exactFirst) <==>
      c in required && ChosenColumn(c, columns, exactFirst).Some?
    ensures forall c :: c in MappingOf(required, columns, exactFirst) ==>
      MappingOf(required, columns, exactFirst)[c] == columns[ChosenColumn(c, columns, exactFirst).value]
    ensures forall c :: c in MissingOf(required, columns, exactFirst) <==>
      c in required && ChosenColumn(c, columns, exactFirst).None?
    decreases |required|
  {
    if required != [] {
      var front := required[..|required| - 1];
      MappingMeaning(front, columns, exactFirst);
      assert required == front + [required[|required| - 1]];
      assert forall c :: c in required <==> c in front || c == required[|required| - 1];
    }
  }

  /** The missing list is `required` filtered by having no match, so it keeps the required order. */
  lemma {:induction false} MissingKeepsOrder(required: seq<string>, columns: seq<string>, exactFirst: bool)
    ensures MissingOf(required, columns, exactFirst) == Filter(required, Unmatched(columns, exactFirst))
    decreases |required|
  {
    if required != [] {
      var front := required[..|required| - 1];
      MissingKeepsOrder(front, columns, exactFirst);
      assert required == front + [required[|required| - 1]];
      FilterSnoc(front, required[|required| - 1], Unmatched(columns, exactFirst));
    }
  }

  /** The mapping as the source computes it. */
  function ColumnMapping(columns: seq<string>): map<string, string> {
    MappingOf(RequiredColumns, columns, false)
  }

  function MissingColumns(columns: seq<string>): seq<string> {
    MissingOf(RequiredColumns, columns, false)
  }

  function MissingColumnsDetail(missing: seq<string>, columns: seq<string>): string {
    "Missing required columns: " + Text.Join(missing, ", ") + ". "
    + "Required columns: customer_name, customer_email, review. "
    + "Found columns: " + Text.Join(columns, ", ")
  }

  /** The outcome of `validate_dataframe_structure` on a normalised header. */
  function StructureCheck(columns: seq<string>): Result<map<string, string>, HttpError> {
    var missing := MissingColumns(columns);
    if missing != [] then Failure(HttpError(400, MissingColumnsDetail(missing, columns)))
    else Success(ColumnMapping(columns))
  }

  /**
   * The check passes exactly when every required column has a match; the mapping then
   * covers the three required columns, each mapped to a column of the header.
   */
  lemma StructureCheckMeaning(columns: seq<string>)
    ensures StructureCheck(columns).Success? <==>
      forall c :: c in RequiredColumns ==> FirstMatch(c, columns).Some?
    ensures StructureCheck(columns).Success? ==>
      forall c :: c in StructureCheck(columns).value <==> c in RequiredColumns
    ensures StructureCheck(columns).Success? ==>
      forall c :: c in StructureCheck(columns).value ==> StructureCheck(columns).value[c] in columns
    ensures StructureCheck(columns).Failure? ==> StructureCheck(columns).error.status == 400
  {
    var required := RequiredColumns;
    MappingMeaning(required, columns, false);
    var missing := MissingOf(required, columns, false);
    if missing != [] {
      assert missing[0] in missing;
    }
  }

  /**
   * As written, a header whose first column is "customer_email" has that column taken
   * for the customer name as well: "customer" occurs in "customer_email".
   */
  lemma EmailColumnTakenForName(columns: seq<string>)
    requires columns != [] && columns[0] == "customer_email"
    ensures "customer_name" in ColumnMapping(columns)
    ensures ColumnMapping(columns)["customer_name"] == columns[0]
    ensures "customer_email" in ColumnMapping(columns)
    ensures ColumnMapping(columns)["customer_email"] == columns[0]
  {
    var c0 := columns[0];
    assert c0[..8] == "customer";
    assert Text.StartsWith(c0, "customer");
    assert Keywords("customer_name")[1] == "customer";
    assert ColumnMatches("customer_name", c0);
    assert Text.StartsWith(c0, "customer_email");
    assert ColumnMatches("customer_email", c0);
    var required := RequiredColumns;
    MappingMeaning(required, columns, false);
    assert "customer_name" in required && "customer_email" in required;
  }

  /** The mapping with exact names preferred. */
  function ExactFirstMapping(columns: seq<string>): map<string, string> {
    MappingOf(RequiredColumns, columns, true)
  }

  /**
   * With exact names preferred, every required column present verbatim maps to itself,
   * so a header holding all three names is mapped one-to-one.
   */
  lemma ExactFirstMappingKeepsNames(columns: seq<string>)
    ensures forall c :: c in RequiredColumns && c in columns ==>
      c in ExactFirstMapping(columns) && ExactFirstMapping(columns)[c] == c
    ensures (forall c :: c in RequiredColumns ==> c in columns) ==>
      forall c, d :: c in ExactFirstMapping(columns) && d in ExactFirstMapping(columns) && c != d ==>
        ExactFirstMapping(columns)[c] != ExactFirstMapping(columns)[d]
  {
    MappingMeaning(RequiredColumns, columns, true);
  }

  // ---------------------------------------------------------------------
  // The table

  /** A parsed sheet: a header and rows of cell texts, one per column. */
  datatype Table = Table(columns: seq<string>, rows: seq<seq<string>>) {
    predicate Rectangular() {
      forall i :: 0 <= i < |rows| ==> |rows[i]| == |columns|
    }
  }

  /** The `DataFrame` the service reads and whose header it rewrites. */
  class DataFrame {
    var columns: seq<string>
    var rows: seq<seq<string>>

    constructor (table: Table)
      ensures columns == table.columns && rows == table.rows
    {
      columns := table.columns;
      rows := table.rows;
    }

    /** `df.empty`: no rows or no columns. */
    predicate Empty()
      reads this
    {
      |rows| == 0 || |columns| == 0
    }

    /** `df.columns = df.columns.str.strip().str.lower().str.replace(' ', '_')`. */
    method NormalizeColumnNames()
      modifies this
      ensures columns == NormalizedColumns(old(columns)) && rows == old(rows)
    {
      columns := NormalizedColumns(columns);
    }
  }

  /** The inner loop: scan the header in order and stop at the first match. */
  method FindColumn(required: string, columns: seq<string>) returns (found: Option<nat>)
    ensures found == FirstMatch(required, columns)
  {
    var j := 0;
    while j < |columns|
      invariant 0 <= j <= |columns|
      invariant forall k :: 0 <= k < j ==> !ColumnMatches(required, columns[k])
    {
      if ColumnMatches(required, columns[j]) {
        return Some(j);
      }
      j := j + 1;
    }
    return None;
  }

  /** The outer loop: each required column in order is mapped or listed as missing. */
  method MapColumns(required: seq<string>, columns: seq<string>)
    returns (mapping: map<string, string>, missing: seq<string>)
    ensures mapping == MappingOf(required, columns, false)
    ensures missing == MissingOf(required, columns, false)
  {
    mapping, missing := map[], [];
    for n := 0 to |required|
      invariant mapping == MappingOf(required[..n], columns, false)
      invariant missing == MissingOf(required[..n], columns, false)
    {
      var col := required[n];
      var found := FindColumn(col, columns);
      if found.Some? {
        mapping := mapping[col := columns[found.value]];
      } else {
        missing := missing + [col];
      }
      assert required[..n + 1][..n] == required[..n];
    }
    assert required[..|required|] == required;
  }

  /**
   * `validate_dataframe_structure`: normalise the header in place, then for each
   * required column search the header for its first match.
   */
  method ValidateDataframeStructure(df: DataFrame) returns (r: Result<map<string, string>, HttpError>)
    modifies df
    ensures df.columns == NormalizedColumns(old(df.columns)) && df.rows == old(df.rows)
    ensures r == StructureCheck(df.columns)
  {
    df.NormalizeColumnNames();
    var columns := df.columns;
    var mapping, missing := MapColumns(RequiredColumns, columns);
    if missing != [] {
      r := Failure(HttpError(400, MissingColumnsDetail(missing, columns)));
    } else {
      r := Success(mapping);
    }
  }

  // ---------------------------------------------------------------------
  // The row loop of process_excel_reviews

  /** A stripped cell that counts as absent: empty, or the text of a missing value. */
  predicate IsMissing(cell: string) {
    cell == "" || cell == "nan"
  }

  function RowLabel(number: nat): string {
    "Row " + Text.NatToString(number) + ": "
  }

  /** The reasons a row is skipped before a review is created, in the order they are checked. */
  datatype RowProblem = MissingName | MissingEmail | MissingText | InvalidEmail(email: string) {
    function Message(number: nat): string {
      RowLabel(number) + match this
        case MissingName => "Missing customer name"
        case MissingEmail => "Missing customer email"
        case MissingText => "Missing review text"
        case InvalidEmail(e) => "Invalid email format: " + e
    }
  }

  /** The checks of one row: name, email, text, then the email's format; the first failure is reported. */
  function CheckRow(name: string, email: string, text: string): (p: Option<RowProblem>)
    ensures p == Some(MissingName) <==> IsMissing(name)
    ensures p == Some(MissingEmail) <==> !IsMissing(name) && IsMissing(email)
    ensures p == Some(MissingText) <==> !IsMissing(name) && !IsMissing(email) && IsMissing(text)
    ensures p == Some(InvalidEmail(email)) <==>
      !IsMissing(name) && !IsMissing(email) && !IsMissing(text) && !ValidateEmail(email)
    ensures p.None? <==>
      !IsMissing(name) && !IsMissing(email) && !IsMissing(text) && ValidateEmail(email)
  {
    if IsMissing(name) then Some(MissingName)
    else if IsMissing(email) then Some(MissingEmail)
    else if IsMissing(text) then Some(MissingText)
    else if !ValidateEmail(email) then Some(InvalidEmail(email))
    else None
  }

  /** A row that passes the checks carries a name, an address and a text the review document accepts. */
  lemma CheckedRowIsValidReview(name: string, email: string, text: string)
    requires CheckRow(name, email, text).None?
    ensures ReviewModel.MatchesEmailPattern(email) && ReviewModel.ValidReviewText(text)
  {
    ValidEmailFitsReviewPattern(email);
  }

  /** The record of one created review. */
  datatype ReviewData = ReviewData(
    row: nat,
    customerName: string,
    customerEmail: string,
    reviewId: nat,
    sentiment: Option<string>,
    sentimentScore: Option<real>,
    urgencyLevel: Option<string>,
    emailSent: bool)

  /** The `results` dictionary. */
  datatype BatchResults = BatchResults(
    totalRows: nat,
    processed: nat,
    errors: seq<string>,
    reviewsCreated: seq<ReviewData>,
    positive: nat,
    negative: nat,
    neutral: nat,
    emailsSent: nat)

  function InitialResults(totalRows: nat): BatchResults {
    BatchResults(totalRows, 0, [], [], 0, 0, 0, 0)
  }

  /** The positions of the mapped columns in a row. */
  datatype CellIndices = CellIndices(name: nat, email: nat, text: nat) {
    predicate Fits(row: seq<string>) {
      name < |row| && email < |row| && text < |row|
    }
  }

  /** The review collection and the results after some rows. */
  datatype Batch = Batch(records: seq<Review>, results: BatchResults)

  type Review = ReviewModel.Review
  type Analyzer = ReviewService.Analyzer

  /** The sentiment tally: the lower-cased sentiment counts only if it is one of the three. */
  function Tally(r: BatchResults, sentiment: string): (t: BatchResults)
    ensures t.(positive := r.positive, negative := r.negative, neutral := r.neutral) == r
    ensures t.positive == r.positive + (if Text.Lower(sentiment) == "positive" then 1 else 0)
    ensures t.negative == r.negative + (if Text.Lower(sentiment) == "negative" then 1 else 0)
    ensures t.neutral == r.neutral + (if Text.Lower(sentiment) == "neutral" then 1 else 0)
    ensures r.positive + r.negative + r.neutral <= t.positive + t.negative + t.neutral
    ensures t.positive + t.negative + t.neutral <= r.positive + r.negative + r.neutral + 1
  {
    var s := Text.Lower(sentiment);
    if s == "positive" then r.(positive := r.positive + 1)
    else if s == "negative" then r.(negative := r.negative + 1)
    else if s == "neutral" then r.(neutral := r.neutral + 1)
    else r
  }

  /**
   * The loop's own analysis of a created row: a failure adds its message; a success fills
   * in the row's sentiment, score and urgency, tallies the sentiment and counts the email.
   */
  function Reanalysed(data: ReviewData, res: BatchResults, number: nat, answer: Reply<ReviewModel.Analysis>)
    : (after: (ReviewData, BatchResults))
    ensures answer.Failure? ==>
      && after.0 == data
      && after.1.(errors := res.errors) == res
      && after.1.errors == res.errors + [RowLabel(number) + "AI processing failed - " + answer.error]
    ensures answer.Success? ==>
      var a := answer.value;
      && after.0.(sentiment := data.sentiment, sentimentScore := data.sentimentScore,
                  urgencyLevel := data.urgencyLevel, emailSent := data.emailSent) == data
      && after.0.sentiment == Some(a.sentiment) && after.0.sentimentScore == Some(a.sentimentScore)
      && after.0.urgencyLevel == Some(a.urgencyLevel)
      && (after.0.emailSent <==> a.shouldSendEmail || data.emailSent)
      && after.1.(emailsSent := res.emailsSent) == Tally(res, a.sentiment)
      && after.1.emailsSent == res.emailsSent + (if a.shouldSendEmail then 1 else 0)
  {
    match answer
    case Failure(e) =>
      (data, res.(errors := res.errors + [RowLabel(number) + "AI processing failed - " + e]))
    case Success(a) =>
      var tallied := Tally(res, a.sentiment);
      (data.(sentiment := Some(a.sentiment), sentimentScore := Some(a.sentimentScore),
             urgencyLevel := Some(a.urgencyLevel), emailSent := a.shouldSendEmail || data.emailSent),
       if a.shouldSendEmail then tallied.(emailsSent := tallied.emailsSent + 1) else tallied)
  }

  /**
   * The rest of the loop body for a row that passed the checks, given what storing it
   * answered: a failure adds its message; a success records the row, after the loop's
   * own analysis when that is asked for.
   */
  function Stored(b: Batch, number: nat, name: string, email: string, text: string, u: ReviewService.Upserted,
                  processWithAi: bool, reanalyze: Analyzer): Batch
  {
    var res := b.results;
    match u.reply
    case Failure(e) => Batch(b.records, res.(errors := res.errors + [RowLabel(number) + e]))
    case Success(created) =>
      var data := ReviewData(number, name, email, created.reviewId, None, None, None, false);
      var (data', res') := if processWithAi then Reanalysed(data, res, number, reanalyze(text, name, None))
                            else (data, res);
      Batch(u.records, res'.(reviewsCreated := res'.reviewsCreated + [data'], processed := res'.processed + 1))
  }

  /**
   * One pass of the loop body for the row at position `index`. `create` is the analysis
   * inside `create_and_process_review`, `reanalyze` the loop's own second call.
   */
  function ProcessRow(b: Batch, row: seq<string>, index: nat, cells: CellIndices, processWithAi: bool,
                      create: Analyzer, reanalyze: Analyzer, now: int): Batch
    requires cells.Fits(row)
  {
    var name, email, text := Text.Strip(row[cells.name]), Text.Strip(row[cells.email]), Text.Strip(row[cells.text]);
    var number := index + 1;
    var res := b.results;
    match CheckRow(name, email, text)
    case Some(p) => Batch(b.records, res.(errors := res.errors + [p.Message(number)]))
    case None =>
      Stored(b, number, name, email, text, ReviewService.Upsert(b.records, name, email, text, create, now),
             processWithAi, reanalyze)
  }

  predicate AllFit(rows: seq<seq<string>>, cells: CellIndices) {
    forall i :: 0 <= i < |rows| ==> cells.Fits(rows[i])
  }

  /** The loop over `rows`, each row numbered by its position. */
  function ProcessRows(b: Batch, rows: seq<seq<string>>, cells: CellIndices, processWithAi: bool,
                       create: Analyzer, reanalyze: Analyzer, now: int): Batch
    requires AllFit(rows, cells)
    decreases |rows|
  {
    if rows == [] then b
    else
      var last := |rows| - 1;
      ProcessRow(ProcessRows(b, rows[..last], cells, processWithAi, create, reanalyze, now),
                 rows[last], last, cells, processWithAi, create, reanalyze, now)
  }

  /**
   * The bookkeeping after `n` rows: each row is processed or has an error (a processed
   * row may have one too), each tally counts processed rows only, and one record per
   * processed row.
   */
  predicate Accounted(r: BatchResults, n: nat) {
    && r.processed <= n <= r.processed + |r.errors|
    && r.positive + r.negative + r.neutral <= r.processed
    && r.emailsSent <= r.processed
    && |r.reviewsCreated| == r.processed
  }

  /** A row skipped by the checks adds exactly its one message and nothing else. */
  lemma SkippedRow(b: Batch, row: seq<string>, index: nat, cells: CellIndices, processWithAi: bool,
                   create: Analyzer, reanalyze: Analyzer, now: int)
    requires cells.Fits(row)
    requires CheckRow(Text.Strip(row[cells.name]), Text.Strip(row[cells.email]), Text.Strip(row[cells.text])).Some?
    ensures var p := CheckRow(Text.Strip(row[cells.name]), Text.Strip(row[cells.email]), Text.Strip(row[cells.text])).value;
      ProcessRow(b, row, index, cells, processWithAi, create, reanalyze, now)
      == Batch(b.records, b.results.(errors := b.results.errors + [p.Message(index + 1)]))
  {
  }

  /** A row whose second analysis fails is still processed, with one message. */
  lemma AiFailureStillProcessed(b: Batch, row: seq<string>, index: nat, cells: CellIndices,
                                create: Analyzer, reanalyze: Analyzer, now: int)
    requires cells.Fits(row)
    requires var name, email, text := Text.Strip(row[cells.name]), Text.Strip(row[cells.email]), Text.Strip(row[cells.text]);
      && CheckRow(name, email, text).None?
      && ReviewService.Upsert(b.records, name, email, text, create, now).reply.Success?
      && reanalyze(text, name, None).Failure?
    ensures var r := ProcessRow(b, row, index, cells, true, create, reanalyze, now);
      && r.results.processed == b.results.processed + 1
      && |r.results.errors| == |b.results.errors| + 1
      && r.results.positive + r.results.negative + r.results.neutral
         == b.results.positive + b.results.negative + b.results.neutral
  {
  }

  /** One row keeps the bookkeeping, and a collection with unique emails keeps them. */
  lemma ProcessRowAccounted(b: Batch, row: seq<string>, index: nat, cells: CellIndices, processWithAi: bool,
                            create: Analyzer, reanalyze: Analyzer, now: int, n: nat)
    requires cells.Fits(row) && Accounted(b.results, n)
    ensures var r := ProcessRow(b, row, index, cells, processWithAi, create, reanalyze, now);
      && Accounted(r.results, n + 1) && r.results.totalRows == b.results.totalRows
      && (ReviewService.UniqueEmails(b.records) ==> ReviewService.UniqueEmails(r.records))
  {
    var name, email, text := Text.Strip(row[cells.name]), Text.Strip(row[cells.email]), Text.Strip(row[cells.text]);
    if CheckRow(name, email, text).None? {
      var u := ReviewService.Upsert(b.records, name, email, text, create, now);
      if ReviewService.UniqueEmails(b.records) {
        ReviewService.UpsertKeepsEmailsUnique(b.records, name, email, text, create, now);
      }
      StoredAccounted(b, index + 1, name, email, text, u, processWithAi, reanalyze, n);
    }
  }

  /** The step after the checks adds one processed row or one message, and keeps the bookkeeping. */
  lemma StoredAccounted(b: Batch, number: nat, name: string, email: string, text: string, u: ReviewService.Upserted,
                        processWithAi: bool, reanalyze: Analyzer, n: nat)
    requires Accounted(b.results, n)
    ensures var r := Stored(b, number, name, email, text, u, processWithAi, reanalyze);
      && Accounted(r.results, n + 1) && r.results.totalRows == b.results.totalRows
      && r.records == (if u.reply.Success? then u.records else b.records)
  {
    if u.reply.Success? && processWithAi {
      var data := ReviewData(number, name, email, u.reply.value.reviewId, None, None, None, false);
      var after := Reanalysed(data, b.results, number, reanalyze(text, name, None));
      var res := after.1;
      assert res.processed == b.results.processed && res.reviewsCreated == b.results.reviewsCreated;
      assert |b.results.errors| <= |res.errors| <= |b.results.errors| + 1;
      assert res.positive + res.negative + res.neutral <= b.results.positive + b.results.negative + b.results.neutral + 1;
      assert res.emailsSent <= b.results.emailsSent + 1;
    }
  }

  /** The loop invariants of the row loop, for any number of rows. */
  lemma {:induction false} ProcessRowsAccounted(b: Batch, rows: seq<seq<string>>, cells: CellIndices, processWithAi: bool,
                                                create: Analyzer, reanalyze: Analyzer, now: int)
    requires AllFit(rows, cells) && Accounted(b.results, 0)
    ensures var r := ProcessRows(b, rows, cells, processWithAi, create, reanalyze, now);
      && Accounted(r.results, |rows|) && r.results.totalRows == b.results.totalRows
      && (ReviewService.UniqueEmails(b.records) ==> ReviewService.UniqueEmails(r.records))
    decreases |rows|
  {
    if rows != [] {
      var last := |rows| - 1;
      ProcessRowsAccounted(b, rows[..last], cells, processWithAi, create, reanalyze, now);
      var before := ProcessRows(b, rows[..last], cells, processWithAi, create, reanalyze, now);
      ProcessRowAccounted(before, rows[last], last, cells, processWithAi, create, reanalyze, now, last);
    }
  }

  // ---------------------------------------------------------------------
  // process_excel_reviews

  /** Any exception inside the run is raised again as a 500 carrying its text. */
  function Wrap(e: HttpError): HttpError {
    HttpError(500, "Failed to process file: " + e.Str())
  }

  /** The positions of the mapped columns. */
  function Cells(columns: seq<string>, mapping: map<string, string>): (c: CellIndices)
    requires forall k :: k in RequiredColumns ==> k in mapping && mapping[k] in columns
    ensures c.name < |columns| && columns[c.name] == mapping[RequiredColumns[0]]
    ensures c.email < |columns| && columns[c.email] == mapping[RequiredColumns[1]]
    ensures c.text < |columns| && columns[c.text] == mapping[RequiredColumns[2]]
  {
    var name, email, text := RequiredColumns[0], RequiredColumns[1], RequiredColumns[2];
    assert name in RequiredColumns && email in RequiredColumns && text in RequiredColumns;
    CellIndices(ColumnIndex(columns, mapping[name]), ColumnIndex(columns, mapping[email]),
                ColumnIndex(columns, mapping[text]))
  }

  /** A header that passes the check maps every required name to one of its columns. */
  lemma HeaderMapsRequired(columns: seq<string>)
    requires StructureCheck(columns).Success?
    ensures forall k :: k in RequiredColumns ==>
      k in StructureCheck(columns).value && StructureCheck(columns).value[k] in columns
  {
    StructureCheckMeaning(columns);
  }

  /** Every row of a sheet has a cell at each position below the header's width. */
  lemma RectangularFits(table: Table, cells: CellIndices)
    requires table.Rectangular()
    requires cells.name < |table.columns| && cells.email < |table.columns| && cells.text < |table.columns|
    ensures AllFit(table.rows, cells)
  {
  }

  /** The review collection after a run, and the results or the error raised. */
  datatype Run = Run(records: seq<Review>, outcome: Result<BatchResults, HttpError>)

  /** The sheet part of `process_excel_reviews`: refuse an empty sheet, check the header, run the rows. */
  function ProcessSheet(table: Table, processWithAi: bool, records: seq<Review>,
                        create: Analyzer, reanalyze: Analyzer, now: int): (r: Run)
    requires table.Rectangular()
    ensures r.outcome.Failure? ==> r.outcome.error.status == 500 && r.records == records
    ensures r.outcome.Success? <==>
      |table.rows| > 0 && |table.columns| > 0 && StructureCheck(NormalizedColumns(table.columns)).Success?
    ensures r.outcome.Success? ==> r.outcome.value.totalRows == |table.rows| > 0
  {
    if |table.rows| == 0 || |table.columns| == 0 then
      Run(records, Failure(Wrap(HttpError(400, "Excel file is empty"))))
    else
      var columns := NormalizedColumns(table.columns);
      var check := StructureCheck(columns);
      if check.Failure? then Run(records, Failure(Wrap(check.error)))
      else
        HeaderMapsRequired(columns);
        var cells := Cells(columns, check.value);
        RectangularFits(table, cells);
        var b := ProcessRows(Batch(records, InitialResults(|table.rows|)), table.rows, cells,
                             processWithAi, create, reanalyze, now);
        ProcessRowsAccounted(Batch(records, InitialResults(|table.rows|)), table.rows, cells,
                         processWithAi, create, reanalyze, now);
        Run(b.records, Success(b.results))
  }

  /**
   * `process_excel_reviews`: check the upload, take the parsed sheet and process it.
   * `parsed` is what reading the file gives: the sheet, or the parser's error text.
   */
  function ProcessExcel(file: Upload, parsed: Reply<Table>, processWithAi: bool, records: seq<Review>,
                        create: Analyzer, reanalyze: Analyzer, now: int): (r: Run)
    requires parsed.Success? ==> parsed.value.Rectangular()
    ensures r.outcome.Failure? ==> r.outcome.error.status == 500 && r.records == records
    ensures r.outcome.Success? <==>
      && ValidateFile(file).Pass? && parsed.Success?
      && |parsed.value.rows| > 0 && |parsed.value.columns| > 0
      && StructureCheck(NormalizedColumns(parsed.value.columns)).Success?
    ensures r.outcome.Success? ==> parsed.Success? && r.outcome.value.totalRows == |parsed.value.rows| > 0
  {
    var check := ValidateFile(file);
    if check.Fail? then Run(records, Failure(Wrap(check.error)))
    else if parsed.Failure? then Run(records, Failure(Wrap(HttpError(400, "Failed to parse file: " + parsed.error))))
    else ProcessSheet(parsed.value, processWithAi, records, create, reanalyze, now)
  }

  /** A refused upload is reported as a 500 whose text carries the 400 and its detail. */
  lemma RefusedUploadReported(file: Upload, parsed: Reply<Table>, processWithAi: bool, records: seq<Review>,
                              create: Analyzer, reanalyze: Analyzer, now: int)
    requires parsed.Success? ==> parsed.value.Rectangular()
    requires ValidateFile(file).Fail?
    ensures ProcessExcel(file, parsed, processWithAi, records, create, reanalyze, now).outcome
      == Failure(HttpError(500, "Failed to process file: 400: " + ValidateFile(file).error.detail))
  {
    WrappedBadRequest(ValidateFile(file).error);
  }

  lemma StatusText400()
    ensures Text.NatToString(400) == "400"
  {
    assert Text.NatToString(4) == "4";
    assert Text.NatToString(40) == "40";
  }

  /** A sheet with no rows or no columns is refused with a 400, which is reported as a 500. */
  lemma EmptySheetRejected(table: Table, processWithAi: bool, records: seq<Review>,
                           create: Analyzer, reanalyze: Analyzer, now: int)
    requires table.Rectangular() && (|table.rows| == 0 || |table.columns| == 0)
    ensures var e := HttpError(400, "Excel file is empty");
      ProcessSheet(table, processWithAi, records, create, reanalyze, now)
      == Run(records, Failure(HttpError(500, "Failed to process file: 400: " + e.detail)))
  {
    WrappedBadRequest(HttpError(400, "Excel file is empty"));
  }

  /** A 400 raised inside the run reaches the caller as a 500 whose text starts with "400: ". */
  lemma WrappedBadRequest(e: HttpError)
    requires e.status == 400
    ensures Wrap(e) == HttpError(500, "Failed to process file: 400: " + e.detail)
  {
    StatusText400();
    assert e.Str() == "400" + ": " + e.detail;
    assert "Failed to process file: " + ("400" + ": " + e.detail) == "Failed to process file: 400: " + e.detail;
  }

  /**
   * A run that completes accounts for every row, keeps the review emails unique, and
   * has a summary whose success rate is a percentage.
   */
  lemma CompletedRunAccounted(file: Upload, parsed: Reply<Table>, processWithAi: bool, records: seq<Review>,
                              create: Analyzer, reanalyze: Analyzer, now: int)
    requires parsed.Success? ==> parsed.value.Rectangular()
    requires ProcessExcel(file, parsed, processWithAi, records, create, reanalyze, now).outcome.Success?
    ensures var r := ProcessExcel(file, parsed, processWithAi, records, create, reanalyze, now);
      var s := GetFileProcessingSummary(r.outcome.value);
      && Accounted(r.outcome.value, r.outcome.value.totalRows)
      && (ReviewService.UniqueEmails(records) ==> ReviewService.UniqueEmails(r.records))
      && 0.0 <= s.successRate <= 100.0
      && s.totalRows <= s.processedSuccessfully + s.failedRows
  {
    var table := parsed.value;
    var columns := NormalizedColumns(table.columns);
    HeaderMapsRequired(columns);
    var cells := Cells(columns, StructureCheck(columns).value);
    RectangularFits(table, cells);
    ProcessRowsAccounted(Batch(records, InitialResults(|table.rows|)), table.rows, cells,
                         processWithAi, create, reanalyze, now);
    var res := ProcessExcel(file, parsed, processWithAi, records, create, reanalyze, now).outcome.value;
    SummaryRate(res);
  }

  /** The success rate of a run whose processed rows are at most its total lies in 0..100. */
  lemma SummaryRate(r: BatchResults)
    requires r.processed <= r.totalRows
    ensures 0.0 <= GetFileProcessingSummary(r).successRate <= 100.0
  {
    if r.totalRows > 0 {
      ReviewService.PercentageBound(r.processed, r.totalRows);
    }
  }

  /** The loop's own analysis step, updating the row's data and the results dictionary. */
  method RecordAnalysis(data: ReviewData, results: BatchResults, number: nat, analysis: Reply<ReviewModel.Analysis>)
    returns (data': ReviewData, next: BatchResults)
    ensures (data', next) == Reanalysed(data, results, number, analysis)
  {
    data', next := data, results;
    if analysis.Failure? {
      next := next.(errors := next.errors + [RowLabel(number) + "AI processing failed - " + analysis.error]);
      return;
    }
    var a := analysis.value;
    data' := data'.(sentiment := Some(a.sentiment), sentimentScore := Some(a.sentimentScore),
                    urgencyLevel := Some(a.urgencyLevel));
    var sentiment := Text.Lower(a.sentiment);
    if sentiment == "positive" {
      next := next.(positive := next.positive + 1);
    } else if sentiment == "negative" {
      next := next.(negative := next.negative + 1);
    } else if sentiment == "neutral" {
      next := next.(neutral := next.neutral + 1);
    }
    if a.shouldSendEmail {
      data' := data'.(emailSent := true);
      next := next.(emailsSent := next.emailsSent + 1);
    }
  }

  /** One row of the loop, on the review collection and the results dictionary. */
  method ProcessRowInto(store: ReviewService.ReviewStore, results: BatchResults, row: seq<string>, index: nat,
                        cells: CellIndices, processWithAi: bool, create: Analyzer, reanalyze: Analyzer, now: int)
    returns (next: BatchResults)
    requires cells.Fits(row)
    modifies store
    ensures Batch(store.records, next)
      == ProcessRow(Batch(old(store.records), results), row, index, cells, processWithAi, create, reanalyze, now)
  {
    next := results;
    var name, email, text := Text.Strip(row[cells.name]), Text.Strip(row[cells.email]), Text.Strip(row[cells.text]);
    var number := index + 1;
    var problem := CheckRow(name, email, text);
    if problem.Some? {
      next := next.(errors := next.errors + [problem.value.Message(number)]);
      return;
    }
    next := StoreRow(store, next, number, name, email, text, processWithAi, create, reanalyze, now);
  }

  /** The loop body after the checks: store the review, then analyse and tally. */
  method StoreRow(store: ReviewService.ReviewStore, results: BatchResults, number: nat, name: string, email: string,
                  text: string, processWithAi: bool, create: Analyzer, reanalyze: Analyzer, now: int)
    returns (next: BatchResults)
    modifies store
    ensures Batch(store.records, next)
      == Stored(Batch(old(store.records), results), number, name, email, text,
                ReviewService.Upsert(old(store.records), name, email, text, create, now), processWithAi, reanalyze)
  {
    next := results;
    var created := store.CreateAndProcessReview(name, email, text, create, now);
    if created.Failure? {
      next := next.(errors := next.errors + [RowLabel(number) + created.error]);
      return;
    }
    var data := ReviewData(number, name, email, created.value.reviewId, None, None, None, false);
    if processWithAi {
      var analysis := reanalyze(text, name, None);
      data, next := RecordAnalysis(data, next, number, analysis);
    }
    next := next.(reviewsCreated := next.reviewsCreated + [data], processed := next.processed + 1);
  }

  /** The loop over the rows, each numbered by its position. */
  method ProcessRowsInto(store: ReviewService.ReviewStore, rows: seq<seq<string>>, cells: CellIndices,
                         processWithAi: bool, create: Analyzer, reanalyze: Analyzer, now: int)
    returns (results: BatchResults)
    requires AllFit(rows, cells)
    modifies store
    ensures Batch(store.records, results)
      == ProcessRows(Batch(old(store.records), InitialResults(|rows|)), rows, cells, processWithAi, create, reanalyze, now)
  {
    results := InitialResults(|rows|);
    ghost var start := Batch(store.records, results);
    for i := 0 to |rows|
      invariant AllFit(rows[..i], cells)
      invariant Batch(store.records, results)
        == ProcessRows(start, rows[..i], cells, processWithAi, create, reanalyze, now)
    {
      ProcessRowsStep(start, rows, i, cells, processWithAi, create, reanalyze, now);
      results := ProcessRowInto(store, results, rows[i], i, cells, processWithAi, create, reanalyze, now);
    }
    assert rows[..|rows|] == rows;
  }

  /** One more row extends the loop by one `ProcessRow`. */
  lemma ProcessRowsStep(b: Batch, rows: seq<seq<string>>, i: nat, cells: CellIndices, processWithAi: bool,
                        create: Analyzer, reanalyze: Analyzer, now: int)
    requires AllFit(rows, cells) && i < |rows|
    ensures AllFit(rows[..i], cells) && AllFit(rows[..i + 1], cells) && cells.Fits(rows[i])
    ensures ProcessRows(b, rows[..i + 1], cells, processWithAi, create, reanalyze, now)
      == ProcessRow(ProcessRows(b, rows[..i], cells, processWithAi, create, reanalyze, now),
                    rows[i], i, cells, processWithAi, create, reanalyze, now)
  {
    assert rows[..i + 1][..i] == rows[..i];
  }

  /**
   * `process_excel_reviews` with the review collection it writes to. `send_emails` is
   * accepted and unused, as in the service.
   */
  method ProcessExcelReviews(file: Upload, parsed: Reply<Table>, processWithAi: bool, sendEmails: bool,
                             store: ReviewService.ReviewStore, create: Analyzer, reanalyze: Analyzer, now: int)
    returns (r: Result<BatchResults, HttpError>)
    requires parsed.Success? ==> parsed.value.Rectangular()
    modifies store
    ensures Run(store.records, r) == ProcessExcel(file, parsed, processWithAi, old(store.records), create, reanalyze, now)
  {
    var check := ValidateFile(file);
    if check.Fail? {
      return Failure(Wrap(check.error));
    }
    if parsed.Failure? {
      return Failure(Wrap(HttpError(400, "Failed to parse file: " + parsed.error)));
    }
    var df := new DataFrame(parsed.value);
    if df.Empty() {
      return Failure(Wrap(HttpError(400, "Excel file is empty")));
    }
    var structure := ValidateDataframeStructure(df);
    if structure.Failure? {
      return Failure(Wrap(structure.error));
    }
    HeaderMapsRequired(df.columns);
    var cells := Cells(df.columns, structure.value);
    RectangularFits(parsed.value, cells);
    var results := ProcessRowsInto(store, df.rows, cells, processWithAi, create, reanalyze, now);
    r := Success(results);
  }

  // ---------------------------------------------------------------------
  // get_file_processing_summary

  datatype Summary = Summary(
    totalRows: nat,
    processedSuccessfully: nat,
    failedRows: nat,
    successRate: real,
    positive: nat,
    negative: nat,
    neutral: nat,
    emailsSent: nat,
    errors: seq<string>,
    hasMoreErrors: bool)

  /**
   * `get_file_processing_summary`: the first ten errors, whether there were more, the
   * number of errors as failed rows, and the share processed in percent (0 for no rows).
   */
  function GetFileProcessingSummary(r: BatchResults): (s: Summary)
    ensures s.errors <= r.errors && |s.errors| == (if |r.errors| < 10 then |r.errors| else 10)
    ensures s.hasMoreErrors <==> s.errors != r.errors
    ensures s.failedRows == |r.errors| && s.totalRows == r.totalRows && s.processedSuccessfully == r.processed
    ensures r.totalRows == 0 ==> s.successRate == 0.0
  {
    var shown := if |r.errors| <= 10 then r.errors else r.errors[..10];
    var rate := if r.totalRows > 0 then r.processed as real / r.totalRows as real * 100.0 else 0.0;
    Summary(r.totalRows, r.processed, |r.errors|, rate, r.positive, r.negative, r.neutral, r.emailsSent,
            shown, |r.errors| > 10)
  }
}
