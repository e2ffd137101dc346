/**
 * The source-hospital check: read the credentials (default role ACCOUNTADMIN),
 * build the warehouse connection URL, run one query, and tally the returned
 * hospitals into those that exist in the staging table and those missing from
 * the source data, with the display rules of the listing and the two notes
 * the tally selects.
 *
 * The query is an input: it fails, or it returns the rows. The SQL itself runs
 * in the warehouse and is not modelled.
 */
module SourceHospitals {
  import opened Common
  import opened Profiles

  /** `read_dbt_profiles` of this script: missing fields get the defaults, the role ACCOUNTADMIN. */
  function ReadDbtProfiles(file: ProfilesFile): (creds: Option<Credentials>)
    ensures creds.None? <==> DevOutput(file).None?
    ensures creds.Some? ==> creds.value.role == Field(DevOutput(file).value, "role", "ACCOUNTADMIN")
    ensures creds.Some? && "role" !in DevOutput(file).value ==> creds.value.role == "ACCOUNTADMIN"
  {
    ReadProfile(file, "ACCOUNTADMIN")
  }

  /** The connection URL, fields inserted as they are (no escaping). It
      determines the credentials whenever no field holds its own separator;
      `ConnectionStringAmbiguous` shows that it does not otherwise. */
  function ConnectionString(c: Credentials): (url: string)
    ensures IsPrefix("snowflake://", url)
    ensures Unambiguous(c) ==> ParseConnectionString(url) == Some(c)
  {
    DropPrefixJoin("snowflake://", Location(c));
    if Unambiguous(c) then
      LocationRoundTrip(c);
      "snowflake://" + Location(c)
    else
      "snowflake://" + Location(c)
  }

  /** The URL after its scheme: `user:password@account/database?query`. */
  function Location(c: Credentials): string {
    c.user + ":" + c.password + "@" + c.account + "/" + c.database + "?" + QueryPart(c)
  }

  /** The text before and after the first `sep` in `s`, if there is one. */
  function SplitAt(s: string, sep: char): Option<(string, string)>
  {
    if s == [] then None
    else if s[0] == sep then Some(([], s[1..]))
    else
      match SplitAt(s[1..], sep)
      case None => None
      case Some(parts) => Some(([s[0]] + parts.0, parts.1))
  }

  lemma {:induction false} SplitAtJoin(a: string, sep: char, b: string)
    requires sep !in a
    ensures SplitAt(a + [sep] + b, sep) == Some((a, b))
  {
    if a != [] {
      assert (a + [sep] + b)[1..] == a[1..] + [sep] + b;
      SplitAtJoin(a[1..], sep, b);
      assert [a[0]] + a[1..] == a;
    } else {
      assert a + [sep] + b == [sep] + b;
    }
  }

  /** `s` with the prefix `p` removed, if it starts with it. */
  function DropPrefix(p: string, s: string): Option<string> {
    if IsPrefix(p, s) then Some(s[|p|..]) else None
  }

  lemma DropPrefixJoin(p: string, s: string)
    ensures DropPrefix(p, p + s) == Some(s)
  {
    assert (p + s)[..|p|] == p;
  }

  /** Reading the credentials back out of a connection URL, splitting at the
      first separator of each kind. */
  function ParseConnectionString(url: string): Option<Credentials> {
    match DropPrefix("snowflake://", url)
    case None => None
    case Some(rest) => ParseLocation(rest)
  }

  /** `user:password@account/database?...` */
  function ParseLocation(s: string): Option<Credentials> {
    match SplitAt(s, ':')
    case None => None
    case Some((user, r1)) =>
    match SplitAt(r1, '@')
    case None => None
    case Some((password, r2)) =>
    match SplitAt(r2, '/')
    case None => None
    case Some((account, r3)) =>
    match SplitAt(r3, '?')
    case None => None
    case Some((database, r4)) => ParseQuery(account, user, password, database, r4)
  }

  /** `warehouse=W&role=R` */
  function ParseQuery(account: string, user: string, password: string, database: string, s: string): Option<Credentials> {
    match DropPrefix("warehouse=", s)
    case None => None
    case Some(r5) =>
    match SplitAt(r5, '&')
    case None => None
    case Some((warehouse, r6)) =>
    match DropPrefix("role=", r6)
    case None => None
    case Some(role) => Some(Credentials(account, user, password, database, warehouse, role))
  }

  /** No field contains the separator that ends it in the URL. */
  predicate Unambiguous(c: Credentials) {
    ':' !in c.user && '@' !in c.password && '/' !in c.account &&
    '?' !in c.database && '&' !in c.warehouse
  }

  function QueryPart(c: Credentials): string {
    "warehouse=" + c.warehouse + "&role=" + c.role
  }

  lemma QueryRoundTrip(c: Credentials)
    requires '&' !in c.warehouse
    ensures ParseQuery(c.account, c.user, c.password, c.database, QueryPart(c)) == Some(c)
  {
    var r6 := "role=" + c.role;
    var r5 := c.warehouse + "&" + r6;
    assert QueryPart(c) == "warehouse=" + r5;
    DropPrefixJoin("warehouse=", r5);
    SplitAtJoin(c.warehouse, '&', r6);
    DropPrefixJoin("role=", c.role);
  }

  lemma LocationRoundTrip(c: Credentials)
    requires Unambiguous(c)
    ensures ParseLocation(Location(c)) == Some(c)
  {
    var r4 := QueryPart(c);
    var r3 := c.database + "?" + r4;
    var r2 := c.account + "/" + r3;
    var r1 := c.password + "@" + r2;
    var r0 := c.user + ":" + r1;
    assert Location(c) == r0;
    SplitAtJoin(c.user, ':', r1);
    SplitAtJoin(c.password, '@', r2);
    SplitAtJoin(c.account, '/', r3);
    SplitAtJoin(c.database, '?', r4);
    QueryRoundTrip(c);
  }

  /** Without escaping, a password holding "@" yields the same URL as other
      credentials: the URL does not always determine them. */
  lemma ConnectionStringAmbiguous()
    ensures var c1 := Credentials("b", "u", "p@a", "D", "W", "R");
            var c2 := Credentials("a@b", "u", "p", "D", "W", "R");
            c1 != c2 && ConnectionString(c1) == ConnectionString(c2)
  {
    var c1 := Credentials("b", "u", "p@a", "D", "W", "R");
    var c2 := Credentials("a@b", "u", "p", "D", "W", "R");
    assert c1.account != c2.account by { assert |c1.account| != |c2.account|; }
    assert c1.user + ":" + c1.password + "@" + c1.account == "u:p@a@b";
    assert c2.user + ":" + c2.password + "@" + c2.account == "u:p@a@b";
    assert QueryPart(c1) == QueryPart(c2);
  }

  /** One row of the query result. */
  datatype Row = Row(
    hospitalId: string, sourceStatus: string, facilityName: Option<string>, state: Option<string>, records: nat)

  /** One line of the printed listing, before column padding. */
  datatype DisplayLine = DisplayLine(hospitalId: string, sourceStatus: string, facilityName: string, state: string, records: nat)

  /** `value or 'N/A'`: absent and empty values show as "N/A". */
  function OrNA(value: Option<string>): (s: string)
    ensures s == "N/A" || (Truthy(value) && s == value.value)
    ensures !Truthy(value) ==> s == "N/A"
  {
    if Truthy(value) then value.value else "N/A"
  }

  /** How a row is listed: names and states fall back to "N/A", and the
      facility name is cut to 38 characters. */
  function Display(row: Row): (line: DisplayLine)
    ensures |line.facilityName| <= 38
    ensures IsPrefix(line.facilityName, OrNA(row.facilityName))
    ensures |OrNA(row.facilityName)| <= 38 ==> line.facilityName == OrNA(row.facilityName)
    ensures line.state == OrNA(row.state)
  {
    DisplayLine(row.hospitalId, row.sourceStatus, Take(OrNA(row.facilityName), 38), OrNA(row.state), row.records)
  }

  predicate Exists(row: Row) {
    Contains(row.sourceStatus, "EXISTS")
  }

  /** Number of rows whose status says the hospital exists in the staging table. */
  function CountExists(rows: seq<Row>): (n: nat)
    ensures n <= |rows|
  {
    if rows == [] then 0 else (if Exists(rows[0]) then 1 else 0) + CountExists(rows[1..])
  }

  /** Some row counts as existing exactly when the count is positive, and some
      row counts as missing exactly when the count falls short of the rows. */
  lemma {:induction false} CountExistsWitness(rows: seq<Row>)
    ensures CountExists(rows) > 0 <==> exists i :: 0 <= i < |rows| && Exists(rows[i])
    ensures CountExists(rows) < |rows| <==> exists i :: 0 <= i < |rows| && !Exists(rows[i])
  {
    if rows != [] {
      CountExistsWitness(rows[1..]);
      if exists i :: 0 <= i < |rows| && Exists(rows[i]) {
        var i :| 0 <= i < |rows| && Exists(rows[i]);
        if i > 0 { assert rows[1..][i - 1] == rows[i]; }
      }
      if exists i :: 0 <= i < |rows| && !Exists(rows[i]) {
        var i :| 0 <= i < |rows| && !Exists(rows[i]);
        if i > 0 { assert rows[1..][i - 1] == rows[i]; }
      }
      if exists i :: 0 <= i < |rows[1..]| && Exists(rows[1..][i]) {
        var i :| 0 <= i < |rows[1..]| && Exists(rows[1..][i]);
        assert rows[i + 1] == rows[1..][i];
      }
      if exists i :: 0 <= i < |rows[1..]| && !Exists(rows[1..][i]) {
        var i :| 0 <= i < |rows[1..]| && !Exists(rows[1..][i]);
        assert rows[i + 1] == rows[1..][i];
      }
    }
  }

  /** The row loop of `main`: one counter per row, and one listing line per row. */
  method TallyRows(rows: seq<Row>) returns (existsCount: nat, missingCount: nat, lines: seq<DisplayLine>)
    ensures existsCount == CountExists(rows)
    ensures existsCount + missingCount == |rows|
    ensures |lines| == |rows| && forall i :: 0 <= i < |rows| ==> lines[i] == Display(rows[i])
  {
    existsCount, missingCount, lines := 0, 0, [];
    for i := 0 to |rows|
      invariant existsCount == CountExists(rows[..i])
      invariant existsCount + missingCount == i
      invariant |lines| == i && forall k :: 0 <= k < i ==> lines[k] == Display(rows[k])
    {
      CountExistsAppend(rows[..i], rows[i]);
      assert rows[..i + 1] == rows[..i] + [rows[i]];
      if Exists(rows[i]) {
        existsCount := existsCount + 1;
      } else {
        missingCount := missingCount + 1;
      }
      lines := lines + [Display(rows[i])];
    }
    assert rows[..|rows|] == rows;
  }

  lemma {:induction false} CountExistsAppend(rows: seq<Row>, row: Row)
    ensures CountExists(rows + [row]) == CountExists(rows) + (if Exists(row) then 1 else 0)
  {
    if rows != [] {
      assert (rows + [row])[1..] == rows[1..] + [row];
      CountExistsAppend(rows[1..], row);
    }
  }

  datatype QueryOutcome = QueryFailed | Rows(rows: seq<Row>)

  /** The summary printed after the listing, and which of the two notes it carries. */
  datatype Summary = NoMissingHospitals | Tally(existsCount: nat, missingCount: nat, issueFound: bool, orphanNote: bool)

  datatype CheckReport = CheckReport(exitCode: int, connection: Option<string>, lines: seq<DisplayLine>, summary: Option<Summary>)

  /** The script's `main`. */
  method CheckSourceHospitals(file: ProfilesFile, query: QueryOutcome) returns (report: CheckReport)
    ensures ReadDbtProfiles(file).None? ==> report == CheckReport(1, None, [], None)
    ensures ReadDbtProfiles(file).Some? ==> report.connection == Some(ConnectionString(ReadDbtProfiles(file).value))
    ensures report.exitCode == 0 <==> ReadDbtProfiles(file).Some? && query.Rows?
    ensures report.exitCode == 0 || report.exitCode == 1
    ensures report.exitCode == 0 && query.rows == [] ==> report.summary == Some(NoMissingHospitals)
    ensures report.exitCode == 0 && query.rows != [] ==>
      report.summary.Some? && report.summary.value.Tally? &&
      var t := report.summary.value;
      t.existsCount == CountExists(query.rows) &&
      t.existsCount + t.missingCount == |query.rows| &&
      (t.issueFound <==> exists i :: 0 <= i < |query.rows| && Exists(query.rows[i])) &&
      (t.orphanNote <==> exists i :: 0 <= i < |query.rows| && !Exists(query.rows[i]))
    ensures report.exitCode == 0 ==>
      |report.lines| == |query.rows| && forall i :: 0 <= i < |query.rows| ==> report.lines[i] == Display(query.rows[i])
  {
    var creds := ReadDbtProfiles(file);
    if creds.None? {
      return CheckReport(1, None, [], None);
    }
    var connection := ConnectionString(creds.value);
    match query {
      case QueryFailed =>
        report := CheckReport(1, Some(connection), [], None);
      case Rows(rows) =>
        if rows == [] {
          report := CheckReport(0, Some(connection), [], Some(NoMissingHospitals));
        } else {
          var existsCount, missingCount, lines := TallyRows(rows);
          CountExistsWitness(rows);
          report := CheckReport(0, Some(connection), lines,
                                Some(Tally(existsCount, missingCount, existsCount > 0, missingCount > 0)));
        }
    }
  }
}
