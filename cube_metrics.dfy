/**
 * The Cube.js member metrics: `activeMembers` and `newMembers`.
 *
 * Each builds a filter list (three fixed exclusions, then an optional platform
 * filter, then an optional segment filter), a member-count query over one time
 * dimension, hands it to the Cube.js service, and either returns the rows it
 * gets back or reads the first row's count as a base-10 integer.
 *
 * The service's `load` is a function parameter; `moment`'s `YYYY-MM-DD`
 * formatting and JavaScript's `parseInt` are written out below.
 */
module CubeMetrics {
  import opened Wrappers

  datatype CubeDimension =
    | IsTeamMember
    | IsBot
    | IsOrganization
    | ActivityPlatform
    | SegmentsId
    | ActivityDate
    | MemberJoinedAt

  datatype CubeMeasure = MemberCount

  datatype OrderDirection = Asc | Desc

  /** A Cube.js granularity such as `day`; absent (`null`) is `None` where it is used. */
  datatype Granularity = Granularity(unit: string)

  const DayGranularity := Granularity("day")

  datatype CubeFilter = CubeFilter(member: CubeDimension, operator: string, values: seq<string>)

  datatype TimeDimension = TimeDimension(
    dimension: CubeDimension,
    dateRange: seq<string>,
    granularity: Option<Granularity>)

  datatype CubeQuery = CubeQuery(
    measures: seq<CubeMeasure>,
    timeDimensions: seq<TimeDimension>,
    order: seq<(CubeDimension, OrderDirection)>,
    filters: seq<CubeFilter>)

  /** A result row; a missing key is a `null` or `undefined` cell. */
  datatype Row = Row(measures: map<CubeMeasure, string>, dimensions: map<CubeDimension, string>)

  /**
   * What a metric call gives back: the rows untouched, a parsed count, `NaN`
   * when the count does not parse, or `MissingFirstRow` for the `TypeError`
   * the code raises when it indexes the first row of an empty result.
   */
  datatype MetricResult = Rows(rows: seq<Row>) | Count(value: int) | NotANumber | MissingFirstRow

  /** The optional `platform` and `segment` of a dashboard filter. */
  datatype DashboardFilter = DashboardFilter(platform: Option<string>, segment: Option<string>)

  /** The default filter `{}`. */
  const NoFilter := DashboardFilter(None, None)

  /** JavaScript truthiness of an optional string: present and not empty. */
  predicate Truthy(s: Option<string>) {
    s.Some? && s.value != ""
  }

  datatype CalendarDate = CalendarDate(year: nat, month: nat, day: nat)

  /** A moment: a calendar date and a time within it. */
  datatype Moment = Moment(date: CalendarDate, millisOfDay: nat)

  // ---------------------------------------------------------------------------
  // Decimal digits

  predicate IsDigit(c: char) {
    '0' <= c <= '9'
  }

  predicate AllDigits(s: string) {
    forall i :: 0 <= i < |s| ==> IsDigit(s[i])
  }

  function DigitChar(d: nat): (c: char)
    requires d < 10
    ensures IsDigit(c)
  {
    ('0' as int + d) as char
  }

  function DigitValue(c: char): (d: nat)
    requires IsDigit(c)
    ensures d < 10
  {
    c as int - '0' as int
  }

  /** The number a string of decimal digits denotes, most significant first. */
  function DigitsValue(s: string): nat
    requires AllDigits(s)
  {
    if s == [] then 0 else DigitsValue(s[..|s| - 1]) * 10 + DigitValue(s[|s| - 1])
  }

  function Pow10(k: nat): (p: nat)
    ensures p >= 1
  {
    if k == 0 then 1 else 10 * Pow10(k - 1)
  }

  /** The shortest decimal spelling of `n`. */
  function Decimal(n: nat): (s: string)
    ensures |s| >= 1 && AllDigits(s)
  {
    if n < 10 then [DigitChar(n)] else Decimal(n / 10) + [DigitChar(n % 10)]
  }

  /** `n` in decimal, left-padded with zeros to at least `width` characters. */
  function ZeroPad(n: nat, width: nat): (s: string)
    ensures AllDigits(s) && |s| >= 1 && |s| >= width
  {
    var digits := Decimal(n);
    seq(if |digits| < width then width - |digits| else 0, _ => '0') + digits
  }

  /** A number below `10^width` pads to exactly `width` characters. */
  lemma ZeroPadWidth(n: nat, width: nat)
    requires width >= 1 && n < Pow10(width)
    ensures |ZeroPad(n, width)| == width
  {
    DecimalFits(n, width);
  }

  lemma {:induction false} DecimalFits(n: nat, width: nat)
    requires width >= 1 && n < Pow10(width)
    ensures |Decimal(n)| <= width
  {
    if n >= 10 {
      assert width >= 2;
      DecimalFits(n / 10, width - 1);
    }
  }

  lemma {:induction false} DecimalValue(n: nat)
    ensures DigitsValue(Decimal(n)) == n
  {
    if n >= 10 {
      var s := Decimal(n);
      assert s[..|s| - 1] == Decimal(n / 10);
      DecimalValue(n / 10);
    }
  }

  /** Leading zeros do not change the value of a digit string. */
  lemma {:induction false} LeadingZerosValue(k: nat, s: string)
    requires AllDigits(s)
    ensures AllDigits(seq(k, _ => '0') + s)
    ensures DigitsValue(seq(k, _ => '0') + s) == DigitsValue(s)
  {
    var z: string := seq(k, _ => '0');
    assert AllDigits(z + s);
    if s == [] {
      assert z + s == z;
      if k > 0 {
        assert z[..k - 1] == seq(k - 1, _ => '0');
        LeadingZerosValue(k - 1, []);
        assert seq(k - 1, _ => '0') + [] == seq(k - 1, _ => '0');
      }
    } else {
      assert (z + s)[..|z + s| - 1] == z + s[..|s| - 1];
      LeadingZerosValue(k, s[..|s| - 1]);
    }
  }

  /** A zero-padded number reads back as that number. */
  lemma {:induction false} ZeroPadValue(n: nat, width: nat)
    ensures DigitsValue(ZeroPad(n, width)) == n
  {
    var digits := Decimal(n);
    DecimalValue(n);
    LeadingZerosValue(if |digits| < width then width - |digits| else 0, digits);
  }

  // ---------------------------------------------------------------------------
  // JavaScript `parseInt(s, 10)`

  /** The white space `parseInt` skips before the number. */
  predicate IsWhitespace(c: char) {
    || c == ' ' || c == '\t' || c == '\n' || c == '\r' || c == '\U{000B}' || c == '\U{000C}'
    || c == '\U{00A0}' || c == '\U{2028}' || c == '\U{2029}' || c == '\U{FEFF}'
  }

  function TrimStart(s: string): (t: string)
    ensures |t| <= |s| && t == s[|s| - |t|..]
    ensures t != [] ==> !IsWhitespace(t[0])
    ensures s != [] && !IsWhitespace(s[0]) ==> t == s
  {
    if s != [] && IsWhitespace(s[0]) then TrimStart(s[1..]) else s
  }

  /** The length of the run of digits `s` starts with. */
  function DigitRun(s: string): (n: nat)
    ensures n <= |s| && AllDigits(s[..n])
    ensures n < |s| ==> !IsDigit(s[n])
  {
    if s != [] && IsDigit(s[0]) then
      var rest := DigitRun(s[1..]);
      assert s[..1 + rest] == [s[0]] + s[1..][..rest];
      1 + rest
    else 0
  }

  /** What follows the leading white space and an optional sign. */
  function Unsigned(s: string): string {
    var t := TrimStart(s);
    if t != [] && (t[0] == '-' || t[0] == '+') then t[1..] else t
  }

  predicate IsNegative(s: string) {
    var t := TrimStart(s);
    t != [] && t[0] == '-'
  }

  /**
   * `parseInt(s, 10)`: skip leading white space, read an optional sign and the
   * longest run of digits after it; `None` is `NaN`, when that run is empty.
   */
  function ParseInt(s: string): (r: Option<int>)
    ensures r.None? <==> DigitRun(Unsigned(s)) == 0
    ensures r.Some? && !IsNegative(s) ==> r.value >= 0
    ensures r.Some? && IsNegative(s) ==> r.value <= 0
  {
    var u := Unsigned(s);
    var n := DigitRun(u);
    if n == 0 then None
    else if IsNegative(s) then Some(-(DigitsValue(u[..n]) as int))
    else Some(DigitsValue(u[..n]))
  }

  /** A run of digits followed by a non-digit parses as the number the digits spell. */
  lemma {:induction false} ParseDigitsThen(p: string, rest: string)
    requires p != [] && AllDigits(p)
    requires rest == [] || !IsDigit(rest[0])
    ensures ParseInt(p + rest) == Some(DigitsValue(p))
  {
    var s := p + rest;
    assert s[0] == p[0] && IsDigit(s[0]);
    assert !IsWhitespace(s[0]) && s[0] != '-' && s[0] != '+';
    assert TrimStart(s) == s;
    assert Unsigned(s) == s;
    assert !IsNegative(s);
    DigitRunOfPrefix(p, rest);
    assert s[..|p|] == p;
  }

  /**
   * A zero-padded decimal reads back as the number it spells, whatever
   * non-digit text follows it: `parseInt` stops at the first non-digit.
   */
  lemma {:induction false} ParseZeroPadded(n: nat, width: nat, rest: string)
    requires rest == [] || !IsDigit(rest[0])
    ensures ParseInt(ZeroPad(n, width) + rest) == Some(n)
  {
    ParseDigitsThen(ZeroPad(n, width), rest);
    ZeroPadValue(n, width);
  }

  lemma {:induction false} DigitRunOfPrefix(p: string, rest: string)
    requires AllDigits(p)
    requires rest == [] || !IsDigit(rest[0])
    ensures DigitRun(p + rest) == |p|
  {
    if p != [] {
      assert (p + rest)[1..] == p[1..] + rest;
      DigitRunOfPrefix(p[1..], rest);
    }
  }

  // ---------------------------------------------------------------------------
  // `moment.format('YYYY-MM-DD')`

  /** The calendar date of a moment as `YYYY-MM-DD`; the time of day is dropped. */
  function FormatDate(d: CalendarDate): (s: string)
    ensures d.year < 10000 && d.month < 100 && d.day < 100 ==>
      |s| == 10 && s[4] == '-' && s[7] == '-'
  {
    var y, m, dd := ZeroPad(d.year, 4), ZeroPad(d.month, 2), ZeroPad(d.day, 2);
    assert d.year < 10000 && d.month < 100 && d.day < 100 ==> |y| == 4 && |m| == 2 && |dd| == 2 by {
      if d.year < 10000 && d.month < 100 && d.day < 100 {
        assert Pow10(2) == 100 && Pow10(4) == 10000;
        ZeroPadWidth(d.year, 4);
        ZeroPadWidth(d.month, 2);
        ZeroPadWidth(d.day, 2);
      }
    }
    y + "-" + m + "-" + dd
  }

  /** Each field of a formatted date parses back to the field it came from. */
  lemma {:induction false} FormatDateRoundTrip(d: CalendarDate)
    requires d.year < 10000 && d.month < 100 && d.day < 100
    ensures
      var s := FormatDate(d);
      && ParseInt(s[..4]) == Some(d.year)
      && ParseInt(s[5..7]) == Some(d.month)
      && ParseInt(s[8..]) == Some(d.day)
  {
    FormatDateFields(d);
    var s := FormatDate(d);
    FieldParses(d.year, 4, s[..4]);
    FieldParses(d.month, 2, s[5..7]);
    FieldParses(d.day, 2, s[8..]);
  }

  /** Where the three fields sit in a formatted date. */
  lemma {:induction false} FormatDateFields(d: CalendarDate)
    requires d.year < 10000 && d.month < 100 && d.day < 100
    ensures
      var s := FormatDate(d);
      && |s| == 10
      && s[..4] == ZeroPad(d.year, 4)
      && s[5..7] == ZeroPad(d.month, 2)
      && s[8..] == ZeroPad(d.day, 2)
  {
    var y, m, dd := ZeroPad(d.year, 4), ZeroPad(d.month, 2), ZeroPad(d.day, 2);
    assert Pow10(2) == 100 && Pow10(4) == 10000;
    ZeroPadWidth(d.year, 4);
    ZeroPadWidth(d.month, 2);
    ZeroPadWidth(d.day, 2);
    var s := FormatDate(d);
    assert s == y + "-" + m + "-" + dd;
    assert |y| == 4 && |m| == 2 && |dd| == 2;
    assert s[..4] == y;
    assert s[5..7] == m by {
      assert s == (y + "-") + m + ("-" + dd);
    }
    assert s[8..] == dd;
  }

  lemma {:induction false} FieldParses(n: nat, width: nat, field: string)
    requires field == ZeroPad(n, width)
    ensures ParseInt(field) == Some(n)
  {
    assert field == field + [];
    ParseZeroPadded(n, width, []);
  }

  // ---------------------------------------------------------------------------
  // Filters and query

  function EqualsFilter(member: CubeDimension, value: string): CubeFilter {
    CubeFilter(member, "equals", [value])
  }

  /** Team members, bots and organizations are always left out. */
  const ExclusionFilters: seq<CubeFilter> := [
    EqualsFilter(IsTeamMember, "false"),
    EqualsFilter(IsBot, "false"),
    EqualsFilter(IsOrganization, "false")
  ]

  /**
   * `filters` is the list a metric sends for `filter`: the three exclusions in
   * order, then a platform filter exactly when the platform is truthy, then a
   * segment filter (last) exactly when the segment is truthy.
   */
  predicate FiltersFor(filter: DashboardFilter, filters: seq<CubeFilter>) {
    && |filters| == 3 + (if Truthy(filter.platform) then 1 else 0) + (if Truthy(filter.segment) then 1 else 0)
    && filters[..3] == ExclusionFilters
    && (Truthy(filter.platform) ==> filters[3] == EqualsFilter(ActivityPlatform, filter.platform.value))
    && (Truthy(filter.segment) ==> filters[|filters| - 1] == EqualsFilter(SegmentsId, filter.segment.value))
  }

  /**
   * `query` counts members over `timeDimension`, between the calendar dates of
   * the two moments, at the given granularity, ordered by join date ascending.
   */
  predicate MemberCountQuery(
    query: CubeQuery, timeDimension: CubeDimension,
    startDate: Moment, endDate: Moment, granularity: Option<Granularity>)
  {
    && query.measures == [MemberCount]
    && query.timeDimensions == [TimeDimension(timeDimension, [FormatDate(startDate.date), FormatDate(endDate.date)], granularity)]
    && query.order == [(MemberJoinedAt, Asc)]
  }

  /** The filter list has only one possible value for a given filter. */
  lemma {:induction false} FiltersForIsUnique(filter: DashboardFilter, a: seq<CubeFilter>, b: seq<CubeFilter>)
    requires FiltersFor(filter, a) && FiltersFor(filter, b)
    ensures a == b
  {
    assert a == a[..3] + a[3..];
    assert b == b[..3] + b[3..];
    if Truthy(filter.platform) && Truthy(filter.segment) {
      assert a[3..] == [a[3], a[4]];
      assert b[3..] == [b[3], b[4]];
    }
  }

  /** With the default filter `{}` only the three exclusions are sent. */
  lemma {:induction false} DefaultFilterSendsExclusionsOnly(filters: seq<CubeFilter>)
    requires FiltersFor(NoFilter, filters)
    ensures filters == ExclusionFilters
  {
    assert filters == filters[..3];
  }

  /** Builds the query a member metric hands to `load`, pushing the optional filters in turn. */
  method BuildQuery(
    timeDimension: CubeDimension, startDate: Moment, endDate: Moment,
    granularity: Option<Granularity>, filter: DashboardFilter)
    returns (query: CubeQuery)
    ensures MemberCountQuery(query, timeDimension, startDate, endDate, granularity)
    ensures FiltersFor(filter, query.filters)
  {
    var filters := ExclusionFilters;
    if Truthy(filter.platform) {
      filters := filters + [EqualsFilter(ActivityPlatform, filter.platform.value)];
    }
    if Truthy(filter.segment) {
      filters := filters + [EqualsFilter(SegmentsId, filter.segment.value)];
    }
    query := CubeQuery(
      [MemberCount],
      [TimeDimension(timeDimension, [FormatDate(startDate.date), FormatDate(endDate.date)], granularity)],
      [(MemberJoinedAt, Asc)],
      filters);
  }

  // ---------------------------------------------------------------------------
  // Result selection

  /**
   * What a metric returns for the rows `load` produced: the rows themselves
   * for a raw or time-bucketed call, otherwise the first row's member count
   * read by `parseInt`, a missing count reading as 0.
   */
  function SelectResult(rows: seq<Row>, granularity: Option<Granularity>, rawResult: bool): (r: MetricResult)
    ensures r.Rows? <==> rawResult || granularity.Some?
    ensures r.Rows? ==> r.rows == rows
    ensures r.MissingFirstRow? <==> !rawResult && granularity.None? && rows == []
    ensures !rawResult && granularity.None? && rows != [] && MemberCount !in rows[0].measures ==> r == Count(0)
    ensures !rawResult && granularity.None? && rows != [] && MemberCount in rows[0].measures ==>
      match ParseInt(rows[0].measures[MemberCount])
      case Some(n) => r == Count(n)
      case None => r == NotANumber
  {
    if rawResult || granularity.Some? then Rows(rows)
    else if rows == [] then MissingFirstRow
    else
      var counted := if MemberCount in rows[0].measures then rows[0].measures[MemberCount] else Decimal(0);
      assert MemberCount !in rows[0].measures ==> ParseInt(counted) == Some(0) by {
        assert Decimal(0) + [] == Decimal(0);
        ParseDigitsThen(Decimal(0), []);
        DecimalValue(0);
      }
      match ParseInt(counted)
      case Some(n) => Count(n)
      case None => NotANumber
  }

  /** A count the service reports in decimal comes back as exactly that count. */
  lemma {:induction false} CountRoundTrip(n: nat, rows: seq<Row>)
    requires rows != [] && MemberCount in rows[0].measures && rows[0].measures[MemberCount] == Decimal(n)
    ensures SelectResult(rows, None, false) == Count(n)
  {
    assert Decimal(n) + [] == Decimal(n);
    ParseDigitsThen(Decimal(n), []);
    DecimalValue(n);
  }

  // ---------------------------------------------------------------------------
  // The two metrics

  /**
   * `activeMembers`: members with an activity between the two dates. Returns
   * the query it handed to `load` together with its result.
   */
  method ActiveMembers(
    load: CubeQuery -> seq<Row>, startDate: Moment, endDate: Moment,
    granularity: Option<Granularity>, filter: DashboardFilter, rawResult: bool)
    returns (query: CubeQuery, result: MetricResult)
    ensures MemberCountQuery(query, ActivityDate, startDate, endDate, granularity)
    ensures FiltersFor(filter, query.filters)
    ensures result == SelectResult(load(query), granularity, rawResult)
  {
    query := BuildQuery(ActivityDate, startDate, endDate, granularity, filter);
    var rows := load(query);
    result := SelectResult(rows, granularity, rawResult);
  }

  /**
   * `newMembers`: members whose join date lies between the two dates. The
   * same as `ActiveMembers` except for the time dimension.
   */
  method NewMembers(
    load: CubeQuery -> seq<Row>, startDate: Moment, endDate: Moment,
    granularity: Option<Granularity>, filter: DashboardFilter, rawResult: bool)
    returns (query: CubeQuery, result: MetricResult)
    ensures MemberCountQuery(query, MemberJoinedAt, startDate, endDate, granularity)
    ensures FiltersFor(filter, query.filters)
    ensures result == SelectResult(load(query), granularity, rawResult)
  {
    query := BuildQuery(MemberJoinedAt, startDate, endDate, granularity, filter);
    var rows := load(query);
    result := SelectResult(rows, granularity, rawResult);
  }

  /**
   * For the same arguments the two metrics send queries that differ only in
   * their time dimension.
   */
  lemma {:induction false} MetricsDifferOnlyInTimeDimension(
    active: CubeQuery, joined: CubeQuery, filter: DashboardFilter,
    startDate: Moment, endDate: Moment, granularity: Option<Granularity>)
    requires MemberCountQuery(active, ActivityDate, startDate, endDate, granularity) && FiltersFor(filter, active.filters)
    requires MemberCountQuery(joined, MemberJoinedAt, startDate, endDate, granularity) && FiltersFor(filter, joined.filters)
    ensures joined == active.(timeDimensions := [active.timeDimensions[0].(dimension := MemberJoinedAt)])
    ensures active != joined
  {
    FiltersForIsUnique(filter, active.filters, joined.filters);
  }
}
