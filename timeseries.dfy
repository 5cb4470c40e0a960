/** A timeseries visualization: the attributes it keeps, the pieces of the
    SQL that buckets the time column, and the reshaping of the result rows. */
module Timeseries {
  import opened Wrappers

  /** The request attributes a timeseries is built from; an absent string
      attribute behaves as the empty string in every use below. */
  datatype Attributes = Attributes(
    kind: string,
    xAxis: string,
    yAxis: string,
    timeInterval: string,
    aggregation: string,
    filters: Option<seq<string>>)

  /** The most detailed display pattern; every pattern is a prefix of it. */
  const FullPattern := "yyyy-MM-dd hh:mm:ss"

  /** The display pattern of a time bucket. */
  function Pattern(timeInterval: string): (p: string)
    ensures p <= FullPattern && |p| >= 4
    ensures timeInterval == "day" || timeInterval == "week" ==> p == "yyyy-MM-dd"
    ensures timeInterval == "month" ==> p == "yyyy-MM"
    ensures timeInterval == "year" ==> p == "yyyy"
    ensures timeInterval !in {"day", "week", "month", "year"} ==> p == FullPattern
  {
    if timeInterval == "day" || timeInterval == "week" then "yyyy-MM-dd"
    else if timeInterval == "month" then "yyyy-MM"
    else if timeInterval == "year" then "yyyy"
    else FullPattern
  }

  /** A coarser interval displays a prefix of the pattern of a finer one:
      year, then month, then day and week, then every other interval. */
  lemma PatternCoarsening(other: string)
    requires other !in {"day", "week", "month", "year"}
    ensures Pattern("year") < Pattern("month") < Pattern("day") == Pattern("week") < Pattern(other)
  {
  }

  /** `date_trunc('<interval>' ,"<time>")`. */
  function DateTrunc(timeInterval: string, time: string): (s: string)
    ensures |s| == 18 + |timeInterval| + |time|
    ensures s[..12] == "date_trunc('" && s[|s| - 2..] == "\")"
    ensures s[12..12 + |timeInterval|] == timeInterval
    ensures s[12 + |timeInterval|..16 + |timeInterval|] == "' ,\""
    ensures s[16 + |timeInterval|..|s| - 2] == time
  {
    var s := "date_trunc('" + timeInterval + "' ,\"" + time + "\")";
    assert s == "date_trunc('" + timeInterval + ("' ,\"" + time + "\")");
    s
  }

  /** The parts joined by the separator, in order. */
  function Join(parts: seq<string>, sep: string): (r: string)
    ensures |parts| == 0 ==> r == ""
    ensures |parts| > 0 ==> parts[0] <= r
    ensures |parts| > 0 ==> |parts[|parts| - 1]| <= |r| && r[|r| - |parts[|parts| - 1]|..] == parts[|parts| - 1]
  {
    if |parts| == 0 then ""
    else if |parts| == 1 then parts[0]
    else parts[0] + sep + Join(parts[1..], sep)
  }

  /** Where part `i` starts in the joined string: after every earlier part
      and its separator. */
  function Start(parts: seq<string>, sep: string, i: nat): nat
    requires i <= |parts|
  {
    if i == 0 then 0 else Start(parts, sep, i - 1) + |parts[i - 1]| + |sep|
  }

  /** Dropping the first part moves every start back by that part and a separator. */
  lemma {:induction false} StartShift(parts: seq<string>, sep: string, i: nat)
    requires 0 < i <= |parts|
    ensures Start(parts, sep, i) == |parts[0]| + |sep| + Start(parts[1..], sep, i - 1)
  {
    if i > 1 {
      StartShift(parts, sep, i - 1);
    }
  }

  /** The joined string ends with the last part. */
  lemma {:induction false} JoinLength(parts: seq<string>, sep: string)
    requires |parts| > 0
    ensures |Join(parts, sep)| == Start(parts, sep, |parts| - 1) + |parts[|parts| - 1]|
  {
    if |parts| > 1 {
      var rest := parts[1..];
      assert |Join(parts, sep)| == |parts[0]| + |sep| + |Join(rest, sep)|;
      JoinLength(rest, sep);
      assert rest[|rest| - 1] == parts[|parts| - 1];
      StartShift(parts, sep, |parts| - 1);
    }
  }

  /** Part `i` of the joined string sits at `Start(i)`. */
  lemma {:induction false} JoinPart(parts: seq<string>, sep: string, i: nat)
    requires i < |parts|
    ensures Start(parts, sep, i) + |parts[i]| <= |Join(parts, sep)|
    ensures Join(parts, sep)[Start(parts, sep, i)..Start(parts, sep, i) + |parts[i]|] == parts[i]
  {
    if |parts| > 1 {
      var rest, head := parts[1..], parts[0] + sep;
      assert Join(parts, sep) == head + Join(rest, sep);
      if i > 0 {
        JoinPart(rest, sep, i - 1);
        StartShift(parts, sep, i);
        var a, b := Start(rest, sep, i - 1), Start(rest, sep, i - 1) + |rest[i - 1]|;
        assert (head + Join(rest, sep))[|head| + a..|head| + b] == Join(rest, sep)[a..b];
      } else {
        assert Join(parts, sep)[..|parts[0]|] == parts[0];
      }
    }
  }

  /** Between part `i` and part `i + 1` of the joined string stands exactly
      the separator. */
  lemma {:induction false} JoinSeparator(parts: seq<string>, sep: string, i: nat)
    requires i + 1 < |parts|
    ensures Start(parts, sep, i + 1) <= |Join(parts, sep)|
    ensures Join(parts, sep)[Start(parts, sep, i) + |parts[i]|..Start(parts, sep, i + 1)] == sep
  {
    var rest, head := parts[1..], parts[0] + sep;
    assert Join(parts, sep) == head + Join(rest, sep);
    if i > 0 {
      JoinSeparator(rest, sep, i - 1);
      StartShift(parts, sep, i);
      StartShift(parts, sep, i + 1);
      var b, c := Start(rest, sep, i - 1) + |rest[i - 1]|, Start(rest, sep, i);
      assert (head + Join(rest, sep))[|head| + b..|head| + c] == Join(rest, sep)[b..c];
    } else {
      assert Join(parts, sep)[|parts[0]|..|head|] == sep;
    }
  }

  /** The where clause: the filters joined with ` AND `, present only when
      there is at least one filter. */
  function WhereClause(filters: Option<seq<string>>): (w: Option<string>)
    ensures w.Some? <==> filters.Some? && |filters.value| > 0
    ensures w.Some? && |filters.value| == 1 ==> w.value == filters.value[0]
  {
    if filters.Some? && |filters.value| > 0 then Some(Join(filters.value, " AND ")) else None
  }

  /** The parts of the row query: the grouping, the projected columns, the
      ordering and the optional where clause. */
  datatype RowQuery = RowQuery(groupBy: string, projection: string, orderBy: string, where: Option<string>)

  /** The two columns of a result row: the aggregate and the formatted bucket. */
  datatype ResultRow = ResultRow(aggregate: string, bucket: string)

  /** A point of the series. */
  datatype Point = Point(value: string, time: string)

  datatype FetchError = TooManyRows

  const MaxRows := 1000

  /** The points of a result, one per row and in the same order. */
  function Reshape(result: seq<ResultRow>): (points: seq<Point>)
    ensures |points| == |result|
    ensures forall i :: 0 <= i < |result| ==> points[i].time == result[i].bucket && points[i].value == result[i].aggregate
  {
    seq(|result|, i requires 0 <= i < |result| => Point(result[i].aggregate, result[i].bucket))
  }

  class Timeseries {
    var kind: string
    var time: string
    var value: string
    var timeInterval: string
    var aggregation: string
    var filters: Option<seq<string>>
    var rows: Option<seq<Point>>

    /** `Visualization::Base.new` on a timeseries: no rows yet, then `post_initialize`. */
    constructor (attributes: Attributes)
      ensures kind == attributes.kind && time == attributes.xAxis && value == attributes.yAxis
      ensures timeInterval == attributes.timeInterval && aggregation == attributes.aggregation
      ensures filters == attributes.filters
      ensures rows.None?
    {
      rows := None;
      new;
      PostInitialize(attributes);
    }

    /** `post_initialize`: the x axis becomes the time column, the y axis the
        value column; the other attributes are kept as given. */
    method PostInitialize(attributes: Attributes)
      modifies this
      ensures kind == attributes.kind && time == attributes.xAxis && value == attributes.yAxis
      ensures timeInterval == attributes.timeInterval && aggregation == attributes.aggregation
      ensures filters == attributes.filters
      ensures rows == old(rows)
    {
      kind := attributes.kind;
      time := attributes.xAxis;
      value := attributes.yAxis;
      timeInterval := attributes.timeInterval;
      aggregation := attributes.aggregation;
      filters := attributes.filters;
    }

    /** `build_row_sql`: grouped and ordered by the truncated time, projecting
        the aggregate of the value column and the truncated time rendered with
        the interval's pattern. */
    function BuildRowQuery(): (q: RowQuery)
      reads this
      ensures q.groupBy == q.orderBy == DateTrunc(timeInterval, time)
      ensures |q.projection| == |aggregation| + |value| + 20 + |q.groupBy| + |Pattern(timeInterval)|
      ensures q.projection[..|aggregation|] == aggregation
      ensures q.projection[|aggregation|..|aggregation| + 2 + |value| + 3] == "(\"" + value + "\"),"
      ensures q.projection[|q.projection| - |q.groupBy| - |Pattern(timeInterval)| - 15..]
              == " to_char(" + q.groupBy + ", '" + Pattern(timeInterval) + "') "
      ensures q.where == WhereClause(filters)
    {
      var dateTrunc := DateTrunc(timeInterval, time);
      var tail := " to_char(" + dateTrunc + ", '" + Pattern(timeInterval) + "') ";
      var projection := aggregation + ("(\"" + value + "\"),") + tail;
      assert projection[|projection| - |tail|..] == tail;
      RowQuery(dateTrunc, projection, dateTrunc, WhereClause(filters))
    }

    /** `complete_fetch`: a result of more than 1000 rows is refused and the
        rows are left as they were; otherwise the rows become the points. */
    method CompleteFetch(result: seq<ResultRow>) returns (r: Option<FetchError>)
      modifies this`rows
      ensures r == Some(TooManyRows) <==> |result| > MaxRows
      ensures r.Some? ==> rows == old(rows)
      ensures r.None? ==> rows == Some(Reshape(result))
    {
      if |result| > MaxRows {
        return Some(TooManyRows);
      }
      rows := Some(Reshape(result));
      r := None;
    }
  }
}
