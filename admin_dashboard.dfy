/** The logic of frontend/src/components/AdminDashboard.js: the KPI request URL
    and its error messages, the display helpers, the period labels and the
    Korean-to-English dictionary of the PDF export, and the rows of the Excel
    export. Number formatting (`toLocaleString`, `Math.round`, template
    literals of numbers) is a parameter. */
module AdminDashboard {
  import opened Wrappers
  import opened TextUtil
  import opened RestClient
  import StreamClient

  // ------------------------------------------------------------ loading KPIs

  /** The module's own `API_BASE_URL`: the environment variable when set, else
      the local server (this page does not use the `/api` proxy). */
  function DashboardBase(envUrl: Option<string>): (url: string)
    ensures Truthy(envUrl) ==> url == envUrl.value
    ensures !Truthy(envUrl) ==> url == LocalBase
  {
    if Truthy(envUrl) then envUrl.value else LocalBase
  }

  function KpiFields(period: string, dateFrom: string, dateTo: string): seq<Param> {
    [("period", period), ("date_from", dateFrom), ("date_to", dateTo)]
  }

  /** The URL built by `loadKPIData`: each non-empty selector in turn, and a
      `?` only in front of a non-empty query. */
  method KpiUrl(base: string, period: string, dateFrom: string, dateTo: string, encode: string -> string)
    returns (params: seq<Param>, url: string)
    ensures params == Present(KpiFields(period, dateFrom, dateTo))
    ensures url == base + "/admin/kpi/" + QuerySuffix(params, encode)
  {
    var fields := KpiFields(period, dateFrom, dateTo);
    params := AppendIfPresent([], "period", period);
    assert params == Present(fields[..1]) by {
      PresentSnoc([], fields[0]);
      assert [] + [fields[0]] == fields[..1];
    }
    params := AppendIfPresent(params, "date_from", dateFrom);
    assert params == Present(fields[..2]) by {
      PresentSnoc(fields[..1], fields[1]);
      assert fields[..1] + [fields[1]] == fields[..2];
    }
    params := AppendIfPresent(params, "date_to", dateTo);
    assert params == Present(fields) by {
      PresentSnoc(fields[..2], fields[2]);
      assert fields[..2] + [fields[2]] == fields;
    }
    var q := Serialize(params, encode);
    url := base + "/admin/kpi/" + (if q != [] then "?" + q else []);
  }

  /** The KPI query holds exactly the non-empty selectors, in the order
      `period`, `date_from`, `date_to`, and is empty (no `?`) exactly when all
      three are empty. */
  lemma KpiQueryContents(period: string, dateFrom: string, dateTo: string)
    ensures var params := Present(KpiFields(period, dateFrom, dateTo));
            params == (if period != "" then [("period", period)] else []) +
                      (if dateFrom != "" then [("date_from", dateFrom)] else []) +
                      (if dateTo != "" then [("date_to", dateTo)] else [])
    ensures Present(KpiFields(period, dateFrom, dateTo)) == [] <==> period == "" && dateFrom == "" && dateTo == ""
  {
    var fields := KpiFields(period, dateFrom, dateTo);
    PresentSnoc([], fields[0]);
    PresentSnoc(fields[..1], fields[1]);
    PresentSnoc(fields[..2], fields[2]);
    assert fields[..2] + [fields[2]] == fields;
  }

  const AdminRequiredMessage: string := "관리자 권한이 필요합니다."
  const KpiFallbackMessage: string := "KPI 조회 실패"

  /** The message set when the KPI response is not ok: a 403 always reads as a
      missing admin right, whatever its body; any other status goes through the
      `detail || message` normalisation with its own fallback. */
  function KpiErrorMessage(status: nat, body: ErrorBody): (m: string)
    ensures status == 403 ==> m == AdminRequiredMessage
    ensures status != 403 ==> m == ErrorMessage(body, KpiFallbackMessage)
    ensures m != ""
  {
    if status == 403 then AdminRequiredMessage else ErrorMessage(body, KpiFallbackMessage)
  }

  /** A 403 answer is reported the same way whatever body it carries. */
  lemma ForbiddenIgnoresBody(b1: ErrorBody, b2: ErrorBody)
    ensures KpiErrorMessage(403, b1) == KpiErrorMessage(403, b2) == AdminRequiredMessage
  {
  }

  /** What the KPI `fetch` does: reject with a message, or answer with a
      status, the error body and, for an ok status, the report. */
  datatype KpiFetch = FetchRejected(message: string) | Answered(status: nat, body: ErrorBody, report: KpiReport)

  /** The dashboard's KPI state. */
  class KpiPanel {
    var kpiData: Option<KpiReport>
    var loading: bool
    var error: Option<string>

    constructor ()
      ensures kpiData == None && loading && error == None
    {
      kpiData := None;
      loading := true;
      error := None;
    }

    /** `loadKPIData` after the request: an ok answer replaces the data and
        leaves no error; a failure keeps the old data and shows its message;
        `loading` ends false either way. */
    method LoadKpiData(fetch: KpiFetch)
      modifies this
      ensures !loading
      ensures fetch.Answered? && StreamClient.IsOk(fetch.status) ==> kpiData == Some(fetch.report) && error == None
      ensures fetch.Answered? && !StreamClient.IsOk(fetch.status) ==>
                kpiData == old(kpiData) && error == Some(KpiErrorMessage(fetch.status, fetch.body))
      ensures fetch.FetchRejected? ==> kpiData == old(kpiData) && error == Some(fetch.message)
    {
      loading := true;
      error := None;
      match fetch {
        case FetchRejected(message) =>
          error := Some(message);
        case Answered(status, body, report) =>
          if !StreamClient.IsOk(status) {
            error := Some(KpiErrorMessage(status, body));
          } else {
            kpiData := Some(report);
          }
      }
      loading := false;
    }
  }

  // ---------------------------------------------------------- display helpers

  /** The JavaScript values `formatNumber` is called with. */
  datatype JsValue = JsNull | JsUndefined | JsNumber(n: real) | JsString(s: string) | JsBool(b: bool)

  /** `formatNumber`: `-` for null or undefined, a number in the locale's
      format, any other value unchanged. */
  function FormatNumber(v: JsValue, locale: real -> string): (r: JsValue)
    ensures v.JsNull? || v.JsUndefined? ==> r == JsString("-")
    ensures v.JsNumber? ==> r == JsString(locale(v.n))
    ensures !(v.JsNull? || v.JsUndefined? || v.JsNumber?) ==> r == v
  {
    match v
    case JsNull => JsString("-")
    case JsUndefined => JsString("-")
    case JsNumber(n) => JsString(locale(n))
    case _ => v
  }

  /** The unit `formatSeconds` picks. */
  datatype TimeUnit = NoValue | Seconds | Minutes | Hours {
    function Rank(): nat {
      match this
      case NoValue => 0
      case Seconds => 1
      case Minutes => 2
      case Hours => 3
    }
  }

  function SecondsUnit(seconds: Option<real>): (u: TimeUnit)
    ensures u == NoValue <==> seconds.None?
    ensures u == Seconds <==> seconds.Some? && seconds.value < 60.0
    ensures u == Minutes <==> seconds.Some? && 60.0 <= seconds.value < 3600.0
    ensures u == Hours <==> seconds.Some? && 3600.0 <= seconds.value
  {
    if seconds.None? then NoValue
    else if seconds.value < 60.0 then Seconds
    else if seconds.value < 3600.0 then Minutes
    else Hours
  }

  /** A longer duration never gets a smaller unit. */
  lemma SecondsUnitMonotone(a: real, b: real)
    requires a <= b
    ensures SecondsUnit(Some(a)).Rank() <= SecondsUnit(Some(b)).Rank()
  {
  }

  /** `formatSeconds`; `showRounded` stands for `Math.round` and the number's
      rendering in a template literal. */
  function FormatSeconds(seconds: Option<real>, showRounded: real -> string): (r: string)
    ensures SecondsUnit(seconds) == NoValue ==> r == "-"
    ensures SecondsUnit(seconds) == Seconds ==> r == showRounded(seconds.value) + "초"
    ensures SecondsUnit(seconds) == Minutes ==> r == showRounded(seconds.value / 60.0) + "분"
    ensures SecondsUnit(seconds) == Hours ==> r == showRounded(seconds.value / 3600.0) + "시간"
  {
    match SecondsUnit(seconds)
    case NoValue => "-"
    case Seconds => showRounded(seconds.value) + "초"
    case Minutes => showRounded(seconds.value / 60.0) + "분"
    case Hours => showRounded(seconds.value / 3600.0) + "시간"
  }

  /** Whether a KPI meets its target. */
  predicate MeetsTarget(value: real, target: real, lowerIsBetter: bool) {
    if lowerIsBetter then value <= target else value >= target
  }

  /** `getStatusColor`: no class without both a value and a target; otherwise
      `status-good` exactly when the target is met. */
  function StatusColor(value: Option<real>, target: Option<real>, lowerIsBetter: bool): (c: string)
    ensures c == "" <==> value.None? || target.None?
    ensures c == "status-good" <==> value.Some? && target.Some? && MeetsTarget(value.value, target.value, lowerIsBetter)
    ensures c in {"", "status-good", "status-warning"}
  {
    if value.None? || target.None? then ""
    else if lowerIsBetter then (if value.value <= target.value then "status-good" else "status-warning")
    else if value.value >= target.value then "status-good" else "status-warning"
  }

  /** Hitting the target exactly is good in both directions. */
  lemma TargetHitIsGood(t: real, lowerIsBetter: bool)
    ensures StatusColor(Some(t), Some(t), lowerIsBetter) == "status-good"
  {
  }

  // --------------------------------------------------------- labels and words

  /** The period label of the Excel export. */
  function PeriodLabelKo(period: string): (l: string)
    ensures l in {"전체", "일간", "주간", "월간"}
    ensures period == "all" ==> l == "전체"
    ensures period == "daily" ==> l == "일간"
    ensures period == "weekly" ==> l == "주간"
    ensures period !in {"all", "daily", "weekly"} ==> l == "월간"
  {
    if period == "all" then "전체"
    else if period == "daily" then "일간"
    else if period == "weekly" then "주간"
    else "월간"
  }

  /** The period label of the PDF export. */
  function PeriodLabelEn(period: string): (l: string)
    ensures l in {"All", "Daily", "Weekly", "Monthly"}
    ensures period == "all" ==> l == "All"
    ensures period == "daily" ==> l == "Daily"
    ensures period == "weekly" ==> l == "Weekly"
    ensures period !in {"all", "daily", "weekly"} ==> l == "Monthly"
  {
    if period == "all" then "All"
    else if period == "daily" then "Daily"
    else if period == "weekly" then "Weekly"
    else "Monthly"
  }

  /** `koreanToEnglish`. */
  const Dictionary: map<string, string> := map[
    "고객 상담 코칭 시스템 KPI 리포트" := "Customer Service Coaching KPI Report",
    "생성일시" := "Generated",
    "기간" := "Period",
    "전체" := "All",
    "일간" := "Daily",
    "주간" := "Weekly",
    "월간" := "Monthly",
    "사용자 활동 지표" := "User Engagement Metrics",
    "지표" := "Metric",
    "값" := "Value",
    "목표" := "Target",
    "전체 상담 수" := "Total Consultations",
    "일일 업로드 수" := "Daily Uploads",
    "주간 업로드 수" := "Weekly Uploads",
    "월간 업로드 수" := "Monthly Uploads",
    "일일 활성 사용자 (DAU)" := "Daily Active Users (DAU)",
    "주간 활성 사용자 (WAU)" := "Weekly Active Users (WAU)",
    "재방문율 (%)" := "Return Rate (%)",
    "파일 타입별 분포" := "File Type Distribution",
    "파일 타입" := "File Type",
    "비율" := "Percentage",
    "건수" := "Count",
    "시스템 성능 지표" := "System Performance Metrics",
    "분석 성공률 (%)" := "Analysis Success Rate (%)",
    "분석 실패율 (%)" := "Analysis Failure Rate (%)",
    "실패한 분석 수" := "Failed Analyses",
    "평균 처리 시간 (초)" := "Avg Processing Time (sec)",
    "AI 분석 품질 지표" := "AI Analysis Quality Metrics",
    "평균 분석 결과 길이 (자)" := "Avg Analysis Length (chars)",
    "분석 항목 커버리지 (%)" := "Analysis Coverage (%)",
    "완료된 분석 수" := "Completed Analyses",
    "기술적 지표" := "Technical Metrics",
    "데이터베이스 크기 (MB)" := "Database Size (MB)",
    "Supabase 업로드 성공률 (%)" := "Supabase Upload Success Rate (%)",
    "총 파일 수" := "Total Files"
  ]

  /** `translate`: the dictionary entry when there is a non-empty one, else the
      text itself. */
  function Translate(text: string): (r: string)
    ensures text in Dictionary && Dictionary[text] != "" ==> r == Dictionary[text]
    ensures text !in Dictionary ==> r == text
  {
    if text in Dictionary && Dictionary[text] != "" then Dictionary[text] else text
  }

  /** The two exports agree: the Korean period label of the sheet translates to
      the English label of the PDF. */
  lemma PeriodLabelsAgree(period: string)
    ensures Translate(PeriodLabelKo(period)) == PeriodLabelEn(period)
  {
    if period == "all" {
      assert Dictionary["전체"] == "All";
    } else if period == "daily" {
      assert Dictionary["일간"] == "Daily";
    } else if period == "weekly" {
      assert Dictionary["주간"] == "Weekly";
    } else {
      assert Dictionary["월간"] == "Monthly";
    }
  }

  /** Text outside the dictionary passes through: for example a file type name
      or an English word. */
  lemma TranslateUnknown()
    ensures Translate("audio") == "audio" && Translate("Generated") == "Generated"
  {
    assert "audio" !in Dictionary;
    assert "Generated" !in Dictionary;
  }

  // ------------------------------------------------------------- Excel export

  /** The KPI report as the dashboard receives it; `None` is JSON `null`. */
  datatype DateRange = DateRange(from: Option<string>, to: Option<string>)
  datatype Engagement = Engagement(
    total: real, daily: Option<real>, weekly: Option<real>, monthly: Option<real>,
    dau: Option<real>, wau: Option<real>, returnRate: Option<real>,
    distribution: seq<(string, real)>, counts: map<string, nat>)
  datatype Performance = Performance(
    successRate: real, failureRate: real, completed: real, failed: real,
    avgTime: Option<real>, avgTimeByType: Option<seq<(string, real)>>)
  datatype Quality = Quality(avgLength: Option<real>, coverage: real, completed: real)
  datatype Technical = Technical(dbSize: Option<real>, supabaseRate: real, totalFiles: real)
  datatype Targets = Targets(daily: real, weekly: real, monthly: real, successRate: real, failureRate: real, coverage: real)
  datatype KpiReport = KpiReport(
    dateRange: DateRange, engagement: Engagement, performance: Performance,
    quality: Quality, technical: Technical, targets: Targets)

  /** One cell of the sheet: a text or a number. */
  datatype Cell = Text(s: string) | Num(n: real)
  type Row = seq<Cell>

  const Dash: Cell := Text("-")
  const TableHead: Row := [Text("지표"), Text("값"), Text("목표")]

  /** A metric row that is present only when the metric is not null. */
  function OptionalRow(name: string, value: Option<real>, target: Cell): (rows: seq<Row>)
    ensures value.Some? ==> rows == [[Text(name), Num(value.value), target]]
    ensures value.None? ==> rows == []
  {
    if value.Some? then [[Text(name), Num(value.value), target]] else []
  }

  /** `file_type_counts[type] || 0`. */
  function CountOf(counts: map<string, nat>, fileType: string): nat {
    if fileType in counts then counts[fileType] else 0
  }

  function FileTypeRow(entry: (string, real), counts: map<string, nat>, show: real -> string): Row {
    [Text("  " + entry.0), Text(show(entry.1) + "% (" + DecimalString(CountOf(counts, entry.0)) + "건)"), Dash]
  }

  /** One row per entry of the distribution, in its order. */
  function FileTypeRows(dist: seq<(string, real)>, counts: map<string, nat>, show: real -> string): (rows: seq<Row>)
    ensures |rows| == |dist|
  {
    if dist == [] then []
    else FileTypeRows(dist[..|dist| - 1], counts, show) + [FileTypeRow(dist[|dist| - 1], counts, show)]
  }

  function TimeByTypeRow(entry: (string, real)): Row {
    [Text("  " + entry.0 + " 평균 처리 시간 (초)"), Num(entry.1), Dash]
  }

  function TimeByTypeRows(entries: seq<(string, real)>): (rows: seq<Row>)
    ensures |rows| == |entries|
  {
    if entries == [] then []
    else TimeByTypeRows(entries[..|entries| - 1]) + [TimeByTypeRow(entries[|entries| - 1])]
  }

  function HeaderRows(period: string, generatedAt: string, range: DateRange): seq<Row> {
    [[Text("고객 상담 코칭 시스템 KPI 리포트")], [Text("생성일시"), Text(generatedAt)],
     [Text("기간"), Text(PeriodLabelKo(period))]]
    + (if Truthy(range.from) then [[Text("시작일"), Text(range.from.value)]] else [])
    + (if Truthy(range.to) then [[Text("종료일"), Text(range.to.value)]] else [])
    + [[]]
  }

  /** Each section below continues the rows pushed so far, `acc`. */
  function EngagementRows(acc: seq<Row>, k: KpiReport, show: real -> string): seq<Row> {
    var e := k.engagement;
    acc + [[Text("1. 사용자 활동 지표")], TableHead, [Text("전체 상담 수"), Num(e.total), Dash]]
    + OptionalRow("일일 업로드 수", e.daily, Num(k.targets.daily))
    + OptionalRow("주간 업로드 수", e.weekly, Num(k.targets.weekly))
    + OptionalRow("월간 업로드 수", e.monthly, Num(k.targets.monthly))
    + OptionalRow("일일 활성 사용자 (DAU)", e.dau, Dash)
    + OptionalRow("주간 활성 사용자 (WAU)", e.wau, Dash)
    + OptionalRow("재방문율 (%)", e.returnRate, Text("40"))
    + [[Text("파일 타입별 분포")]]
    + FileTypeRows(e.distribution, e.counts, show)
    + [[]]
  }

  function PerformanceRows(acc: seq<Row>, k: KpiReport): seq<Row> {
    var p := k.performance;
    acc + [[Text("2. 시스템 성능 지표")], TableHead,
           [Text("분석 성공률 (%)"), Num(p.successRate), Num(k.targets.successRate)],
           [Text("분석 실패율 (%)"), Num(p.failureRate), Num(k.targets.failureRate)],
           [Text("완료된 분석 수"), Num(p.completed), Dash],
           [Text("실패한 분석 수"), Num(p.failed), Dash]]
    + OptionalRow("평균 처리 시간 (초)", p.avgTime, Dash)
    + TimeByTypeRows(p.avgTimeByType.GetOr([]))
    + [[]]
  }

  function QualityRows(acc: seq<Row>, k: KpiReport): seq<Row> {
    var q := k.quality;
    acc + [[Text("3. AI 분석 품질 지표")], TableHead]
    + OptionalRow("평균 분석 결과 길이 (자)", q.avgLength, Text("500-2000"))
    + [[Text("분석 항목 커버리지 (%)"), Num(q.coverage), Num(k.targets.coverage)],
       [Text("완료된 분석 수"), Num(q.completed), Dash], []]
  }

  function TechnicalRows(acc: seq<Row>, k: KpiReport): seq<Row> {
    var t := k.technical;
    acc + [[Text("4. 기술적 지표")], TableHead]
    + OptionalRow("데이터베이스 크기 (MB)", t.dbSize, Text("100"))
    + [[Text("Supabase 업로드 성공률 (%)"), Num(t.supabaseRate), Text("95")],
       [Text("총 파일 수"), Num(t.totalFiles), Dash]]
  }

  /** The whole sheet, section by section. */
  function SheetRows(k: KpiReport, period: string, generatedAt: string, show: real -> string): seq<Row> {
    TechnicalRows(QualityRows(PerformanceRows(EngagementRows(HeaderRows(period, generatedAt, k.dateRange), k, show), k), k), k)
  }

  /** `if (cond) wsData.push(row)`. */
  method PushWhen(rows: seq<Row>, cond: bool, row: Row) returns (rows': seq<Row>)
    ensures rows' == rows + (if cond then [row] else [])
  {
    rows' := rows;
    if cond {
      rows' := rows' + [row];
    } else {
      assert rows + [] == rows;
    }
  }

  /** `if (value !== null) wsData.push([label, value, target])`. */
  method PushOptional(rows: seq<Row>, name: string, value: Option<real>, target: Cell) returns (rows': seq<Row>)
    ensures rows' == rows + OptionalRow(name, value, target)
  {
    rows' := rows;
    if value.Some? {
      rows' := rows' + [[Text(name), Num(value.value), target]];
    } else {
      assert rows + [] == rows;
    }
  }

  /** The distribution's `forEach`. */
  method PushFileTypes(rows: seq<Row>, dist: seq<(string, real)>, counts: map<string, nat>, show: real -> string)
    returns (rows': seq<Row>)
    ensures rows' == rows + FileTypeRows(dist, counts, show)
  {
    rows' := rows;
    assert rows + [] == rows;
    for i := 0 to |dist|
      invariant rows' == rows + FileTypeRows(dist[..i], counts, show)
    {
      assert dist[..i + 1][..i] == dist[..i];
      rows' := rows' + [FileTypeRow(dist[i], counts, show)];
    }
    assert dist[..|dist|] == dist;
  }

  /** The `avg_processing_time_by_type || {}` `forEach`. */
  method PushTimesByType(rows: seq<Row>, entries: seq<(string, real)>) returns (rows': seq<Row>)
    ensures rows' == rows + TimeByTypeRows(entries)
  {
    rows' := rows;
    assert rows + [] == rows;
    for i := 0 to |entries|
      invariant rows' == rows + TimeByTypeRows(entries[..i])
    {
      assert entries[..i + 1][..i] == entries[..i];
      rows' := rows' + [TimeByTypeRow(entries[i])];
    }
    assert entries[..|entries|] == entries;
  }

  method PushEngagement(rows: seq<Row>, k: KpiReport, show: real -> string) returns (rows': seq<Row>)
    ensures rows' == EngagementRows(rows, k, show)
  {
    var e := k.engagement;
    rows' := rows + [[Text("1. 사용자 활동 지표")], TableHead, [Text("전체 상담 수"), Num(e.total), Dash]];
    rows' := PushOptional(rows', "일일 업로드 수", e.daily, Num(k.targets.daily));
    rows' := PushOptional(rows', "주간 업로드 수", e.weekly, Num(k.targets.weekly));
    rows' := PushOptional(rows', "월간 업로드 수", e.monthly, Num(k.targets.monthly));
    rows' := PushOptional(rows', "일일 활성 사용자 (DAU)", e.dau, Dash);
    rows' := PushOptional(rows', "주간 활성 사용자 (WAU)", e.wau, Dash);
    rows' := PushOptional(rows', "재방문율 (%)", e.returnRate, Text("40"));
    rows' := rows' + [[Text("파일 타입별 분포")]];
    rows' := PushFileTypes(rows', e.distribution, e.counts, show);
    rows' := rows' + [[]];
  }

  method PushPerformance(rows: seq<Row>, k: KpiReport) returns (rows': seq<Row>)
    ensures rows' == PerformanceRows(rows, k)
  {
    var p := k.performance;
    rows' := rows + [[Text("2. 시스템 성능 지표")], TableHead,
                     [Text("분석 성공률 (%)"), Num(p.successRate), Num(k.targets.successRate)],
                     [Text("분석 실패율 (%)"), Num(p.failureRate), Num(k.targets.failureRate)],
                     [Text("완료된 분석 수"), Num(p.completed), Dash],
                     [Text("실패한 분석 수"), Num(p.failed), Dash]];
    rows' := PushOptional(rows', "평균 처리 시간 (초)", p.avgTime, Dash);
    rows' := PushTimesByType(rows', p.avgTimeByType.GetOr([]));
    rows' := rows' + [[]];
  }

  /** `exportToExcel`: nothing without data, else every row in order. */
  method ExportToExcel(kpi: Option<KpiReport>, period: string, generatedAt: string, show: real -> string)
    returns (sheet: Option<seq<Row>>)
    ensures kpi.None? ==> sheet.None?
    ensures kpi.Some? ==> sheet == Some(SheetRows(kpi.value, period, generatedAt, show))
  {
    if kpi.None? {
      return None;
    }
    var k := kpi.value;
    var rows: seq<Row> := [[Text("고객 상담 코칭 시스템 KPI 리포트")], [Text("생성일시"), Text(generatedAt)],
                           [Text("기간"), Text(PeriodLabelKo(period))]];
    var from := k.dateRange.from;
    var to := k.dateRange.to;
    rows := PushWhen(rows, Truthy(from), [Text("시작일"), Text(from.GetOr(""))]);
    rows := PushWhen(rows, Truthy(to), [Text("종료일"), Text(to.GetOr(""))]);
    rows := rows + [[]];
    assert rows == HeaderRows(period, generatedAt, k.dateRange);
    rows := PushEngagement(rows, k, show);
    rows := PushPerformance(rows, k);

    var q := k.quality;
    rows := rows + [[Text("3. AI 분석 품질 지표")], TableHead];
    rows := PushOptional(rows, "평균 분석 결과 길이 (자)", q.avgLength, Text("500-2000"));
    rows := rows + [[Text("분석 항목 커버리지 (%)"), Num(q.coverage), Num(k.targets.coverage)],
                    [Text("완료된 분석 수"), Num(q.completed), Dash], []];

    var t := k.technical;
    rows := rows + [[Text("4. 기술적 지표")], TableHead];
    rows := PushOptional(rows, "데이터베이스 크기 (MB)", t.dbSize, Text("100"));
    rows := rows + [[Text("Supabase 업로드 성공률 (%)"), Num(t.supabaseRate), Text("95")],
                    [Text("총 파일 수"), Num(t.totalFiles), Dash]];
    return Some(rows);
  }

  /** The label of a row: its first cell's text, or nothing. */
  function Label(row: Row): string {
    if |row| > 0 && row[0].Text? then row[0].s else ""
  }

  function Labels(rows: seq<Row>): (ls: seq<string>)
    ensures |ls| == |rows|
    ensures forall i :: 0 <= i < |rows| ==> ls[i] == Label(rows[i])
  {
    seq(|rows|, i requires 0 <= i < |rows| => Label(rows[i]))
  }

  lemma LabelsAppend(a: seq<Row>, b: seq<Row>)
    ensures Labels(a + b) == Labels(a) + Labels(b)
  {
    forall i | 0 <= i < |a + b|
      ensures Labels(a + b)[i] == (Labels(a) + Labels(b))[i]
    {
      if i >= |a| {
        assert (a + b)[i] == b[i - |a|];
      }
    }
  }

  /** An optional metric contributes its label exactly when it is not null. */
  lemma OptionalLabel(name: string, value: Option<real>, target: Cell)
    ensures Labels(OptionalRow(name, value, target)) == if value.Some? then [name] else []
  {
    if value.Some? {
      assert Labels([[Text(name), Num(value.value), target]])[0] == name;
    }
  }

  /** The k-th file-type row shows the k-th entry, labelled with the type
      indented by two spaces, with its count, 0 when the count is missing. */
  lemma {:induction false} FileTypeRowsAre(dist: seq<(string, real)>, counts: map<string, nat>, show: real -> string, i: nat)
    requires i < |dist|
    ensures FileTypeRows(dist, counts, show)[i] ==
            [Text("  " + dist[i].0),
             Text(show(dist[i].1) + "% (" + DecimalString(if dist[i].0 in counts then counts[dist[i].0] else 0) + "건)"),
             Text("-")]
    ensures dist[i].0 !in counts ==> FileTypeRows(dist, counts, show)[i][1] ==
                                     Text(show(dist[i].1) + "% (0건)")
    decreases |dist|
  {
    if i < |dist| - 1 {
      FileTypeRowsAre(dist[..|dist| - 1], counts, show, i);
      assert dist[..|dist| - 1][i] == dist[i];
    }
    assert DecimalString(0) == "0";
  }

  /** The engagement section: its fixed labels, each optional metric exactly
      when it is not null, in source order, then one row per file type. */
  lemma EngagementLabels(acc: seq<Row>, k: KpiReport, show: real -> string)
    ensures var e := k.engagement;
            Labels(EngagementRows(acc, k, show)) ==
              Labels(acc) + ["1. 사용자 활동 지표", "지표", "전체 상담 수"]
              + (if e.daily.Some? then ["일일 업로드 수"] else [])
              + (if e.weekly.Some? then ["주간 업로드 수"] else [])
              + (if e.monthly.Some? then ["월간 업로드 수"] else [])
              + (if e.dau.Some? then ["일일 활성 사용자 (DAU)"] else [])
              + (if e.wau.Some? then ["주간 활성 사용자 (WAU)"] else [])
              + (if e.returnRate.Some? then ["재방문율 (%)"] else [])
              + ["파일 타입별 분포"]
              + Labels(FileTypeRows(e.distribution, e.counts, show))
              + [""]
  {
    var e := k.engagement;
    var e0: seq<Row> := [[Text("1. 사용자 활동 지표")], TableHead, [Text("전체 상담 수"), Num(e.total), Dash]];
    var o1 := OptionalRow("일일 업로드 수", e.daily, Num(k.targets.daily));
    var o2 := OptionalRow("주간 업로드 수", e.weekly, Num(k.targets.weekly));
    var o3 := OptionalRow("월간 업로드 수", e.monthly, Num(k.targets.monthly));
    var o4 := OptionalRow("일일 활성 사용자 (DAU)", e.dau, Dash);
    var o5 := OptionalRow("주간 활성 사용자 (WAU)", e.wau, Dash);
    var o6 := OptionalRow("재방문율 (%)", e.returnRate, Text("40"));
    var fr := FileTypeRows(e.distribution, e.counts, show);
    var s0 := acc + e0;
    var s6 := s0 + o1 + o2 + o3 + o4 + o5 + o6;
    LabelsAppend(s6 + [[Text("파일 타입별 분포")]] + fr, [[]]);
    LabelsAppend(s6 + [[Text("파일 타입별 분포")]], fr);
    LabelsAppend(s6, [[Text("파일 타입별 분포")]]);
    LabelsAppend(s0 + o1 + o2 + o3 + o4 + o5, o6);
    LabelsAppend(s0 + o1 + o2 + o3 + o4, o5);
    LabelsAppend(s0 + o1 + o2 + o3, o4);
    LabelsAppend(s0 + o1 + o2, o3);
    LabelsAppend(s0 + o1, o2);
    LabelsAppend(s0, o1);
    LabelsAppend(acc, e0);
    OptionalLabel("일일 업로드 수", e.daily, Num(k.targets.daily));
    OptionalLabel("주간 업로드 수", e.weekly, Num(k.targets.weekly));
    OptionalLabel("월간 업로드 수", e.monthly, Num(k.targets.monthly));
    OptionalLabel("일일 활성 사용자 (DAU)", e.dau, Dash);
    OptionalLabel("주간 활성 사용자 (WAU)", e.wau, Dash);
    OptionalLabel("재방문율 (%)", e.returnRate, Text("40"));
    assert Labels(e0) == ["1. 사용자 활동 지표", "지표", "전체 상담 수"];
    assert Labels([[Text("파일 타입별 분포")]]) == ["파일 타입별 분포"];
    assert Labels([[]]) == [""];
  }

  /** The other sections: an optional row's label is there exactly when its
      value is not null. */
  lemma PerformanceLabels(acc: seq<Row>, k: KpiReport)
    ensures Labels(PerformanceRows(acc, k)) ==
              Labels(acc) + ["2. 시스템 성능 지표", "지표", "분석 성공률 (%)", "분석 실패율 (%)", "완료된 분석 수", "실패한 분석 수"]
              + (if k.performance.avgTime.Some? then ["평균 처리 시간 (초)"] else [])
              + Labels(TimeByTypeRows(k.performance.avgTimeByType.GetOr([])))
              + [""]
  {
    var p := k.performance;
    var p0: seq<Row> := [[Text("2. 시스템 성능 지표")], TableHead,
      [Text("분석 성공률 (%)"), Num(p.successRate), Num(k.targets.successRate)],
      [Text("분석 실패율 (%)"), Num(p.failureRate), Num(k.targets.failureRate)],
      [Text("완료된 분석 수"), Num(p.completed), Dash],
      [Text("실패한 분석 수"), Num(p.failed), Dash]];
    var pa := OptionalRow("평균 처리 시간 (초)", p.avgTime, Dash);
    var bt := TimeByTypeRows(p.avgTimeByType.GetOr([]));
    LabelsAppend(acc + p0 + pa + bt, [[]]);
    LabelsAppend(acc + p0 + pa, bt);
    LabelsAppend(acc + p0, pa);
    LabelsAppend(acc, p0);
    OptionalLabel("평균 처리 시간 (초)", p.avgTime, Dash);
    assert Labels(p0) == ["2. 시스템 성능 지표", "지표", "분석 성공률 (%)", "분석 실패율 (%)", "완료된 분석 수", "실패한 분석 수"];
    assert Labels([[]]) == [""];
  }

  lemma QualityLabels(acc: seq<Row>, k: KpiReport)
    ensures Labels(QualityRows(acc, k)) ==
              Labels(acc) + ["3. AI 분석 품질 지표", "지표"]
              + (if k.quality.avgLength.Some? then ["평균 분석 결과 길이 (자)"] else [])
              + ["분석 항목 커버리지 (%)", "완료된 분석 수", ""]
  {
    var q0: seq<Row> := [[Text("3. AI 분석 품질 지표")], TableHead];
    var qa := OptionalRow("평균 분석 결과 길이 (자)", k.quality.avgLength, Text("500-2000"));
    var q1: seq<Row> := [[Text("분석 항목 커버리지 (%)"), Num(k.quality.coverage), Num(k.targets.coverage)],
                         [Text("완료된 분석 수"), Num(k.quality.completed), Dash], []];
    LabelsAppend(acc + q0 + qa, q1);
    LabelsAppend(acc + q0, qa);
    LabelsAppend(acc, q0);
    OptionalLabel("평균 분석 결과 길이 (자)", k.quality.avgLength, Text("500-2000"));
    assert Labels(q0) == ["3. AI 분석 품질 지표", "지표"];
    assert Labels(q1) == ["분석 항목 커버리지 (%)", "완료된 분석 수", ""];
  }

  lemma TechnicalLabels(acc: seq<Row>, k: KpiReport)
    ensures Labels(TechnicalRows(acc, k)) ==
              Labels(acc) + ["4. 기술적 지표", "지표"]
              + (if k.technical.dbSize.Some? then ["데이터베이스 크기 (MB)"] else [])
              + ["Supabase 업로드 성공률 (%)", "총 파일 수"]
  {
    var t0: seq<Row> := [[Text("4. 기술적 지표")], TableHead];
    var ta := OptionalRow("데이터베이스 크기 (MB)", k.technical.dbSize, Text("100"));
    var t1: seq<Row> := [[Text("Supabase 업로드 성공률 (%)"), Num(k.technical.supabaseRate), Text("95")],
                         [Text("총 파일 수"), Num(k.technical.totalFiles), Dash]];
    LabelsAppend(acc + t0 + ta, t1);
    LabelsAppend(acc + t0, ta);
    LabelsAppend(acc, t0);
    OptionalLabel("데이터베이스 크기 (MB)", k.technical.dbSize, Text("100"));
    assert Labels(t0) == ["4. 기술적 지표", "지표"];
    assert Labels(t1) == ["Supabase 업로드 성공률 (%)", "총 파일 수"];
  }

  /** The header: start and end dates are listed only when they are set. */
  lemma HeaderLabels(period: string, generatedAt: string, range: DateRange)
    ensures Labels(HeaderRows(period, generatedAt, range)) ==
              ["고객 상담 코칭 시스템 KPI 리포트", "생성일시", "기간"]
              + (if Truthy(range.from) then ["시작일"] else [])
              + (if Truthy(range.to) then ["종료일"] else [])
              + [""]
  {
    var h0: seq<Row> := [[Text("고객 상담 코칭 시스템 KPI 리포트")], [Text("생성일시"), Text(generatedAt)],
                         [Text("기간"), Text(PeriodLabelKo(period))]];
    var hf: seq<Row> := if Truthy(range.from) then [[Text("시작일"), Text(range.from.value)]] else [];
    var ht: seq<Row> := if Truthy(range.to) then [[Text("종료일"), Text(range.to.value)]] else [];
    LabelsAppend(h0 + hf + ht, [[]]);
    LabelsAppend(h0 + hf, ht);
    LabelsAppend(h0, hf);
    assert Labels(h0) == ["고객 상담 코칭 시스템 KPI 리포트", "생성일시", "기간"];
    assert Labels([[]]) == [""];
  }
}
