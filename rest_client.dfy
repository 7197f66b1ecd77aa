/** The REST helpers of frontend/src/api.js: base-URL choice, the bearer header,
    the query string of the consultation list, and the `detail || message ||
    default` normalisation of error bodies. Browser state (environment variable,
    `window.location`, `localStorage`) is passed in explicitly. */
module RestClient {
  import opened Wrappers
  import opened TextUtil

  /** JavaScript truthiness of an optional string: present and non-empty. */
  predicate Truthy(s: Option<string>) {
    s.Some? && s.value != ""
  }

  /** The parts of `window.location` the base URL depends on. */
  datatype Location = Location(hostname: string, protocol: string)

  const ProxyBase: string := "/api"
  const LocalBase: string := "http://localhost:8000/api"

  /** `getApiBaseUrl`: a non-empty `REACT_APP_API_URL` wins; in a browser on a
      Vercel host or over HTTPS the `/api` proxy is used; otherwise the local
      development server. */
  function ApiBaseUrl(envUrl: Option<string>, window: Option<Location>): (url: string)
    ensures Truthy(envUrl) ==> url == envUrl.value
    ensures !Truthy(envUrl) ==> url == ProxyBase || url == LocalBase
    ensures !Truthy(envUrl) ==>
              (url == ProxyBase <==>
                 window.Some? &&
                 (Contains(window.value.hostname, "vercel.app") ||
                  Contains(window.value.hostname, "vercel.com") ||
                  window.value.protocol == "https:"))
  {
    if Truthy(envUrl) then envUrl.value
    else if window.Some? && (Contains(window.value.hostname, "vercel.app") || Contains(window.value.hostname, "vercel.com")) then ProxyBase
    else if window.Some? && window.value.protocol == "https:" then ProxyBase
    else LocalBase
  }

  /** `getAuthHeaders` (and the same inline code in the request helpers): an
      `Authorization: Bearer <token>` header exactly when a non-empty token is
      stored, and no header at all otherwise. */
  function AuthHeaders(token: Option<string>): (headers: map<string, string>)
    ensures "Authorization" in headers <==> Truthy(token)
    ensures "Authorization" in headers ==> headers["Authorization"] == "Bearer " + token.value
    ensures headers.Keys <= {"Authorization"}
  {
    if Truthy(token) then map["Authorization" := "Bearer " + token.value] else map[]
  }

  /** The stream and download requests interpolate the token unconditionally:
      with no token stored the header reads `Bearer null`. */
  function StreamAuthHeaders(token: Option<string>): (headers: map<string, string>)
    ensures headers.Keys == {"Authorization"}
    ensures token.Some? ==> headers["Authorization"] == "Bearer " + token.value
    ensures token.None? ==> headers["Authorization"] == "Bearer null"
  {
    map["Authorization" := "Bearer " + (if token.Some? then token.value else "null")]
  }

  /** One query parameter, as appended to a `URLSearchParams`. */
  type Param = (string, string)

  /** A parameter as the filter keeps it: itself when its value is truthy,
      nothing otherwise. */
  function Kept(p: Param): seq<Param> {
    if p.1 != "" then [p] else []
  }

  /** The parameters whose value is truthy, in their original order. */
  function Present(fields: seq<Param>): (params: seq<Param>)
    ensures |params| <= |fields|
  {
    if fields == [] then []
    else if fields[0].1 != "" then [fields[0]] + Present(fields[1..])
    else Present(fields[1..])
  }

  /** A parameter survives the filter exactly when it is one of the inputs and
      its value is non-empty. */
  lemma {:induction false} PresentMembers(fields: seq<Param>, p: Param)
    ensures p in Present(fields) <==> p in fields && p.1 != ""
    decreases |fields|
  {
    if fields != [] {
      PresentMembers(fields[1..], p);
      assert fields == [fields[0]] + fields[1..];
    }
  }

  /** Present keeps the relative order: it is a subsequence of its input. */
  lemma {:induction false} PresentKeepsOrder(fields: seq<Param>, i: nat, j: nat)
    requires i < j < |Present(fields)|
    ensures exists a, b :: 0 <= a < b < |fields| && fields[a] == Present(fields)[i] && fields[b] == Present(fields)[j]
    decreases |fields|
  {
    var params := Present(fields);
    if fields[0].1 != "" {
      if i == 0 {
        var rest := Present(fields[1..]);
        assert params[j] == rest[j - 1];
        PresentMembers(fields[1..], rest[j - 1]);
        var b :| 0 <= b < |fields[1..]| && fields[1..][b] == rest[j - 1];
        assert fields[0] == params[0] && fields[b + 1] == params[j];
      } else {
        PresentKeepsOrder(fields[1..], i - 1, j - 1);
        var a, b :| 0 <= a < b < |fields[1..]| && fields[1..][a] == Present(fields[1..])[i - 1] && fields[1..][b] == Present(fields[1..])[j - 1];
        assert fields[a + 1] == params[i] && fields[b + 1] == params[j];
      }
    } else {
      PresentKeepsOrder(fields[1..], i, j);
      var a, b :| 0 <= a < b < |fields[1..]| && fields[1..][a] == params[i] && fields[1..][b] == params[j];
      assert fields[a + 1] == params[i] && fields[b + 1] == params[j];
    }
  }

  /** `URLSearchParams.toString()`: `key=value` pairs joined by `&`, each side
      passed through the form-urlencoding `encode`. */
  function Serialize(params: seq<Param>, encode: string -> string): (q: string)
    ensures q == [] <==> params == []
  {
    if params == [] then []
    else
      var pair := encode(params[0].0) + "=" + encode(params[0].1);
      if |params| == 1 then pair else pair + "&" + Serialize(params[1..], encode)
  }

  /** The part after the path: `?` plus the query, or nothing for an empty query. */
  function QuerySuffix(params: seq<Param>, encode: string -> string): (suffix: string)
    ensures params == [] ==> suffix == []
    ensures params != [] ==> suffix == "?" + Serialize(params, encode) && |suffix| > 1
  {
    var q := Serialize(params, encode);
    if q != [] then "?" + q else []
  }

  /** The list filters; an empty string is an absent filter. */
  datatype ConsultationFilters = ConsultationFilters(
    title: string, status: string, fileType: string, dateFrom: string, dateTo: string)

  function FilterFields(f: ConsultationFilters): seq<Param> {
    [("title", f.title), ("status", f.status), ("file_type", f.fileType),
     ("date_from", f.dateFrom), ("date_to", f.dateTo)]
  }

  /** `if (value) queryParams.append(key, value)`. */
  method AppendIfPresent(params: seq<Param>, key: string, value: string) returns (params': seq<Param>)
    ensures params' == params + Kept((key, value))
  {
    params' := params;
    if value != "" {
      params' := params' + [(key, value)];
    }
  }

  /** `getConsultations`: append each truthy filter in turn, then build the URL. */
  method ConsultationsUrl(base: string, f: ConsultationFilters, encode: string -> string)
    returns (params: seq<Param>, url: string)
    ensures params == Present(FilterFields(f))
    ensures url == base + "/consultations/" + QuerySuffix(params, encode)
  {
    var fields := FilterFields(f);
    params := AppendIfPresent([], "title", f.title);
    assert params == Present(fields[..1]) by {
      PresentSnoc([], fields[0]);
      assert [] + [fields[0]] == fields[..1];
    }
    params := AppendIfPresent(params, "status", f.status);
    assert params == Present(fields[..2]) by {
      PresentSnoc(fields[..1], fields[1]);
      assert fields[..1] + [fields[1]] == fields[..2];
    }
    params := AppendIfPresent(params, "file_type", f.fileType);
    assert params == Present(fields[..3]) by {
      PresentSnoc(fields[..2], fields[2]);
      assert fields[..2] + [fields[2]] == fields[..3];
    }
    params := AppendIfPresent(params, "date_from", f.dateFrom);
    assert params == Present(fields[..4]) by {
      PresentSnoc(fields[..3], fields[3]);
      assert fields[..3] + [fields[3]] == fields[..4];
    }
    params := AppendIfPresent(params, "date_to", f.dateTo);
    assert params == Present(fields) by {
      PresentSnoc(fields[..4], fields[4]);
      assert fields[..4] + [fields[4]] == fields;
    }
    var q := Serialize(params, encode);
    url := base + "/consultations/" + (if q != [] then "?" + q else []);
  }

  /** Filtering distributes over concatenation. */
  lemma {:induction false} PresentAppend(a: seq<Param>, b: seq<Param>)
    ensures Present(a + b) == Present(a) + Present(b)
    decreases |a|
  {
    if a == [] {
      assert a + b == b;
    } else {
      assert (a + b)[1..] == a[1..] + b;
      PresentAppend(a[1..], b);
    }
  }

  /** One more parameter is kept at the end exactly when its value is truthy. */
  lemma PresentSnoc(fields: seq<Param>, p: Param)
    ensures Present(fields + [p]) == Present(fields) + Kept(p)
  {
    PresentAppend(fields, [p]);
    assert [p][1..] == [];
  }

  /** The list query is empty, and the URL carries no `?`, exactly when every
      filter is empty. */
  lemma NoFiltersNoQuery(f: ConsultationFilters)
    ensures (Present(FilterFields(f)) == []) <==>
            (f.title == "" && f.status == "" && f.fileType == "" && f.dateFrom == "" && f.dateTo == "")
  {
    var fields := FilterFields(f);
    PresentMembers(fields, ("title", f.title));
    PresentMembers(fields, ("status", f.status));
    PresentMembers(fields, ("file_type", f.fileType));
    PresentMembers(fields, ("date_from", f.dateFrom));
    PresentMembers(fields, ("date_to", f.dateTo));
    if Present(fields) != [] {
      PresentMembers(fields, Present(fields)[0]);
    }
  }

  /** A failed response's JSON body: unparsable (`{}` after the catch), or an
      object with optional `detail` and `message` strings. */
  datatype ErrorBody = Unparsable | Body(detail: Option<string>, message: Option<string>)

  /** `errorData.detail || errorData.message || fallback`. */
  function ErrorMessage(body: ErrorBody, fallback: string): (m: string)
    ensures body.Body? && Truthy(body.detail) ==> m == body.detail.value
    ensures body.Body? && !Truthy(body.detail) && Truthy(body.message) ==> m == body.message.value
    ensures (body.Unparsable? || (!Truthy(body.detail) && !Truthy(body.message))) ==> m == fallback
    ensures fallback != "" ==> m != ""
  {
    match body
    case Unparsable => fallback
    case Body(detail, message) =>
      if Truthy(detail) then detail.value
      else if Truthy(message) then message.value
      else fallback
  }

  /** The helpers that normalise error bodies, each with its own fallback text. */
  datatype Endpoint = Upload | List | Detail | Login | Register | CurrentUser

  function FallbackMessage(e: Endpoint): (m: string)
    ensures m != ""
  {
    match e
    case Upload => "업로드 실패"
    case List => "조회 실패"
    case Detail => "조회 실패"
    case Login => "로그인 실패"
    case Register => "회원가입 실패"
    case CurrentUser => "사용자 정보 조회 실패"
  }

  /** The message of the Error a non-ok response makes the helper throw. */
  function RequestFailure(e: Endpoint, body: ErrorBody): (m: string)
    ensures m != ""
    ensures body.Unparsable? ==> m == FallbackMessage(e)
  {
    ErrorMessage(body, FallbackMessage(e))
  }
}
