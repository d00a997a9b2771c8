/**
 * The request half of the HTTP-request workflow instruction: the content-type
 * transformers and `request(config)`, modelled as a function that builds the
 * descriptor handed to the HTTP client and never sends it.
 */
module RequestDescriptor {
  import opened Common

  /** One `{name, value}` entry of the configured `headers` or `params` list. */
  datatype NameValue = NameValue(name: string, value: string)

  /** One `{name, value}` entry of a form body; `value` is None when it is `undefined`. */
  datatype FormEntry = FormEntry(name: string, value: Option<string>)

  /**
   * The configured `data`. `Undefined` and `Null` are the two nullish values,
   * `FormList` any array (its elements taken as `{name, value}` records, the
   * empty array included), and `Opaque` any other value that is not an array.
   */
  datatype Payload = Undefined | Null | FormList(entries: seq<FormEntry>) | Opaque(json: string)

  /** The node configuration after variable resolution; None stands for an absent (`undefined`) field. */
  datatype RequestConfig = RequestConfig(
    url: Option<string>,
    httpMethod: Option<string>,
    contentType: Option<string>,
    headers: Option<seq<NameValue>>,
    params: Option<seq<NameValue>>,
    data: Payload,
    timeout: Option<int>,
    ignoreFail: bool)

  /** A transformed body: the JSON data itself, or the name/value pairs that `URLSearchParams` serialises. */
  datatype Body = JsonBody(data: Payload) | FormBody(pairs: seq<(string, string)>)

  /** What `request` passes to the HTTP client. */
  datatype Descriptor = Descriptor(
    url: Option<string>,
    httpMethod: string,
    headers: map<string, string>,
    params: map<string, string>,
    timeout: int,
    body: Option<Body>)

  /**
   * Why `request` rejects before anything is sent: no transformer for the
   * content type, or form data that is not an array (`data.filter` is not a function).
   */
  datatype RequestError = UnsupportedContentType(contentType: string) | FormDataNotList

  const JSON_TYPE := "application/json"
  const FORM_TYPE := "application/x-www-form-urlencoded"
  const CONTENT_TYPE_HEADER := "Content-Type"
  const DEFAULT_METHOD := "POST"
  const DEFAULT_TIMEOUT := 5000

  /** A header name that the fold drops: it lower-cases to `content-type`. */
  predicate IsContentTypeName(name: string) {
    Lower(name) == "content-type"
  }

  /** `data != null`: neither `null` nor `undefined`. */
  predicate IsNullish(data: Payload) {
    data.Undefined? || data.Null?
  }

  // ---------------------------------------------------------------------------
  // Header and parameter folding
  // ---------------------------------------------------------------------------

  /**
   * `entries.reduce((result, e) => skip(e.name) ? result : Object.assign(result, {[e.name]: e.value}), {})`:
   * a left fold into an initially empty object.
   */
  function Fold(entries: seq<NameValue>, skip: string -> bool): map<string, string>
  {
    if entries == [] then map[]
    else
      var acc := Fold(entries[..|entries| - 1], skip);
      var e := entries[|entries| - 1];
      if skip(e.name) then acc else acc[e.name := e.value]
  }

  /** The header fold: a header whose name lower-cases to `content-type` is skipped. */
  function FoldHeaders(headers: seq<NameValue>): map<string, string> {
    Fold(headers, IsContentTypeName)
  }

  /** No parameter name is skipped. */
  predicate NeverSkipped(name: string) {
    false
  }

  /** The parameter fold: nothing is skipped. */
  function FoldParams(params: seq<NameValue>): map<string, string> {
    Fold(params, NeverSkipped)
  }

  /** Entry `i` is the last one of `entries` with its name. */
  ghost predicate IsLastWithName(entries: seq<NameValue>, i: int)
    requires 0 <= i < |entries|
  {
    forall j :: i < j < |entries| ==> entries[j].name != entries[i].name
  }

  /** Some entry has name `k`. */
  ghost predicate HasName(entries: seq<NameValue>, k: string) {
    exists i :: 0 <= i < |entries| && entries[i].name == k
  }

  lemma HasNameSnoc(entries: seq<NameValue>, k: string)
    requires entries != []
    ensures HasName(entries, k) <==>
      HasName(entries[..|entries| - 1], k) || entries[|entries| - 1].name == k
  {
    var n := |entries| - 1;
    if HasName(entries, k) && entries[n].name != k {
      var i :| 0 <= i < |entries| && entries[i].name == k;
      assert entries[..n][i].name == k;
    }
    if HasName(entries[..n], k) {
      var i :| 0 <= i < n && entries[..n][i].name == k;
      assert entries[i].name == k;
    }
  }

  /**
   * Last write wins: a name is a key of the folded object exactly when some
   * entry with that name is not skipped, and its value is that of the last such entry.
   */
  lemma {:induction false} FoldLastWriteWins(entries: seq<NameValue>, skip: string -> bool)
    ensures forall k :: k in Fold(entries, skip) <==> !skip(k) && HasName(entries, k)
    ensures forall i :: 0 <= i < |entries| && !skip(entries[i].name) && IsLastWithName(entries, i) ==>
      entries[i].name in Fold(entries, skip) && Fold(entries, skip)[entries[i].name] == entries[i].value
  {
    FoldKeys(entries, skip);
    FoldValues(entries, skip);
  }

  lemma {:induction false} FoldKeys(entries: seq<NameValue>, skip: string -> bool)
    ensures forall k :: k in Fold(entries, skip) <==> !skip(k) && HasName(entries, k)
  {
    if entries != [] {
      var n := |entries| - 1;
      FoldKeys(entries[..n], skip);
      forall k
        ensures k in Fold(entries, skip) <==> !skip(k) && HasName(entries, k)
      {
        HasNameSnoc(entries, k);
      }
    }
  }

  lemma {:induction false} FoldValues(entries: seq<NameValue>, skip: string -> bool)
    ensures forall i :: 0 <= i < |entries| && !skip(entries[i].name) && IsLastWithName(entries, i) ==>
      entries[i].name in Fold(entries, skip) && Fold(entries, skip)[entries[i].name] == entries[i].value
  {
    if entries != [] {
      var n := |entries| - 1;
      var init := entries[..n];
      FoldValues(init, skip);
      forall i | 0 <= i < |entries| && !skip(entries[i].name) && IsLastWithName(entries, i)
        ensures entries[i].name in Fold(entries, skip) && Fold(entries, skip)[entries[i].name] == entries[i].value
      {
        if i < n {
          assert entries[n].name != entries[i].name;
          assert init[i] == entries[i];
          assert IsLastWithName(init, i);
        }
      }
    }
  }

  // ---------------------------------------------------------------------------
  // Content-type transformers
  // ---------------------------------------------------------------------------

  /** The pair one form entry contributes: none unless its name is non-empty and its value defined. */
  function FormPair(e: FormEntry): seq<(string, string)> {
    if e.name != "" && e.value.Some? then [(e.name, e.value.value)] else []
  }

  /**
   * The form transformer's pair list: the entries whose name is non-empty and
   * whose value is defined, each as a `[name, value]` pair, in entry order.
   */
  function FormPairs(entries: seq<FormEntry>): (pairs: seq<(string, string)>)
    ensures |pairs| <= |entries|
    ensures forall p :: p in pairs ==> p.0 != ""
  {
    if entries == [] then [] else FormPair(entries[0]) + FormPairs(entries[1..])
  }

  /** Filtering keeps the original order and duplicates: it distributes over concatenation. */
  lemma {:induction false} FormPairsAppend(a: seq<FormEntry>, b: seq<FormEntry>)
    ensures FormPairs(a + b) == FormPairs(a) + FormPairs(b)
  {
    if a == [] {
      assert a + b == b;
    } else {
      assert (a + b)[0] == a[0];
      assert (a + b)[1..] == a[1..] + b;
      FormPairsAppend(a[1..], b);
    }
  }

  /** A pair is serialised exactly when some entry has that non-empty name and that defined value. */
  lemma {:induction false} FormPairsMembership(entries: seq<FormEntry>, name: string, value: string)
    ensures (name, value) in FormPairs(entries) <==>
      name != "" && exists i :: 0 <= i < |entries| && entries[i] == FormEntry(name, Some(value))
  {
    if entries != [] {
      FormPairsMembership(entries[1..], name, value);
      if exists i :: 0 <= i < |entries| && entries[i] == FormEntry(name, Some(value)) {
        var i :| 0 <= i < |entries| && entries[i] == FormEntry(name, Some(value));
        if i > 0 {
          assert entries[1..][i - 1] == entries[i];
        }
      }
      if exists i :: 0 <= i < |entries[1..]| && entries[1..][i] == FormEntry(name, Some(value)) {
        var i :| 0 <= i < |entries[1..]| && entries[1..][i] == FormEntry(name, Some(value));
        assert entries[i + 1] == FormEntry(name, Some(value));
      }
    }
  }

  /** `ContentTypeTransformers[contentType](data)`; a content type with no transformer rejects. */
  function Transform(contentType: string, data: Payload): (r: Result<Body, RequestError>)
    ensures r.Err? <==> !(contentType == JSON_TYPE || (contentType == FORM_TYPE && data.FormList?))
    ensures r.Err? ==> (r.error == FormDataNotList <==> contentType == FORM_TYPE)
    ensures r.Err? && contentType != FORM_TYPE ==> r.error == UnsupportedContentType(contentType)
    ensures r.Ok? && contentType == JSON_TYPE ==> r.value == JsonBody(data)
    ensures r.Ok? && contentType == FORM_TYPE ==> r.value == FormBody(FormPairs(data.entries))
    ensures r.Ok? && contentType == FORM_TYPE ==> |r.value.pairs| <= |data.entries|
  {
    if contentType == JSON_TYPE then Ok(JsonBody(data))
    else if contentType == FORM_TYPE then
      if data.FormList? then Ok(FormBody(FormPairs(data.entries))) else Err(FormDataNotList)
    else Err(UnsupportedContentType(contentType))
  }

  // ---------------------------------------------------------------------------
  // request(config)
  // ---------------------------------------------------------------------------

  /** A body is attached when the method is not GET (in any letter case) and `data` is not nullish. */
  predicate CarriesBody(httpMethod: string, data: Payload) {
    Lower(httpMethod) != "get" && !IsNullish(data)
  }

  /**
   * `request(config)` up to the point where the HTTP client would be called.
   * It rejects only when a body is due and its transformer rejects; otherwise
   * the descriptor has the defaulted method and timeout, the effective
   * content type as `Content-Type`, and a body exactly when one is due.
   */
  function Request(config: RequestConfig): (r: Result<Descriptor, RequestError>)
    ensures var carries := CarriesBody(config.httpMethod.GetOr(DEFAULT_METHOD), config.data);
      var transformed := Transform(EffectiveContentType(config), config.data);
      && (r.Err? <==> carries && transformed.Err?)
      && (r.Err? ==> transformed == Err(r.error))
      && (r.Ok? ==>
            && r.value.url == config.url
            && r.value.httpMethod == config.httpMethod.GetOr(DEFAULT_METHOD)
            && r.value.timeout == config.timeout.GetOr(DEFAULT_TIMEOUT)
            && CONTENT_TYPE_HEADER in r.value.headers
            && r.value.headers[CONTENT_TYPE_HEADER] == EffectiveContentType(config)
            && (r.value.body.Some? <==> carries)
            && (carries ==> transformed == Ok(r.value.body.value)))
  {
    var httpMethod := config.httpMethod.GetOr(DEFAULT_METHOD);
    var contentType := config.contentType.GetOr(JSON_TYPE);
    var timeout := config.timeout.GetOr(DEFAULT_TIMEOUT);
    var headers := FoldHeaders(config.headers.GetOr([]))[CONTENT_TYPE_HEADER := contentType];
    var params := FoldParams(config.params.GetOr([]));
    if CarriesBody(httpMethod, config.data) then
      match Transform(contentType, config.data)
      case Err(e) => Err(e)
      case Ok(body) => Ok(Descriptor(config.url, httpMethod, headers, params, timeout, Some(body)))
    else
      Ok(Descriptor(config.url, httpMethod, headers, params, timeout, None))
  }

  /** The effective content type: the configured one, `application/json` when absent. */
  function EffectiveContentType(config: RequestConfig): string {
    config.contentType.GetOr(JSON_TYPE)
  }

  /**
   * Header folding: the descriptor's `Content-Type` is the effective content
   * type, no other key lower-cases to `content-type`, every other key comes from
   * a configured header, and its value is that of the last header with that name.
   */
  lemma RequestHeaders(config: RequestConfig)
    ensures Request(config).Ok? ==>
      var headers := Request(config).value.headers;
      var configured := config.headers.GetOr([]);
      && CONTENT_TYPE_HEADER in headers
      && headers[CONTENT_TYPE_HEADER] == EffectiveContentType(config)
      && (forall k :: k in headers && IsContentTypeName(k) ==> k == CONTENT_TYPE_HEADER)
      && (forall k :: k in headers && k != CONTENT_TYPE_HEADER ==> HasName(configured, k))
      && (forall i :: 0 <= i < |configured| && !IsContentTypeName(configured[i].name) && IsLastWithName(configured, i) ==>
            configured[i].name in headers && headers[configured[i].name] == configured[i].value)
  {
    if Request(config).Ok? {
      var configured := config.headers.GetOr([]);
      var folded := FoldHeaders(configured);
      var headers := Request(config).value.headers;
      assert headers == folded[CONTENT_TYPE_HEADER := EffectiveContentType(config)];
      FoldLastWriteWins(configured, IsContentTypeName);
      assert IsContentTypeName(CONTENT_TYPE_HEADER) by {
        assert Lower(CONTENT_TYPE_HEADER) == "content-type";
      }
    }
  }

  /**
   * Parameter folding: the keys are exactly the configured parameter names and
   * each value is that of the last parameter with that name.
   */
  lemma RequestParams(config: RequestConfig)
    ensures Request(config).Ok? ==>
      var params := Request(config).value.params;
      var configured := config.params.GetOr([]);
      && (forall k :: k in params <==> HasName(configured, k))
      && (forall i :: 0 <= i < |configured| && IsLastWithName(configured, i) ==>
            params[configured[i].name] == configured[i].value)
  {
    FoldLastWriteWins(config.params.GetOr([]), NeverSkipped);
  }

  /** Defaults: an absent method, content type, timeout, header list and parameter list. */
  lemma RequestDefaults(config: RequestConfig)
    requires config.httpMethod.None? && config.contentType.None? && config.timeout.None?
    requires config.headers.None? && config.params.None?
    ensures Request(config) == Ok(Descriptor(
      config.url, "POST", map["Content-Type" := "application/json"], map[], 5000,
      if IsNullish(config.data) then None else Some(JsonBody(config.data))))
  {
  }

  /**
   * Body inclusion: the request rejects only when a body is due and its
   * transformer fails; a body is attached exactly when it is due; JSON data is
   * passed unchanged and form data becomes its filtered pair list.
   */
  lemma RequestBody(config: RequestConfig)
    ensures var httpMethod := config.httpMethod.GetOr(DEFAULT_METHOD);
      var contentType := EffectiveContentType(config);
      && (Request(config).Ok? ==> (Request(config).value.body.Some? <==> CarriesBody(httpMethod, config.data)))
      && (!CarriesBody(httpMethod, config.data) ==> Request(config).Ok?)
      && (CarriesBody(httpMethod, config.data) && contentType == JSON_TYPE ==>
            Request(config).Ok? && Request(config).value.body == Some(JsonBody(config.data)))
      && (CarriesBody(httpMethod, config.data) && contentType == FORM_TYPE ==>
            if config.data.FormList?
            then Request(config).Ok? && Request(config).value.body == Some(FormBody(FormPairs(config.data.entries)))
            else Request(config) == Err(FormDataNotList))
      && (CarriesBody(httpMethod, config.data) && contentType != JSON_TYPE && contentType != FORM_TYPE ==>
            Request(config) == Err(UnsupportedContentType(contentType)))
  {
  }

  /** A GET request (in any letter case) never carries a body and never rejects, whatever its content type. */
  lemma GetNeverCarriesBody(config: RequestConfig)
    requires Lower(config.httpMethod.GetOr(DEFAULT_METHOD)) == "get"
    ensures Request(config).Ok? && Request(config).value.body.None?
  {
  }
}
