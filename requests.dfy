/**
 * Reading the caller's options: defaults, the header merge and the
 * payload encoding that decide what is sent.
 */
module Requests {
  import opened Wrappers
  import opened JsValues

  const ContentType := "Content-Type"
  const JsonMediaType := "application/json"
  const DefaultTimeout := 15000
  const DefaultRetryDelay := 1000
  const UrlRequired := "URL is required"

  /** A form element on the page; `new FormData(form)` yields its entries. */
  datatype FormElement = FormElement(entries: seq<(string, string)>)

  /** `options.data`: a FormData instance, or any other value (Undefined when absent). */
  datatype Data = FormData(entries: seq<(string, string)>) | Plain(value: Value)

  /**
   * The caller's options object. `url`, `verb` (the `method` option),
   * `retries` and `retryDelay` are None when absent; `headers` is empty
   * when absent; `form` is None unless it holds a form element; `cache`
   * and `loader` are Undefined when absent.
   */
  datatype Options = Options(
    url: Option<string>,
    verb: Option<string>,
    headers: map<string, string>,
    form: Option<FormElement>,
    data: Data,
    cache: Value,
    loader: Value,
    retries: Option<int>,
    retryDelay: Option<int>)

  /** The settings kept on the ajax function itself: `ajax.timeout` and `ajax.defaultHeaders`. */
  datatype Config = Config(timeout: Option<int>, defaultHeaders: map<string, string>)

  /** What is handed to the transport as the request body; a JSON text is represented by the value it serialises. */
  datatype Body = NoBody | Multipart(entries: seq<(string, string)>) | JsonText(value: Value)

  /** A request after its options were read; `url` is still unresolved. */
  datatype Request = Request(
    url: string,
    verb: string,
    headers: map<string, string>,
    body: Body,
    timeout: int,
    retries: int,
    retryDelay: int,
    useLoader: bool,
    useCache: bool)

  function UpperChar(c: char): (u: char)
  {
    if 'a' <= c <= 'z' then (c as int - 32) as char else c
  }

  /**
   * `toUpperCase` on ASCII letters: each lower-case letter becomes its
   * upper-case partner, 32 code points lower; every other character stays.
   */
  function Upper(s: string): (r: string)
    ensures |r| == |s|
    ensures forall i :: 0 <= i < |s| ==>
      ('a' <= s[i] <= 'z' ==> r[i] as int == s[i] as int - 32) && (!('a' <= s[i] <= 'z') ==> r[i] == s[i])
    ensures forall i :: 0 <= i < |r| ==> !('a' <= r[i] <= 'z')
  {
    seq(|s|, i requires 0 <= i < |s| => UpperChar(s[i]))
  }

  /** A lower-case method name is sent upper-cased, so "get" is the GET that caching looks for. */
  lemma ExampleUpper()
    ensures Upper("get") == "GET"
    ensures Upper("Post") == "POST"
  {
  }

  /** `x || d` for an optional string. */
  function StringOr(x: Option<string>, d: string): (r: string)
  {
    if x.Some? && x.value != "" then x.value else d
  }

  /** `x || d` for an optional number. */
  function NumberOr(x: Option<int>, d: int): (r: int)
  {
    if x.Some? && x.value != 0 then x.value else d
  }

  /**
   * `h` is the merge of `defaults` and `caller`, the caller winning on a
   * shared key, for every key other than `except`.
   */
  ghost predicate MergedExcept(h: map<string, string>, defaults: map<string, string>,
                               caller: map<string, string>, except: string)
  {
    && (forall k :: k != except ==> (k in h <==> k in defaults || k in caller))
    && (forall k :: k != except && k in caller ==> h[k] == caller[k])
    && (forall k :: k != except && k in defaults && k !in caller ==> h[k] == defaults[k])
  }

  /** The payload rules: a form goes as multipart without a Content-Type, other truthy data as JSON. */
  ghost predicate PayloadEncoded(q: Request, o: Options, merged: map<string, string>)
  {
    && (o.form.Some? ==>
          q.body == Multipart(o.form.value.entries) && ContentType !in q.headers)
    && (o.form.None? && o.data.FormData? ==>
          q.body == Multipart(o.data.entries) && ContentType !in q.headers)
    && (o.form.None? && o.data.Plain? && Truthy(o.data.value) ==>
          q.body == JsonText(o.data.value) && ContentType in q.headers && q.headers[ContentType] == JsonMediaType)
    && (o.form.None? && o.data.Plain? && !Truthy(o.data.value) ==>
          q.body == NoBody && q.headers == merged)
  }

  /**
   * The request that a call with `options` prepares: a missing options
   * object or a falsy URL is refused; otherwise the defaults are filled
   * in, the header maps merged and the payload encoded.
   */
  function Prepared(options: Option<Options>, config: Config): (r: Result<Request, string>)
    ensures r.Failure? <==> options.None? || options.value.url.None? || options.value.url.value == ""
    ensures r.Failure? ==> r.error == UrlRequired
    ensures r.Success? ==>
      var o, q := options.value, r.value;
      && q.url == o.url.value && q.url != ""
      && (o.verb.None? || o.verb.value == "" ==> q.verb == "GET")
      && (o.verb.Some? && o.verb.value != "" ==> q.verb == Upper(o.verb.value))
      && (config.timeout.None? || config.timeout.value == 0 ==> q.timeout == DefaultTimeout)
      && (config.timeout.Some? && config.timeout.value != 0 ==> q.timeout == config.timeout.value)
      && (o.retries.None? ==> q.retries == 0)
      && (o.retries.Some? ==> q.retries == o.retries.value)
      && (o.retryDelay.None? || o.retryDelay.value == 0 ==> q.retryDelay == DefaultRetryDelay)
      && (o.retryDelay.Some? && o.retryDelay.value != 0 ==> q.retryDelay == o.retryDelay.value)
      && (q.useLoader <==> o.loader != Bool(false))
      && (q.useCache <==> o.cache != Bool(false))
      && MergedExcept(q.headers, config.defaultHeaders, o.headers, ContentType)
      && PayloadEncoded(q, o, config.defaultHeaders + o.headers)
  {
    if options.None? || options.value.url.None? || options.value.url.value == "" then
      Failure(UrlRequired)
    else
      var o := options.value;
      var merged := config.defaultHeaders + o.headers;
      var body :=
        if o.form.Some? then Multipart(o.form.value.entries)
        else if o.data.FormData? then Multipart(o.data.entries)
        else if Truthy(o.data.value) then JsonText(o.data.value)
        else NoBody;
      var headers :=
        if body.Multipart? then merged - {ContentType}
        else if body.JsonText? then merged[ContentType := JsonMediaType]
        else merged;
      Success(Request(o.url.value, Upper(StringOr(o.verb, "GET")), headers, body,
                      NumberOr(config.timeout, DefaultTimeout), NumberOr(o.retries, 0),
                      NumberOr(o.retryDelay, DefaultRetryDelay),
                      o.loader != Bool(false), o.cache != Bool(false)))
  }

  /**
   * The option handling at the top of `ajax`, step by step: the header
   * object is built by merging and then edited by deleting or assigning
   * its Content-Type entry.
   */
  method Prepare(options: Option<Options>, config: Config) returns (r: Result<Request, string>)
    ensures r == Prepared(options, config)
  {
    if options.None? || options.value.url.None? || options.value.url.value == "" {
      return Failure(UrlRequired);
    }
    var o := options.value;
    var verb := Upper(if o.verb.Some? && o.verb.value != "" then o.verb.value else "GET");
    var timeout := if config.timeout.Some? && config.timeout.value != 0 then config.timeout.value else DefaultTimeout;
    var retries := if o.retries.Some? then o.retries.value else 0;
    var retryDelay := if o.retryDelay.Some? && o.retryDelay.value != 0 then o.retryDelay.value else DefaultRetryDelay;
    var useLoader := o.loader != Bool(false);

    var headers := config.defaultHeaders + o.headers;
    var body := NoBody;
    if o.form.Some? {
      body := Multipart(o.form.value.entries);
      headers := headers - {ContentType};
    } else if o.data.FormData? {
      body := Multipart(o.data.entries);
      headers := headers - {ContentType};
    } else if Truthy(o.data.value) {
      body := JsonText(o.data.value);
      headers := headers[ContentType := JsonMediaType];
    }
    r := Success(Request(o.url.value, verb, headers, body, timeout, retries, retryDelay,
                         useLoader, o.cache != Bool(false)));
  }

  /**
   * Only the exact key "Content-Type" is removed for a form payload: a
   * caller's "content-type" entry is still sent.
   */
  lemma FormKeepsOtherSpelling(options: Options, config: Config)
    requires options.url.Some? && options.url.value != "" && options.form.Some?
    requires "content-type" in options.headers
    ensures Prepared(Some(options), config).Success?
    ensures var h := Prepared(Some(options), config).value.headers;
      ContentType !in h && "content-type" in h && h["content-type"] == options.headers["content-type"]
  {
  }
}
