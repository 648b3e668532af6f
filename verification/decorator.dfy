/**
 The decision logic of the `template(template_name, encoding, headers, status)`
 decorator: given what the wrapped handler returned, pass an HTTP response
 through untouched, raise one of three configuration errors in a fixed order,
 or render the named template with the returned mapping (`None` read as an
 empty mapping) and the content type "text/html; charset=" + encoding.

 The template environment's existence and the loader's answer for the
 template name are inputs; rendering itself belongs to the template engine.
 */
module TemplateDecorator {
  import opened Wrappers
  import RequestContext

  /** An HTTP response object built by the handler; opaque here. */
  datatype HttpResponse = HttpResponse(id: nat)

  /** The response headers given to the decorator; `None` is Python's `None`. */
  type Headers = Option<map<string, string>>

  /** What the wrapped handler returned. */
  datatype HandlerReturn =
    | Response(response: HttpResponse)                // an `HTTPResponse` instance
    | NoneReturn                                      // `None`
    | MappingReturn(context: RequestContext.Context)  // any `Mapping`
    | OtherReturn(typeRepr: string)                   // anything else, with `str(type(value))`

  /** The three configuration errors, in the order they are checked. */
  datatype ErrorKind = EngineNotInitialized | TemplateNotFound | ContextNotMapping

  /** A `ServerError` with its message and status code. */
  datatype ServerError = ServerError(kind: ErrorKind, message: string, status: int)

  /** The decorator's decision. */
  datatype Decision =
    | Passthrough(response: HttpResponse)
    | Raise(error: ServerError)
    | Render(template: string, context: RequestContext.Context, status: int,
             headers: Headers, contentType: string)

  /** The status code every configuration error carries. */
  const ErrorStatus: int := 500

  /** The content type of a rendered page for the given encoding. */
  function ContentType(encoding: string): string {
    "text/html; charset=" + encoding
  }

  /** The message of the error of `kind`, as the decorator words it. */
  function ErrorMessage(kind: ErrorKind, templateName: string, typeRepr: string): string {
    match kind
    case EngineNotInitialized => "Template engine has not been initialized yet."
    case TemplateNotFound => "Template '" + templateName + "' not found"
    case ContextNotMapping => "context should be mapping, not " + typeRepr
  }

  /**
   The decorated handler's outcome. `engineReady` is whether the application
   carries a template environment, `templateFound` whether that environment's
   loader finds `templateName`.
   */
  function Decide(ret: HandlerReturn, templateName: string, encoding: string, headers: Headers,
                  status: int, engineReady: bool, templateFound: bool): (r: Decision)
    ensures ret.Response? ==> r == Passthrough(ret.response)
    ensures !ret.Response? ==> (r.Raise? <==> !engineReady || !templateFound || ret.OtherReturn?)
    ensures r.Raise? ==> r.error.status == ErrorStatus
    ensures r.Raise? && !engineReady ==> r.error.kind == EngineNotInitialized
    ensures r.Raise? && engineReady && !templateFound ==> r.error.kind == TemplateNotFound
    ensures r.Raise? && engineReady && templateFound ==> r.error.kind == ContextNotMapping
    ensures r.Raise? && r.error.kind != EngineNotInitialized ==> engineReady
    ensures r.Raise? && r.error.kind == ContextNotMapping ==> templateFound && ret.OtherReturn?
    ensures r.Raise? && r.error.kind == EngineNotInitialized ==>
      r.error.message == "Template engine has not been initialized yet."
    ensures r.Raise? && r.error.kind == TemplateNotFound ==>
      r.error.message == "Template '" + templateName + "' not found"
    ensures r.Raise? && r.error.kind == ContextNotMapping ==>
      r.error.message == "context should be mapping, not " + ret.typeRepr
    ensures r.Render? ==>
      && r.template == templateName
      && r.contentType == "text/html; charset=" + encoding
      && r.status == status
      && r.headers == headers
      && r.context == (if ret.NoneReturn? then map[] else ret.context)
  {
    match ret
    case Response(resp) => Passthrough(resp)
    case NoneReturn => Proceed(Some(map[]), "", templateName, encoding, headers, status, engineReady, templateFound)
    case MappingReturn(c) => Proceed(Some(c), "", templateName, encoding, headers, status, engineReady, templateFound)
    case OtherReturn(t) => Proceed(None, t, templateName, encoding, headers, status, engineReady, templateFound)
  }

  /**
   The checks and the render after the handler's value has been normalised:
   `context` is the mapping, or `None` when the value was not a mapping (with
   `typeRepr` naming its type).
   */
  function Proceed(context: Option<RequestContext.Context>, typeRepr: string, templateName: string,
                   encoding: string, headers: Headers, status: int,
                   engineReady: bool, templateFound: bool): Decision
  {
    if !engineReady then
      Raise(ServerError(EngineNotInitialized, ErrorMessage(EngineNotInitialized, templateName, typeRepr), ErrorStatus))
    else if !templateFound then
      Raise(ServerError(TemplateNotFound, ErrorMessage(TemplateNotFound, templateName, typeRepr), ErrorStatus))
    else if context.None? then
      Raise(ServerError(ContextNotMapping, ErrorMessage(ContextNotMapping, templateName, typeRepr), ErrorStatus))
    else
      Render(templateName, context.value, status, headers, ContentType(encoding))
  }

  // ---------------------------------------------------------------------------
  // An independent statement of the error order: the checks as a list, and
  // the first one that fails.
  // ---------------------------------------------------------------------------

  /** One configuration check: whether it passed and the error it raises if not. */
  datatype Check = Check(passed: bool, kind: ErrorKind)

  /** The checks the decorator makes, in its order. */
  function Checks(ret: HandlerReturn, engineReady: bool, templateFound: bool): seq<Check> {
    [Check(engineReady, EngineNotInitialized),
     Check(templateFound, TemplateNotFound),
     Check(!ret.OtherReturn?, ContextNotMapping)]
  }

  /** The error of the first failing check, if any. */
  function FirstFailure(checks: seq<Check>): (r: Option<ErrorKind>)
    ensures r.None? <==> forall i :: 0 <= i < |checks| ==> checks[i].passed
    ensures r.Some? ==> exists i :: 0 <= i < |checks| && !checks[i].passed && checks[i].kind == r.value
                                    && forall j :: 0 <= j < i ==> checks[j].passed
  {
    if |checks| == 0 then None
    else if !checks[0].passed then Some(checks[0].kind)
    else
      var rest := FirstFailure(checks[1..]);
      if rest.Some? then
        var i :| 0 <= i < |checks[1..]| && !checks[1..][i].passed
              && checks[1..][i].kind == rest.value && forall j :: 0 <= j < i ==> checks[1..][j].passed;
        assert !checks[i + 1].passed && checks[i + 1].kind == rest.value;
        assert forall j :: 0 <= j < i + 1 ==> checks[j].passed by {
          forall j | 0 <= j < i + 1 ensures checks[j].passed {
            if j > 0 { assert checks[j] == checks[1..][j - 1]; }
          }
        }
        rest
      else
        assert forall i :: 0 <= i < |checks| ==> checks[i].passed by {
          forall i | 0 <= i < |checks| ensures checks[i].passed {
            if i > 0 { assert checks[i] == checks[1..][i - 1]; }
          }
        }
        rest
  }

  /**
   A handler return that is not a response raises exactly the error of the
   first failing check, and renders exactly when every check passes.
   */
  lemma ErrorsInCheckOrder(ret: HandlerReturn, templateName: string, encoding: string,
                           headers: Headers, status: int, engineReady: bool, templateFound: bool)
    requires !ret.Response?
    ensures var r := Decide(ret, templateName, encoding, headers, status, engineReady, templateFound);
      var first := FirstFailure(Checks(ret, engineReady, templateFound));
      && (r.Render? <==> first.None?)
      && (r.Raise? ==> first == Some(r.error.kind))
  {
    var checks := Checks(ret, engineReady, templateFound);
    assert checks[1..] == [checks[1], checks[2]];
    assert checks[1..][1..] == [checks[2]];
    assert checks[1..][1..][1..] == [];
  }

  /**
   The decorator's defaults (status 200, encoding "utf-8", no headers) render a
   returned mapping as "text/html; charset=utf-8" with status 200.
   */
  lemma DefaultsRenderUtf8Html(context: RequestContext.Context, templateName: string)
    ensures Decide(MappingReturn(context), templateName, "utf-8", None, 200, true, true)
         == Render(templateName, context, 200, None, "text/html; charset=utf-8")
  {
  }

  /**
   The decorator renders the handler's mapping as returned: the request
   context assembler does not run on this path, so no reserved name is added.
   */
  lemma RenderUsesHandlerMapping(context: RequestContext.Context, templateName: string,
                                 encoding: string, headers: Headers, status: int)
    ensures var r := Decide(MappingReturn(context), templateName, encoding, headers, status, true, true);
      r.Render? && r.context.Keys == context.Keys
  {
  }
}
