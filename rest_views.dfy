/**
 * The REST view sets: each runs one getter, turns its outcome into an HTTP
 * response (200, 404, 400 or 500, always with the CORS header), appends the
 * configured disclaimer to a returned document, and closes the request's log
 * record exactly once with the outcome. Domain and nameserver views first
 * normalise the requested name and answer 400 if it is not a valid IDN.
 */
module RestViews {
  import opened Wrappers
  import opened Json
  import opened Registry
  import opened RdapUtils
  import opened Whois

  // ---------------------------------------------------------------- request types

  /** The logger's request type for a path segment; an unknown segment has none. */
  function TranslateRestPath(path: string): string
  {
    if path == "entity" then "EntityLookup"
    else if path == "domain" then "DomainLookup"
    else if path == "nameserver" then "NameserverLookup"
    else if path == "fred_nsset" then "NSSetLookup"
    else if path == "fred_keyset" then "KeySetLookup"
    else ""
  }

  /**
   * Each of the five object paths has its own request type (an nsset is an
   * `NSSetLookup`, a keyset a `KeySetLookup`), all different; every other path
   * has the empty one.
   */
  lemma TranslateRestPathKnown(path: string, other: string)
    ensures TranslateRestPath("entity") == "EntityLookup"
    ensures TranslateRestPath("domain") == "DomainLookup"
    ensures TranslateRestPath("nameserver") == "NameserverLookup"
    ensures TranslateRestPath("fred_nsset") == "NSSetLookup"
    ensures TranslateRestPath("fred_keyset") == "KeySetLookup"
    ensures TranslateRestPath(path) != ""
        <==> path == "entity" || path == "domain" || path == "nameserver" || path == "fred_nsset" || path == "fred_keyset"
    ensures TranslateRestPath(path) != "" && TranslateRestPath(path) == TranslateRestPath(other) ==> path == other
  {
  }

  // ---------------------------------------------------------------- the log record

  /** A request's record in the logging service: what it was created with and every `close` call made on it. */
  class LogRequest {
    var remoteAddr: string
    var service: string
    var requestType: string
    var properties: seq<(string, string)>
    var closes: seq<(string, string)>

    /** `create_log_request`: an RDAP request of the path's type, carrying the handle. */
    constructor (path: string, handle: string, remoteAddr: string)
      ensures this.remoteAddr == remoteAddr && service == "RDAP"
      ensures requestType == TranslateRestPath(path)
      ensures properties == [("handle", handle)]
      ensures closes == []
    {
      this.remoteAddr := remoteAddr;
      service := "RDAP";
      requestType := TranslateRestPath(path);
      properties := [("handle", handle)];
      closes := [];
    }

    /** Records one `close(status, content)` call and nothing else. */
    method Close(status: string, content: string)
      modifies this
      ensures closes == old(closes) + [(status, content)]
      ensures remoteAddr == old(remoteAddr) && service == old(service)
      ensures requestType == old(requestType) && properties == old(properties)
    {
      closes := closes + [(status, content)];
    }
  }

  // ---------------------------------------------------------------- responses

  const HTTP_200_OK := 200
  const HTTP_400_BAD_REQUEST := 400
  const HTTP_404_NOT_FOUND := 404
  const HTTP_500_INTERNAL_SERVER_ERROR := 500
  const HTTP_501_NOT_IMPLEMENTED := 501

  const CORS: map<string, string> := map["Access-Control-Allow-Origin" := "*"]

  datatype Response = Response(content: Option<Doc>, status: int, headers: map<string, string>)

  /** A Python exception raised inside the view: its class name and its `str()`. */
  datatype PyError = PyError(typeName: string, message: string)

  /** What `'notices' not in None` raises under Python 2. */
  const NONE_NOT_ITERABLE := PyError("TypeError", "argument of type 'NoneType' is not iterable")

  /** The Python type of a JSON value, as named in an exception message. */
  function PyTypeName(j: Json): string
  {
    match j
    case JNull => "NoneType"
    case JBool(_) => "bool"
    case JInt(_) => "int"
    case JStr(_) => "unicode"
    case JArr(_) => "list"
    case JObj(_) => "dict"
    case JDateTime(_) => "datetime.datetime"
  }

  function DisclaimerNotice(text: string): Json
  {
    JObj(map["title" := JStr("Disclaimer"), "description" := JArr([JStr(text)])])
  }

  /** The document with the disclaimer notice appended, or the error `.append` raises on a non-list `notices`. */
  datatype Noticed = Noticed(doc: Doc) | NoticeFailed(error: PyError)

  /** Creates `notices` when absent, then appends one disclaimer notice to it. */
  function AddDisclaimer(doc: Doc, text: string): Noticed
  {
    var notices := if "notices" in doc then doc["notices"] else JArr([]);
    if notices.JArr? then Noticed(doc["notices" := JArr(notices.items + [DisclaimerNotice(text)])])
    else NoticeFailed(PyError("AttributeError", "'" + PyTypeName(notices) + "' object has no attribute 'append'"))
  }

  /** The two statements that attach the disclaimer, updating the document in place. */
  method AppendDisclaimer(doc: Doc, text: string) returns (r: Noticed)
    ensures r == AddDisclaimer(doc, text)
  {
    var result := doc;
    if "notices" !in result {
      result := result["notices" := JArr([])];
    }
    var notices := result["notices"];
    if !notices.JArr? {
      return NoticeFailed(PyError("AttributeError", "'" + PyTypeName(notices) + "' object has no attribute 'append'"));
    }
    result := result["notices" := JArr(notices.items + [DisclaimerNotice(text)])];
    r := Noticed(result);
  }

  /**
   * Attaching the disclaimer fails only on a `notices` value that is not a
   * list; otherwise it keeps every other field and every earlier notice and
   * adds exactly one notice at the end.
   */
  lemma AddDisclaimerSpec(doc: Doc, text: string)
    ensures AddDisclaimer(doc, text).NoticeFailed? <==> "notices" in doc && !doc["notices"].JArr?
    ensures var r := AddDisclaimer(doc, text);
      r.Noticed? ==>
        && r.doc.Keys == doc.Keys + {"notices"}
        && (forall k :: k in doc && k != "notices" ==> r.doc[k] == doc[k])
        && r.doc["notices"].JArr?
        && Items(r.doc["notices"]) == (if "notices" in doc then Items(doc["notices"]) else []) + [DisclaimerNotice(text)]
  {
  }

  /** What `response_handling` ends with: the response's content and status, and the log's close arguments. */
  datatype Handled = Handled(content: Option<Doc>, status: int, logStatus: string, logContent: string)

  /** A failure inside the `try`: status 500 and the exception's text in the log. */
  function InternalError(message: string): Handled
  {
    Handled(None, HTTP_500_INTERNAL_SERVER_ERROR, "InternalServerError", message)
  }

  /** The outcome of `response_handling` for the getter's result, as a value. */
  function Handle(disclaimer: Option<string>, lookup: Lookup): Handled
  {
    match lookup
    case Failed(NotFoundError) => Handled(None, HTTP_404_NOT_FOUND, "NotFound", "")
    case Failed(InvalidHandleError) => Handled(None, HTTP_400_BAD_REQUEST, "BadRequest", "")
    case Failed(Uncaught(e)) => InternalError(e.message)
    case Found(r) =>
      if disclaimer.None? then Handled(r, HTTP_200_OK, "Ok", "")
      else if r.None? then InternalError(NONE_NOT_ITERABLE.message)
      else match AddDisclaimer(r.value, disclaimer.value)
        case NoticeFailed(err) => InternalError(err.message)
        case Noticed(d) => Handled(Some(d), HTTP_200_OK, "Ok", "")
  }

  /** The HTTP response for an outcome: always with the CORS header. */
  function ResponseOf(h: Handled): Response
  {
    Response(h.content, h.status, CORS)
  }

  /**
   * `response_handling`: runs the getter inside `try`, maps each exception to
   * its status, and in `finally` closes the log record with the final status
   * and content.
   */
  method ResponseHandling(disclaimer: Option<string>, getter: string -> Lookup, handle: string, log: LogRequest)
    returns (rsp: Response)
    modifies log
    ensures rsp == ResponseOf(Handle(disclaimer, getter(handle)))
    ensures log.closes == old(log.closes) + [(Handle(disclaimer, getter(handle)).logStatus,
                                             Handle(disclaimer, getter(handle)).logContent)]
    ensures log.remoteAddr == old(log.remoteAddr) && log.service == old(log.service)
    ensures log.requestType == old(log.requestType) && log.properties == old(log.properties)
  {
    var rspContent: Option<Doc> := None;
    var rspStatus := HTTP_500_INTERNAL_SERVER_ERROR;
    var logContent := "";
    var logStatus := "InternalServerError";

    var queryResult := getter(handle);
    match queryResult {
      case Failed(NotFoundError) =>
        rspStatus := HTTP_404_NOT_FOUND;
        logStatus := "NotFound";
      case Failed(InvalidHandleError) =>
        rspStatus := HTTP_400_BAD_REQUEST;
        logStatus := "BadRequest";
      case Failed(Uncaught(e)) =>
        rspStatus := HTTP_500_INTERNAL_SERVER_ERROR;
        logContent := e.message;
        logStatus := "InternalServerError";
      case Found(r) =>
        var raised: Option<PyError> := None;
        var content := r;
        if disclaimer.Some? {
          if r.None? {
            raised := Some(NONE_NOT_ITERABLE);
          } else {
            var noticed := AppendDisclaimer(r.value, disclaimer.value);
            if noticed.NoticeFailed? {
              raised := Some(noticed.error);
            } else {
              content := Some(noticed.doc);
            }
          }
        }
        if raised.None? {
          rspContent := content;
          rspStatus := HTTP_200_OK;
          logStatus := "Ok";
        } else {
          rspStatus := HTTP_500_INTERNAL_SERVER_ERROR;
          logContent := raised.value.message;
          logStatus := "InternalServerError";
        }
    }
    log.Close(logStatus, logContent);
    rsp := Response(rspContent, rspStatus, CORS);
  }

  /**
   * Each status comes with its own log status, and only a 200 carries
   * content; 404 and 400 answer exactly the getter's two errors.
   */
  lemma HandleStatuses(disclaimer: Option<string>, lookup: Lookup)
    ensures var h := Handle(disclaimer, lookup);
      && (h.status == HTTP_200_OK <==> h.logStatus == "Ok")
      && (h.status == HTTP_404_NOT_FOUND <==> h.logStatus == "NotFound")
      && (h.status == HTTP_400_BAD_REQUEST <==> h.logStatus == "BadRequest")
      && (h.status == HTTP_500_INTERNAL_SERVER_ERROR <==> h.logStatus == "InternalServerError")
      && (h.status == HTTP_200_OK || h.status == HTTP_404_NOT_FOUND
          || h.status == HTTP_400_BAD_REQUEST || h.status == HTTP_500_INTERNAL_SERVER_ERROR)
      && (h.content.Some? ==> h.status == HTTP_200_OK)
      && (h.status == HTTP_404_NOT_FOUND <==> lookup == Failed(NotFoundError))
      && (h.status == HTTP_400_BAD_REQUEST <==> lookup == Failed(InvalidHandleError))
      && (h.logContent != "" ==> h.status == HTTP_500_INTERNAL_SERVER_ERROR)
  {
  }

  /** An uncaught error is answered 500 with its text logged. */
  lemma HandleUncaught(disclaimer: Option<string>, e: BackendError)
    ensures Handle(disclaimer, Failed(Uncaught(e))) == Handled(None, HTTP_500_INTERNAL_SERVER_ERROR, "InternalServerError", e.message)
  {
  }

  /**
   * A document is answered 200: unchanged without a disclaimer, and with one
   * disclaimer notice appended after its own notices when one is configured.
   */
  lemma HandleDocument(disclaimer: Option<string>, doc: Doc)
    requires "notices" in doc ==> doc["notices"].JArr?
    ensures var h := Handle(disclaimer, Found(Some(doc)));
      && h.status == HTTP_200_OK && h.logStatus == "Ok" && h.logContent == ""
      && (disclaimer.None? ==> h.content == Some(doc))
      && (disclaimer.Some? ==>
            h.content.Some?
            && (forall k :: k in doc && k != "notices" ==> k in h.content.value && h.content.value[k] == doc[k])
            && "notices" in h.content.value
            && Items(h.content.value["notices"])
               == (if "notices" in doc then Items(doc["notices"]) else []) + [DisclaimerNotice(disclaimer.value)])
  {
    if disclaimer.Some? {
      AddDisclaimerSpec(doc, disclaimer.value);
    }
  }

  /** A getter that returns no document is answered 200 with no body, or 500 when a disclaimer must be attached. */
  lemma HandleNoDocument(disclaimer: Option<string>)
    ensures disclaimer.None? ==> Handle(disclaimer, Found(None)) == Handled(None, HTTP_200_OK, "Ok", "")
    ensures disclaimer.Some? ==> Handle(disclaimer, Found(None)).status == HTTP_500_INTERNAL_SERVER_ERROR
  {
  }

  // ---------------------------------------------------------------- the view sets

  /** The common body of the object view sets: create the log record, then handle the getter's outcome. */
  method Retrieve(disclaimer: Option<string>, getter: string -> Lookup, path: string, handle: string, remoteAddr: string)
    returns (rsp: Response, log: LogRequest)
    ensures fresh(log)
    ensures log.requestType == TranslateRestPath(path) && log.properties == [("handle", handle)]
    ensures log.remoteAddr == remoteAddr && log.service == "RDAP"
    ensures log.closes == [(Handle(disclaimer, getter(handle)).logStatus, Handle(disclaimer, getter(handle)).logContent)]
    ensures rsp == ResponseOf(Handle(disclaimer, getter(handle)))
  {
    log := new LogRequest(path, handle, remoteAddr);
    rsp := ResponseHandling(disclaimer, getter, handle, log);
  }

  method EntityRetrieve(cfg: Config, b: Backend, path: string, handle: string, remoteAddr: string)
    returns (rsp: Response, log: LogRequest)
    ensures fresh(log) && log.properties == [("handle", handle)]
    ensures log.closes == [(Handle(cfg.disclaimer, GetContactByHandle(cfg, b, handle)).logStatus,
                            Handle(cfg.disclaimer, GetContactByHandle(cfg, b, handle)).logContent)]
    ensures rsp == ResponseOf(Handle(cfg.disclaimer, GetContactByHandle(cfg, b, handle)))
  {
    rsp, log := Retrieve(cfg.disclaimer, h => GetContactByHandle(cfg, b, h), path, handle, remoteAddr);
  }

  method NssetRetrieve(cfg: Config, b: Backend, path: string, handle: string, remoteAddr: string)
    returns (rsp: Response, log: LogRequest)
    ensures fresh(log) && log.properties == [("handle", handle)]
    ensures log.closes == [(Handle(cfg.disclaimer, GetNssetByHandle(cfg, b, handle)).logStatus,
                            Handle(cfg.disclaimer, GetNssetByHandle(cfg, b, handle)).logContent)]
    ensures rsp == ResponseOf(Handle(cfg.disclaimer, GetNssetByHandle(cfg, b, handle)))
  {
    rsp, log := Retrieve(cfg.disclaimer, h => GetNssetByHandle(cfg, b, h), path, handle, remoteAddr);
  }

  method KeysetRetrieve(cfg: Config, b: Backend, path: string, handle: string, remoteAddr: string)
    returns (rsp: Response, log: LogRequest)
    ensures fresh(log) && log.properties == [("handle", handle)]
    ensures log.closes == [(Handle(cfg.disclaimer, GetKeysetByHandle(cfg, b, handle)).logStatus,
                            Handle(cfg.disclaimer, GetKeysetByHandle(cfg, b, handle)).logContent)]
    ensures rsp == ResponseOf(Handle(cfg.disclaimer, GetKeysetByHandle(cfg, b, handle)))
  {
    rsp, log := Retrieve(cfg.disclaimer, h => GetKeysetByHandle(cfg, b, h), path, handle, remoteAddr);
  }

  /**
   * The domain view set: an invalid IDN is answered 400, without the CORS
   * header and before any log record or lookup; otherwise the normalised
   * name is looked up.
   */
  method DomainRetrieve(cfg: Config, b: Backend, path: string, handle: string, remoteAddr: string)
    returns (rsp: Response, log: LogRequest?)
    ensures cfg.preprocessFqdn(handle).None? ==> log == null && rsp == Response(None, HTTP_400_BAD_REQUEST, map[])
    ensures cfg.preprocessFqdn(handle).Some? ==>
      var name := cfg.preprocessFqdn(handle).value;
      && log != null && fresh(log) && log.properties == [("handle", name)]
      && log.closes == [(Handle(cfg.disclaimer, GetDomainByHandle(cfg, b, name)).logStatus,
                         Handle(cfg.disclaimer, GetDomainByHandle(cfg, b, name)).logContent)]
      && rsp == ResponseOf(Handle(cfg.disclaimer, GetDomainByHandle(cfg, b, name)))
  {
    var normalised := cfg.preprocessFqdn(handle);
    if normalised.None? {
      return Response(None, HTTP_400_BAD_REQUEST, map[]), null;
    }
    var name := normalised.value;
    var l;
    rsp, l := Retrieve(cfg.disclaimer, h => GetDomainByHandle(cfg, b, h), path, name, remoteAddr);
    log := l;
  }

  /** The nameserver view set, with the same IDN check as the domain one. */
  method NameserverRetrieve(cfg: Config, b: Backend, path: string, handle: string, remoteAddr: string)
    returns (rsp: Response, log: LogRequest?)
    ensures cfg.preprocessFqdn(handle).None? ==> log == null && rsp == Response(None, HTTP_400_BAD_REQUEST, map[])
    ensures cfg.preprocessFqdn(handle).Some? ==>
      var name := cfg.preprocessFqdn(handle).value;
      && log != null && fresh(log) && log.properties == [("handle", name)]
      && log.closes == [(Handle(cfg.disclaimer, GetNameserverByHandle(cfg, b, name)).logStatus,
                         Handle(cfg.disclaimer, GetNameserverByHandle(cfg, b, name)).logContent)]
      && rsp == ResponseOf(Handle(cfg.disclaimer, GetNameserverByHandle(cfg, b, name)))
  {
    var normalised := cfg.preprocessFqdn(handle);
    if normalised.None? {
      return Response(None, HTTP_400_BAD_REQUEST, map[]), null;
    }
    var name := normalised.value;
    var l;
    rsp, l := Retrieve(cfg.disclaimer, h => GetNameserverByHandle(cfg, b, h), path, name, remoteAddr);
    log := l;
  }

  /** A path the router cannot parse. */
  function MalformedResponse(): Response
  {
    Response(None, HTTP_400_BAD_REQUEST, map[])
  }

  /** An object class the server does not serve. */
  function UnsupportedResponse(): Response
  {
    Response(None, HTTP_501_NOT_IMPLEMENTED, map[])
  }

  function HelpDocument(): Doc
  {
    map[
      "rdapConformance" := JArr([JStr("rdap_level_0")]),
      "notices" := JArr([JObj(map["title" := JStr("Help"), "description" := JArr([JStr("No help.")])])])]
  }

  function HelpResponse(): Response
  {
    Response(Some(HelpDocument()), HTTP_200_OK, CORS)
  }

  /**
   * Malformed paths are answered 400 and unsupported ones 501, both empty and
   * without the CORS header; help is a 200 with conformance `rdap_level_0` and
   * the single notice "No help.".
   */
  lemma FixedResponses()
    ensures MalformedResponse().status == HTTP_400_BAD_REQUEST && MalformedResponse().content.None?
    ensures UnsupportedResponse().status == HTTP_501_NOT_IMPLEMENTED && UnsupportedResponse().content.None?
    ensures "Access-Control-Allow-Origin" !in MalformedResponse().headers
    ensures "Access-Control-Allow-Origin" !in UnsupportedResponse().headers
    ensures var h := HelpResponse();
      && h.status == HTTP_200_OK && h.headers["Access-Control-Allow-Origin"] == "*"
      && h.content.Some? && h.content.value.Keys == {"rdapConformance", "notices"}
      && h.content.value["rdapConformance"] == JArr([JStr("rdap_level_0")])
      && Items(h.content.value["notices"])
         == [JObj(map["title" := JStr("Help"), "description" := JArr([JStr("No help.")])])]
  {
  }
}
