/**
 * The Django views: an object view runs its getter, attaches the configured
 * disclaimer, answers 200 with the CORS header, 404 or 400 with an empty body,
 * and re-raises anything else after recording the exception's class name;
 * in every case the request's log record is closed exactly once. The fqdn
 * view normalises the name first, and help and unsupported views answer
 * fixed responses.
 */
module Views {
  import opened Wrappers
  import opened Json
  import opened Registry
  import opened RdapUtils
  import opened Whois
  import RestViews

  const RDAP_CONFORMANCE: seq<string> := ["rdap_level_0", "fred_version_0"]

  const LOGGER_SERVICE := "RDAP"
  const LOGGER_SUCCESS := "Ok"
  const LOGGER_NOT_FOUND := "NotFound"
  const LOGGER_BAD_REQUEST := "BadRequest"

  /** The status every unsupported path is answered with unless its route says otherwise. */
  const UNSUPPORTED_STATUS := 501

  datatype HttpResponse = HttpResponse(status: int, contentType: string, body: Option<Doc>, headers: map<string, string>)

  /** A view either returns a response or lets an exception, named by its class, propagate. */
  datatype GetOutcome = Responded(response: HttpResponse) | Reraised(typeName: string)

  /** A request's record in the logging service: what it was created with, its result, and every `close` call. */
  class ObjectLog {
    var remoteAddr: string
    var service: string
    var requestType: string
    var properties: seq<(string, string)>
    var result: Option<string>
    var closes: seq<seq<(string, string)>>

    /** `create_request`: a request of the view's type, carrying the handle, with no result yet. */
    constructor (remoteAddr: string, requestType: string, handle: string)
      ensures this.remoteAddr == remoteAddr && service == LOGGER_SERVICE && this.requestType == requestType
      ensures properties == [("handle", handle)] && result == None && closes == []
    {
      this.remoteAddr := remoteAddr;
      service := LOGGER_SERVICE;
      this.requestType := requestType;
      properties := [("handle", handle)];
      result := None;
      closes := [];
    }

    /** Records one `close(properties=...)` call and nothing else. */
    method Close(outProperties: seq<(string, string)>)
      modifies this
      ensures closes == old(closes) + [outProperties]
      ensures remoteAddr == old(remoteAddr) && service == old(service) && requestType == old(requestType)
      ensures properties == old(properties) && result == old(result)
    {
      closes := closes + [outProperties];
    }
  }

  /** What `ObjectView.get` ends with: its outcome, the log's result and the properties it is closed with. */
  datatype Served = Served(outcome: GetOutcome, result: Option<string>, outProperties: seq<(string, string)>)

  /** The `except Exception` branch: the class name is recorded and the exception re-raised. */
  function Raise(typeName: string, result: Option<string>): Served
  {
    Served(Reraised(typeName), result, [("error", typeName)])
  }

  function Success(doc: Doc): Served
  {
    Served(Responded(HttpResponse(200, RDAP_CONTENT_TYPE, Some(doc), RestViews.CORS)), Some(LOGGER_SUCCESS), [])
  }

  /**
   * The outcome of `ObjectView.get` for the getter's result, as a value. A
   * missing document fails at `setdefault` when a disclaimer is configured,
   * and otherwise at `JsonResponse`, after the result was already set.
   */
  function ObjectGet(disclaimer: Option<string>, lookup: Lookup): Served
  {
    match lookup
    case Failed(NotFoundError) =>
      Served(Responded(HttpResponse(404, RDAP_CONTENT_TYPE, None, map[])), Some(LOGGER_NOT_FOUND), [])
    case Failed(InvalidHandleError) =>
      Served(Responded(HttpResponse(400, RDAP_CONTENT_TYPE, None, map[])), Some(LOGGER_BAD_REQUEST), [])
    case Failed(Uncaught(e)) => Raise(ExceptionName(e.kind), None)
    case Found(None) =>
      if disclaimer.Some? then Raise("AttributeError", None) else Raise("TypeError", Some(LOGGER_SUCCESS))
    case Found(Some(doc)) =>
      if disclaimer.None? then Success(doc)
      else match RestViews.AddDisclaimer(doc, disclaimer.value)
        case NoticeFailed(err) => Raise(err.typeName, None)
        case Noticed(d) => Success(d)
  }

  /**
   * `ObjectView.get`: creates the log record, runs the getter inside `try`,
   * and in `finally` closes the record with the collected properties.
   */
  method ObjectViewGet(disclaimer: Option<string>, getter: string -> Lookup, requestType: string,
                       handle: string, remoteAddr: string)
    returns (outcome: GetOutcome, log: ObjectLog)
    ensures fresh(log)
    ensures log.remoteAddr == remoteAddr && log.service == LOGGER_SERVICE && log.requestType == requestType
    ensures log.properties == [("handle", handle)]
    ensures log.result == ObjectGet(disclaimer, getter(handle)).result
    ensures log.closes == [ObjectGet(disclaimer, getter(handle)).outProperties]
    ensures outcome == ObjectGet(disclaimer, getter(handle)).outcome
  {
    log := new ObjectLog(remoteAddr, requestType, handle);
    var outProperties: seq<(string, string)> := [];
    var data := getter(handle);
    match data {
      case Failed(NotFoundError) =>
        log.result := Some(LOGGER_NOT_FOUND);
        outcome := Responded(HttpResponse(404, RDAP_CONTENT_TYPE, None, map[]));
      case Failed(InvalidHandleError) =>
        log.result := Some(LOGGER_BAD_REQUEST);
        outcome := Responded(HttpResponse(400, RDAP_CONTENT_TYPE, None, map[]));
      case Failed(Uncaught(e)) =>
        outProperties := outProperties + [("error", ExceptionName(e.kind))];
        outcome := Reraised(ExceptionName(e.kind));
      case Found(r) =>
        var raised: Option<string> := None;
        var doc := r;
        if disclaimer.Some? {
          if r.None? {
            raised := Some("AttributeError");
          } else {
            var noticed := RestViews.AppendDisclaimer(r.value, disclaimer.value);
            if noticed.NoticeFailed? {
              raised := Some(noticed.error.typeName);
            } else {
              doc := Some(noticed.doc);
            }
          }
        }
        if raised.None? {
          log.result := Some(LOGGER_SUCCESS);
          if doc.None? {
            raised := Some("TypeError");
          } else {
            outcome := Responded(HttpResponse(200, RDAP_CONTENT_TYPE, doc, RestViews.CORS));
          }
        }
        if raised.Some? {
          outProperties := outProperties + [("error", raised.value)];
          outcome := Reraised(raised.value);
        }
    }
    assert outProperties == ObjectGet(disclaimer, data).outProperties;
    log.Close(outProperties);
  }

  /**
   * `FqdnObjectView.get`: a name that is not a valid IDN is answered 400
   * before any log record or lookup; otherwise the normalised name is served
   * by the object view.
   */
  method FqdnObjectViewGet(cfg: Config, getter: string -> Lookup, requestType: string,
                           handle: string, remoteAddr: string)
    returns (outcome: GetOutcome, log: ObjectLog?)
    ensures cfg.preprocessFqdn(handle).None? ==>
      log == null && outcome == Responded(HttpResponse(400, RDAP_CONTENT_TYPE, None, map[]))
    ensures cfg.preprocessFqdn(handle).Some? ==>
      var name := cfg.preprocessFqdn(handle).value;
      && log != null && fresh(log) && log.properties == [("handle", name)]
      && log.result == ObjectGet(cfg.disclaimer, getter(name)).result
      && log.closes == [ObjectGet(cfg.disclaimer, getter(name)).outProperties]
      && outcome == ObjectGet(cfg.disclaimer, getter(name)).outcome
  {
    var normalised := cfg.preprocessFqdn(handle);
    if normalised.None? {
      return Responded(HttpResponse(400, RDAP_CONTENT_TYPE, None, map[])), null;
    }
    var l;
    outcome, l := ObjectViewGet(cfg.disclaimer, getter, requestType, normalised.value, remoteAddr);
    log := l;
  }

  /**
   * The log's result and the response agree: 200 is logged "Ok", 404
   * "NotFound" and 400 "BadRequest"; those answer exactly the getter's two
   * errors and close the log without properties, and every re-raised
   * exception is closed with its own class name as the only property.
   */
  lemma ObjectGetOutcomes(disclaimer: Option<string>, lookup: Lookup)
    ensures var s := ObjectGet(disclaimer, lookup);
      && (s.outcome.Responded? ==>
            && s.outProperties == []
            && s.outcome.response.contentType == RDAP_CONTENT_TYPE
            && (s.outcome.response.status == 200 || s.outcome.response.status == 404 || s.outcome.response.status == 400)
            && (s.outcome.response.status == 200 <==> s.result == Some(LOGGER_SUCCESS))
            && (s.outcome.response.status == 404 <==> s.result == Some(LOGGER_NOT_FOUND))
            && (s.outcome.response.status == 400 <==> s.result == Some(LOGGER_BAD_REQUEST))
            && (s.outcome.response.body.Some? <==> s.outcome.response.status == 200)
            && (s.outcome.response.status == 200 <==> "Access-Control-Allow-Origin" in s.outcome.response.headers))
      && (s.outcome.Reraised? ==> s.outProperties == [("error", s.outcome.typeName)])
      && (s.outcome == Responded(HttpResponse(404, RDAP_CONTENT_TYPE, None, map[])) <==> lookup == Failed(NotFoundError))
      && (s.outcome == Responded(HttpResponse(400, RDAP_CONTENT_TYPE, None, map[])) <==> lookup == Failed(InvalidHandleError))
  {
  }

  /** An error the getter did not translate propagates under its own class name, with no result logged. */
  lemma ObjectGetReraises(disclaimer: Option<string>, e: BackendError)
    ensures ObjectGet(disclaimer, Failed(Uncaught(e))) == Raise(ExceptionName(e.kind), None)
  {
  }

  /**
   * A getter that returns no document is never answered: the view raises,
   * and only without a disclaimer has the result already been set to "Ok".
   */
  lemma ObjectGetNoDocument(disclaimer: Option<string>)
    ensures ObjectGet(disclaimer, Found(None)).outcome.Reraised?
    ensures ObjectGet(disclaimer, Found(None)).result == Some(LOGGER_SUCCESS) <==> disclaimer.None?
  {
  }

  /**
   * Both view layers treat a document alike: the Django view answers it 200
   * with exactly the body the REST view would answer, disclaimer included,
   * and a `notices` value that is not a list makes both fail.
   */
  lemma ObjectGetAgreesWithRest(disclaimer: Option<string>, doc: Doc)
    ensures var s := ObjectGet(disclaimer, Found(Some(doc)));
      var h := RestViews.Handle(disclaimer, Found(Some(doc)));
      && (s.outcome.Responded? <==> h.status == RestViews.HTTP_200_OK)
      && (s.outcome.Responded? ==> s.outcome.response.body == h.content)
  {
  }

  function HelpDocument(): Doc
  {
    map[
      "rdapConformance" := JArr(JStrs(RDAP_CONFORMANCE)),
      "notices" := JArr([JObj(map["title" := JStr("Help"), "description" := JArr([JStr("No help.")])])])]
  }

  function HelpResponse(): HttpResponse
  {
    HttpResponse(200, RDAP_CONTENT_TYPE, Some(HelpDocument()), RestViews.CORS)
  }

  /** `UnsupportedView`: an empty body with the route's status (501 unless the route gives another). */
  function UnsupportedResponse(status: int): HttpResponse
  {
    HttpResponse(status, RDAP_CONTENT_TYPE, None, map[])
  }

  /**
   * Help answers 200 with the CORS header, both conformance levels and the
   * single notice "No help."; an unsupported path answers its status with no
   * body and no CORS header.
   */
  lemma FixedViews(status: int)
    ensures var h := HelpResponse();
      && h.status == 200 && h.contentType == RDAP_CONTENT_TYPE && h.headers == RestViews.CORS
      && h.body.Some? && h.body.value.Keys == {"rdapConformance", "notices"}
      && Items(h.body.value["rdapConformance"]) == [JStr("rdap_level_0"), JStr("fred_version_0")]
      && Items(h.body.value["notices"])
         == [JObj(map["title" := JStr("Help"), "description" := JArr([JStr("No help.")])])]
    ensures var u := UnsupportedResponse(status);
      u.status == status && u.body.None? && "Access-Control-Allow-Origin" !in u.headers
    ensures UnsupportedResponse(UNSUPPORTED_STATUS).status == 501
  {
  }
}
