/**
 * Helpers shared by the RDAP transformers: Python truthiness of optional
 * backend values, date unwrapping, the registry-to-RDAP status table,
 * disclosure checks, the `unicodeName` attachment and the JSON fragments
 * (self links, entity references, events) every document is built from.
 */
module RdapUtils {
  import opened Wrappers
  import opened Json
  import opened Registry

  // ---------------------------------------------------------------- configuration

  /** A URL template with one `%(handle)s` placeholder: the text before it and after it. */
  datatype UrlTemplate = UrlTemplate(prefix: string, suffix: string)

  /** Python's `template % {"handle": handle}`: plain substitution, nothing is escaped. */
  function Substitute(t: UrlTemplate, handle: string): string
  {
    t.prefix + handle + t.suffix
  }

  /** A substituted URL splits back into the template's prefix, the handle and the suffix. */
  lemma SubstituteParts(t: UrlTemplate, handle: string)
    ensures var r := Substitute(t, handle);
      && |r| == |t.prefix| + |handle| + |t.suffix|
      && r[..|t.prefix|] == t.prefix
      && r[|t.prefix|..|t.prefix| + |handle|] == handle
      && r[|t.prefix| + |handle|..] == t.suffix
  {
    var r := Substitute(t, handle);
    assert r == t.prefix + handle + t.suffix;
    assert r[..|t.prefix|] == t.prefix;
    assert r[|t.prefix|..] == handle + t.suffix;
  }

  /** Distinct handles give distinct URLs under the same template. */
  lemma SubstituteInjective(t: UrlTemplate, a: string, b: string)
    requires Substitute(t, a) == Substitute(t, b)
    ensures a == b
  {
    SubstituteParts(t, a);
    SubstituteParts(t, b);
  }

  /**
   * The read-only settings the transformers and views consult. `toRfc3339`
   * (which depends on the configured time zone), `idnDecode` (the IDNA
   * decoder) and `preprocessFqdn` (IDNA normalisation of a requested name,
   * `None` where it raises `InvalidIdn`) are library code whose definitions
   * are not part of this model. `disclaimer` is the text of the configured
   * disclaimer file, if one is configured.
   */
  datatype Config = Config(
    rootUrl: string,
    domainUrl: UrlTemplate,
    entityUrl: UrlTemplate,
    nameserverUrl: UrlTemplate,
    nssetUrl: UrlTemplate,
    keysetUrl: UrlTemplate,
    unixWhoisHost: string,
    dnsMaxSigLife: int,
    disclaimer: Option<string>,
    toRfc3339: DateTime -> string,
    idnDecode: string -> string,
    preprocessFqdn: string -> Option<string>)

  // ---------------------------------------------------------------- Python values and `nonempty`

  /** The shape of a Python value as far as truthiness checks can tell. */
  datatype PyValue = PyNone | PyStr(s: string) | PyList(length: nat) | PyObject

  function OptString(o: Option<string>): PyValue
  {
    match o
    case None => PyNone
    case Some(s) => PyStr(s)
  }

  function OptObject<T>(o: Option<T>): PyValue
  {
    if o.Some? then PyObject else PyNone
  }

  /** `nonempty(input)`: `input is not None and input != ''`. */
  predicate Nonempty(x: PyValue)
    ensures !Nonempty(x) <==> x == PyNone || x == PyStr("")
    ensures x.PyList? ==> Nonempty(x)
  {
    match x
    case PyNone => false
    case PyStr(s) => s != ""
    case _ => true
  }

  // ---------------------------------------------------------------- dates

  /** `unwrap_datetime`: a naive datetime with the IDL value's fields and no sub-second part. */
  function UnwrapDatetime(idl: IdlDateTime): (r: DateTime)
    ensures r.year == idl.date.year && r.month == idl.date.month && r.day == idl.date.day
    ensures r.hour == idl.hour && r.minute == idl.minute && r.second == idl.second
    ensures r.microsecond == 0 && r.tzinfo == None
  {
    DateTime(idl.date.year, idl.date.month, idl.date.day, idl.hour, idl.minute, idl.second, 0, None)
  }

  /** `unwrap_date`: the calendar fields of the IDL date. */
  function UnwrapDate(idl: IdlDate): (r: Date)
    ensures r.year == idl.year && r.month == idl.month && r.day == idl.day
  {
    Date(idl.year, idl.month, idl.day)
  }

  /** No two IDL timestamps unwrap to the same datetime: nothing is lost. */
  lemma UnwrapDatetimeInjective(a: IdlDateTime, b: IdlDateTime)
    requires UnwrapDatetime(a) == UnwrapDatetime(b)
    ensures a == b
  {
    assert a.date == b.date;
  }

  // ---------------------------------------------------------------- status mapping

  /**
   * The registry-to-RDAP status table, restricted to the entries the
   * repository's tests fix. Tokens outside it have no RDAP equivalent.
   */
  function StatusTable(token: string): Option<string>
  {
    if token == "ok" then Some("active")
    else if token == "inactive" then Some("inactive")
    else if token == "outzone" then Some("inactive")
    else if token == "linked" then Some("associated")
    else if token == "pendingCreate" then Some("pending create")
    else if token == "pendingDelete" then Some("pending delete")
    else if token == "pendingRenew" then Some("pending renew")
    else if token == "pendingTransfer" then Some("pending transfer")
    else if token == "deleteCandidate" then Some("pending delete")
    else if token == "validatedContact" then Some("validated")
    else if token == "contactPassedManualVerification" then Some("validated")
    else None
  }

  predicate NoDuplicates<T(==)>(s: seq<T>)
  {
    forall i, j :: 0 <= i < j < |s| ==> s[i] != s[j]
  }

  /** True when some token of `raw` maps to the RDAP status `x`. */
  predicate MapsTo(raw: seq<string>, x: string)
  {
    exists i :: 0 <= i < |raw| && StatusTable(raw[i]) == Some(x)
  }

  /** The accumulated list after one more token: its mapped value is added unless unknown or already present. */
  function AddMapped(token: string, acc: seq<string>): seq<string>
  {
    match StatusTable(token)
    case None => acc
    case Some(x) => if x in acc then acc else acc + [x]
  }

  lemma MapsToUncons(raw: seq<string>)
    requires raw != []
    ensures forall x :: MapsTo(raw, x) <==> StatusTable(raw[0]) == Some(x) || MapsTo(raw[1..], x)
  {
    forall x ensures MapsTo(raw, x) ==> StatusTable(raw[0]) == Some(x) || MapsTo(raw[1..], x) {
      if MapsTo(raw, x) {
        var i :| 0 <= i < |raw| && StatusTable(raw[i]) == Some(x);
        if i > 0 { assert raw[1..][i - 1] == raw[i]; }
      }
    }
    forall x ensures MapsTo(raw[1..], x) ==> MapsTo(raw, x) {
      if MapsTo(raw[1..], x) {
        var i :| 0 <= i < |raw[1..]| && StatusTable(raw[1..][i]) == Some(x);
        assert raw[i + 1] == raw[1..][i];
      }
    }
  }

  /** Appends to `acc` the mapped value of each token of `raw`, in order, skipping values already present. */
  function MapStatuses(raw: seq<string>, acc: seq<string>): (r: seq<string>)
    requires NoDuplicates(acc)
    ensures NoDuplicates(r)
    ensures |acc| <= |r| && r[..|acc|] == acc
    ensures forall x :: x in r <==> x in acc || MapsTo(raw, x)
    decreases |raw|
  {
    if raw == [] then acc
    else
      MapsToUncons(raw);
      MapStatuses(raw[1..], AddMapped(raw[0], acc))
  }

  /**
   * `rdap_status_mapping`: the RDAP statuses of a registry status list, each
   * once. An empty list stands for `ok`; unknown tokens are dropped. The
   * values come in first-occurrence order, a choice of this model: only the
   * values, not their order, are fixed for the source.
   */
  function RdapStatusMapping(statuses: seq<string>): (r: seq<string>)
    ensures NoDuplicates(r)
    ensures statuses == [] ==> r == ["active"]
    ensures statuses != [] ==> forall x :: x in r <==> MapsTo(statuses, x)
  {
    if statuses == [] then
      assert MapStatuses(["ok"], []) == MapStatuses([], ["active"]);
      MapStatuses(["ok"], [])
    else MapStatuses(statuses, [])
  }

  lemma HeadIn<T>(s: seq<T>)
    requires s != []
    ensures s[0] in s
  {
  }

  /** Statuses made only of unknown tokens map to nothing, and mapping never fails. */
  lemma UnknownStatusesDropped(statuses: seq<string>)
    requires statuses != []
    requires forall i :: 0 <= i < |statuses| ==> StatusTable(statuses[i]) == None
    ensures RdapStatusMapping(statuses) == []
  {
    var r := RdapStatusMapping(statuses);
    if r != [] {
      HeadIn(r);
      assert false;
    }
  }

  /** A status list holding `linked` always maps to a non-empty list containing `associated`. */
  lemma LinkedMapsToAssociated(statuses: seq<string>)
    requires "linked" in statuses
    ensures "associated" in RdapStatusMapping(statuses)
    ensures RdapStatusMapping(statuses) != []
  {
    var i :| 0 <= i < |statuses| && statuses[i] == "linked";
    assert MapsTo(statuses, "associated");
  }

  /** One token of the fold: used to evaluate the mapping on concrete lists. */
  lemma MapStatusesStep(raw: seq<string>, acc: seq<string>)
    requires raw != [] && NoDuplicates(acc)
    ensures MapStatuses(raw, acc) == MapStatuses(raw[1..], AddMapped(raw[0], acc))
  {
  }

  /** A single known token maps to its table entry alone; so `ok` gives `active`, `linked` gives `associated`, and so on. */
  lemma SingleKnownStatus(token: string)
    requires StatusTable(token).Some?
    ensures RdapStatusMapping([token]) == [StatusTable(token).value]
  {
    MapStatusesStep([token], []);
    assert [token][1..] == [];
  }

  /** Folding one more token onto the end adds its RDAP value last, unless unknown or already present. */
  lemma {:induction false} MapStatusesSnoc(raw: seq<string>, token: string, acc: seq<string>)
    requires NoDuplicates(acc)
    ensures MapStatuses(raw + [token], acc) == AddMapped(token, MapStatuses(raw, acc))
    decreases |raw|
  {
    if raw == [] {
      assert raw + [token] == [token];
      MapStatusesStep([token], acc);
      assert [token][1..] == [];
    } else {
      assert (raw + [token])[1..] == raw[1..] + [token];
      MapStatusesSnoc(raw[1..], token, AddMapped(raw[0], acc));
    }
  }

  /**
   * The mapping of a non-empty status list grows in first-occurrence order:
   * a further token contributes its RDAP value at the end when that value is
   * new, and nothing otherwise.
   */
  lemma StatusMappingSnoc(statuses: seq<string>, token: string)
    requires statuses != []
    ensures RdapStatusMapping(statuses + [token]) == AddMapped(token, RdapStatusMapping(statuses))
  {
    MapStatusesSnoc(statuses, token, []);
  }

  /** Two tokens with the same RDAP value yield it once: validated contacts that are delete candidates. */
  lemma StatusMappingDeduplicates()
    ensures RdapStatusMapping(["validatedContact", "contactPassedManualVerification", "deleteCandidate"])
         == ["validated", "pending delete"]
  {
    MappingOfThree("validatedContact", "contactPassedManualVerification", "deleteCandidate", "validated", "pending delete");
  }

  /** Three known tokens of which the first two share an RDAP value map to the two values, in order. */
  lemma MappingOfThree(a: string, b: string, c: string, x: string, y: string)
    requires StatusTable(a) == Some(x) && StatusTable(b) == Some(x) && StatusTable(c) == Some(y) && x != y
    ensures RdapStatusMapping([a, b, c]) == [x, y]
  {
    SingleKnownStatus(a);
    StatusMappingSnoc([a], b);
    assert [a] + [b] == [a, b];
    StatusMappingSnoc([a, b], c);
    assert [a, b] + [c] == [a, b, c];
  }

  // ---------------------------------------------------------------- disclosure

  /** `disclosable_nonempty(dv)`: the contact publishes the field and it holds something. */
  predicate DisclosableNonempty(dv: Disclosable<PyValue>)
  {
    dv.disclose && Nonempty(dv.value)
  }

  function StringField(d: Disclosable<string>): Disclosable<PyValue>
  {
    Disclosable(PyStr(d.value), d.disclose)
  }

  function AddressField(d: Disclosable<PlaceAddress>): Disclosable<PyValue>
  {
    Disclosable(PyObject, d.disclose)
  }

  /** A string field is shown iff it is disclosed and not empty; an address iff it is disclosed. */
  lemma DisclosableFields(s: Disclosable<string>, a: Disclosable<PlaceAddress>)
    ensures DisclosableNonempty(StringField(s)) <==> s.disclose && s.value != ""
    ensures DisclosableNonempty(AddressField(a)) <==> a.disclose
  {
  }

  // ---------------------------------------------------------------- unicodeName

  /**
   * `add_unicode_name(d, name)`: when the IDNA decoding of `name` differs from it,
   * write the decoded form under `unicodeName`, replacing any earlier value.
   */
  function AddUnicodeName(d: Doc, name: string, decode: string -> string): Doc
  {
    var unicode := decode(name);
    if unicode != name then d["unicodeName" := JStr(unicode)] else d
  }

  /**
   * An ASCII-only name leaves the document as it was; a name whose decoded form
   * differs gains exactly `unicodeName` holding that form, all other keys unchanged.
   */
  lemma AddUnicodeNameSpec(d: Doc, name: string, decode: string -> string)
    ensures var r := AddUnicodeName(d, name, decode);
      && (decode(name) == name ==> r == d)
      && (decode(name) != name ==> r.Keys == d.Keys + {"unicodeName"} && r["unicodeName"] == JStr(decode(name)))
      && (forall k :: k in d && k != "unicodeName" ==> k in r && r[k] == d[k])
  {
  }

  // ---------------------------------------------------------------- JSON fragments

  const RDAP_CONTENT_TYPE := "application/rdap+json"

  /** The `objectClassName` values of the five object kinds. */
  const DOMAIN_CLASS := "domain"
  const ENTITY_CLASS := "entity"
  const NAMESERVER_CLASS := "nameserver"
  const NSSET_CLASS := "nsset"
  const KEYSET_CLASS := "keyset"

  /** A `links` entry pointing at the document itself. */
  function SelfLink(href: string): Json
  {
    JObj(map["value" := JStr(href), "rel" := JStr("self"), "href" := JStr(href), "type" := JStr(RDAP_CONTENT_TYPE)])
  }

  /** A self link has `rel` "self", the RDAP media type, and the target as both `value` and `href`. */
  lemma SelfLinkShape(href: string)
    ensures var r := SelfLink(href);
      && r.JObj? && r.fields.Keys == {"value", "rel", "href", "type"}
      && r.fields["value"] == r.fields["href"] == JStr(href)
      && r.fields["rel"] == JStr("self") && r.fields["type"] == JStr(RDAP_CONTENT_TYPE)
  {
  }

  /**
   * A reference to a contact or registrar inside another document: handle and
   * one role, with `objectClassName` when `classed`, and a self link when `href` is given.
   */
  function EntityRef(handle: string, role: string, classed: bool, href: Option<string>): Json
  {
    var base := map["handle" := JStr(handle), "roles" := JArr([JStr(role)])];
    var withClass := if classed then base["objectClassName" := JStr(ENTITY_CLASS)] else base;
    JObj(if href.Some? then withClass["links" := JArr([SelfLink(href.value)])] else withClass)
  }

  /**
   * An entity reference carries the handle and its one role, `objectClassName`
   * "entity" exactly when classed, a self link exactly when a target is given, and nothing else.
   */
  lemma EntityRefShape(handle: string, role: string, classed: bool, href: Option<string>)
    ensures var r := EntityRef(handle, role, classed, href);
      && r.JObj? && "handle" in r.fields && r.fields["handle"] == JStr(handle)
      && "roles" in r.fields && r.fields["roles"] == JArr([JStr(role)])
      && ("objectClassName" in r.fields <==> classed)
      && (classed ==> r.fields["objectClassName"] == JStr("entity"))
      && ("links" in r.fields <==> href.Some?)
      && (href.Some? ==> r.fields["links"] == JArr([SelfLink(href.value)]))
      && r.fields.Keys <= {"objectClassName", "handle", "roles", "links"}
  {
  }

  /** A contact referenced with a role and a self link built from the entity template. */
  function LinkedContact(cfg: Config, handle: string, role: string, classed: bool): Json
  {
    EntityRef(handle, role, classed, Some(Substitute(cfg.entityUrl, handle)))
  }

  /** One reference per contact handle, in order, each with `role` and a self link. */
  function ContactRefs(cfg: Config, handles: seq<string>, role: string, classed: bool): (r: seq<Json>)
    ensures |r| == |handles|
    ensures forall i :: 0 <= i < |handles| ==> r[i] == LinkedContact(cfg, handles[i], role, classed)
  {
    if handles == [] then []
    else ContactRefs(cfg, handles[..|handles| - 1], role, classed) + [LinkedContact(cfg, handles[|handles| - 1], role, classed)]
  }

  /** The loop every transformer runs over a list of contact handles, appending one reference each. */
  method BuildContactRefs(cfg: Config, handles: seq<string>, role: string, classed: bool) returns (refs: seq<Json>)
    ensures refs == ContactRefs(cfg, handles, role, classed)
  {
    refs := [];
    for i := 0 to |handles|
      invariant refs == ContactRefs(cfg, handles[..i], role, classed)
    {
      assert handles[..i + 1][..i] == handles[..i];
      refs := refs + [LinkedContact(cfg, handles[i], role, classed)];
    }
    assert handles[..|handles|] == handles;
  }

  /** The elements of a JSON array, or nothing for any other value. */
  function Items(j: Json): seq<Json>
  {
    if j.JArr? then j.items else []
  }

  function Event(action: string, date: Json): Json
  {
    JObj(map["eventAction" := JStr(action), "eventDate" := date])
  }

  function EventBy(action: string, date: Json, actor: string): Json
  {
    JObj(map["eventAction" := JStr(action), "eventDate" := date, "eventActor" := JStr(actor)])
  }

  /** The `eventAction` of an event, or "" for anything else. */
  function Action(e: Json): string
  {
    if e.JObj? && "eventAction" in e.fields && e.fields["eventAction"].JStr? then e.fields["eventAction"].s else ""
  }

  function Actions(events: seq<Json>): (r: seq<string>)
    ensures |r| == |events|
    ensures forall i :: 0 <= i < |events| ==> r[i] == Action(events[i])
  {
    if events == [] then [] else Actions(events[..|events| - 1]) + [Action(events[|events| - 1])]
  }

  lemma ActionOfEvent(action: string, date: Json, actor: string)
    ensures Action(Event(action, date)) == action
    ensures Action(EventBy(action, date, actor)) == action
  {
  }

  /** The actions of consecutive event lists are the actions of each, in turn. */
  lemma {:induction false} ActionsAppend(s: seq<Json>, t: seq<Json>)
    ensures Actions(s + t) == Actions(s) + Actions(t)
    decreases |t|
  {
    if t != [] {
      var init := t[..|t| - 1];
      assert (s + t)[..|s + t| - 1] == s + init;
      assert (s + t)[|s + t| - 1] == t[|t| - 1];
      ActionsAppend(s, init);
    }
  }

  /** An optional element: `[x]` when `present`, else nothing. */
  function When<T>(present: bool, x: T): seq<T>
  {
    if present then [x] else []
  }

  /** `if present: lst.append(x)`, the step every transformer repeats. */
  method AppendWhen<T>(lst: seq<T>, present: bool, x: T) returns (r: seq<T>)
    ensures r == lst + When(present, x)
  {
    r := lst;
    if present {
      r := r + [x];
    }
  }

  /** `to_rfc3339(unwrap_datetime(t))`: the event date of the transformers that format dates. */
  function Rfc3339Date(cfg: Config, t: IdlDateTime): Json
  {
    JStr(cfg.toRfc3339(UnwrapDatetime(t)))
  }

  /** `unwrap_datetime(t)` left in the document as a datetime object. */
  function RawDate(t: IdlDateTime): Json
  {
    JDateTime(UnwrapDatetime(t))
  }

  /** An event date: formatted with `to_rfc3339` by the transformers that do so, else the raw datetime. */
  function EventDate(cfg: Config, t: IdlDateTime, formatted: bool): Json
  {
    if formatted then Rfc3339Date(cfg, t) else RawDate(t)
  }

  /**
   * The events every transformer appends after its first ones: `last changed`
   * when the change date is present, then `transfer` when the transfer date is.
   */
  function ChangeEvents(cfg: Config, changed: Option<IdlDateTime>, transfer: Option<IdlDateTime>, formatted: bool): seq<Json>
  {
    (if Nonempty(OptObject(changed)) then [Event("last changed", EventDate(cfg, changed.value, formatted))] else [])
    + (if Nonempty(OptObject(transfer)) then [Event("transfer", EventDate(cfg, transfer.value, formatted))] else [])
  }

  /** The two conditional appends, as the transformers write them. */
  method AppendChangeEvents(cfg: Config, events: seq<Json>, changed: Option<IdlDateTime>,
                            transfer: Option<IdlDateTime>, formatted: bool) returns (r: seq<Json>)
    ensures r == events + ChangeEvents(cfg, changed, transfer, formatted)
  {
    r := events;
    if Nonempty(OptObject(changed)) {
      r := r + [Event("last changed", EventDate(cfg, changed.value, formatted))];
    }
    if Nonempty(OptObject(transfer)) {
      r := r + [Event("transfer", EventDate(cfg, transfer.value, formatted))];
    }
  }

  /** The appended events are `last changed` then `transfer`, each exactly when its date is present. */
  lemma ChangeEventActions(cfg: Config, changed: Option<IdlDateTime>, transfer: Option<IdlDateTime>, formatted: bool)
    ensures Actions(ChangeEvents(cfg, changed, transfer, formatted))
         == When(changed.Some?, "last changed") + When(transfer.Some?, "transfer")
  {
    var c := if Nonempty(OptObject(changed)) then [Event("last changed", EventDate(cfg, changed.value, formatted))] else [];
    var t := if Nonempty(OptObject(transfer)) then [Event("transfer", EventDate(cfg, transfer.value, formatted))] else [];
    ActionsAppend(c, t);
    if changed.Some? { ActionOfEvent("last changed", EventDate(cfg, changed.value, formatted), ""); }
    if transfer.Some? { ActionOfEvent("transfer", EventDate(cfg, transfer.value, formatted), ""); }
  }

  // ---------------------------------------------------------------- vCard properties

  /** A jCard property: name, parameters, value type and value. */
  function VProp(name: string, params: Doc, vtype: string, value: Json): Json
  {
    JArr([JStr(name), JObj(params), JStr(vtype), value])
  }

  /** The name of a jCard property, or "" for anything else. */
  function PropName(p: Json): string
  {
    if p.JArr? && |p.items| > 0 && p.items[0].JStr? then p.items[0].s else ""
  }

  function PropNames(props: seq<Json>): (r: seq<string>)
    ensures |r| == |props|
    ensures forall i :: 0 <= i < |props| ==> r[i] == PropName(props[i])
  {
    if props == [] then [] else PropNames(props[..|props| - 1]) + [PropName(props[|props| - 1])]
  }

  /** The names of consecutive property lists are the names of each, in turn. */
  lemma {:induction false} PropNamesAppend(s: seq<Json>, t: seq<Json>)
    ensures PropNames(s + t) == PropNames(s) + PropNames(t)
    decreases |t|
  {
    if t != [] {
      var init := t[..|t| - 1];
      assert (s + t)[..|s + t| - 1] == s + init;
      assert (s + t)[|s + t| - 1] == t[|t| - 1];
      PropNamesAppend(s, init);
    }
  }

  /** The names of three consecutive property lists. */
  lemma PropNamesOfThree(a: seq<Json>, b: seq<Json>, c: seq<Json>)
    ensures PropNames(a + b + c) == PropNames(a) + PropNames(b) + PropNames(c)
  {
    PropNamesAppend(a, b);
    PropNamesAppend(a + b, c);
  }

  /** An optional property contributes its name exactly when it is present. */
  lemma PropNamesWhen(present: bool, name: string, params: Doc, vtype: string, value: Json)
    ensures PropNames(When(present, VProp(name, params, vtype, value))) == When(present, name)
  {
    if present {
      assert PropNames([VProp(name, params, vtype, value)]) == PropNames([]) + [name];
    }
  }
}

