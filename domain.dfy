/**
 * The domain transformer. A domain marked as a delete candidate gets a
 * reduced document; any other domain gets its contacts, events and statuses,
 * and, when it names an nsset or a keyset, the transformer looks that object
 * up in the registry and embeds its nameservers or DNS keys. Those two inner
 * lookups may raise, and the error then leaves the transformer unchanged.
 */
module Domain {
  import opened Wrappers
  import opened Json
  import opened Registry
  import opened RdapUtils
  import Nsset
  import Keyset

  // ---------------------------------------------------------------- delete candidates

  /** A domain is routed to the reduced document when `deleteCandidate` is among its statuses. */
  predicate IsDeleteCandidate(d: Domain)
  {
    Nonempty(PyList(|d.statuses|)) && "deleteCandidate" in d.statuses
  }

  /** The identity fields both domain documents start with: conformance, class, name, self link and whois host. */
  function DomainLiteral(cfg: Config, d: Domain): Doc
  {
    map[
      "objectClassName" := JStr(DOMAIN_CLASS),
      "rdapConformance" := JArr([JStr("rdap_level_0"), JStr("fred_version_0")]),
      "handle" := JStr(d.handle),
      "ldhName" := JStr(d.handle),
      "links" := JArr([SelfLink(Substitute(cfg.domainUrl, d.handle))]),
      "port43" := JStr(cfg.unixWhoisHost)]
  }

  /** `delete_candidate_domain_to_dict`: identity and link only, with the single status `pending delete`. */
  function DeleteCandidateDocument(cfg: Config, d: Domain): Doc
  {
    var named := AddUnicodeName(DomainLiteral(cfg, d), d.handle, cfg.idnDecode);
    if d.statuses != [] then named["status" := JArr([JStr("pending delete")])] else named
  }

  function DeleteCandidateDict(cfg: Config, s: Option<Domain>): Option<Doc>
  {
    match s
    case None => None
    case Some(d) => Some(DeleteCandidateDocument(cfg, d))
  }

  method DeleteCandidateDomainToDict(cfg: Config, s: Option<Domain>) returns (r: Option<Doc>)
    ensures r == DeleteCandidateDict(cfg, s)
    ensures s.None? <==> r.None?
  {
    if s.None? {
      return None;
    }
    var d := s.value;
    var result := DomainLiteral(cfg, d);
    result := AddUnicodeName(result, d.handle, cfg.idnDecode);
    if d.statuses != [] {
      result := result["status" := JArr([JStr("pending delete")])];
    }
    r := Some(result);
  }

  // ---------------------------------------------------------------- dates

  /** The expiration shown: the actual one when known, else the estimate. */
  function ExpirationDate(d: Domain): IdlDateTime
  {
    if d.expire_time_actual.Some? then d.expire_time_actual.value else d.expire_time_estimate
  }

  /** The end of the ENUM validation: the actual one, else the estimate, else none. */
  function ValidatedToDate(d: Domain): Option<IdlDateTime>
  {
    if d.validated_to_time_actual.Some? then d.validated_to_time_actual
    else if d.validated_to_time_estimate.Some? then d.validated_to_time_estimate
    else None
  }

  // ---------------------------------------------------------------- the base document

  /** Registrant (linked), registrar (no link), then one linked reference per administrative contact. */
  function DomainEntities(cfg: Config, d: Domain): seq<Json>
  {
    [LinkedContact(cfg, d.registrant_handle, "registrant", true),
     EntityRef(d.registrar_handle, "registrar", true, None)]
    + ContactRefs(cfg, d.admin_contact_handles, "administrative", true)
  }

  /** The validation event, when there is a validation date. */
  function ValidationEvents(cfg: Config, d: Domain): seq<Json>
  {
    var v := ValidatedToDate(d);
    if v.Some? then [Event("enum validation expiration", Rfc3339Date(cfg, v.value))] else []
  }

  /** Registration and expiration, the change events, then the validation event; all dates formatted. */
  function DomainEvents(cfg: Config, d: Domain): seq<Json>
  {
    [Event("registration", Rfc3339Date(cfg, d.registered)),
     Event("expiration", Rfc3339Date(cfg, ExpirationDate(d)))]
    + ChangeEvents(cfg, d.changed, d.last_transfer, true)
    + ValidationEvents(cfg, d)
  }

  /** The identity literal with `unicodeName` added, as the head starts. */
  function NamedLiteral(cfg: Config, d: Domain): Doc
  {
    AddUnicodeName(DomainLiteral(cfg, d), d.handle, cfg.idnDecode)
  }

  /** The literal without its two lists, with `unicodeName` and the mapped `status` when non-empty. */
  function DomainHead(cfg: Config, d: Domain): Doc
  {
    var named := NamedLiteral(cfg, d);
    var status := RdapStatusMapping(d.statuses);
    if status != [] then named["status" := JArr(JStrs(status))] else named
  }

  function DomainLayout(head: Doc, entities: seq<Json>, events: seq<Json>): Doc
  {
    head["entities" := JArr(entities)]["events" := JArr(events)]
  }

  /** The layout adds the two lists and keeps every other field. */
  lemma DomainLayoutShape(head: Doc, entities: seq<Json>, events: seq<Json>)
    ensures var d := DomainLayout(head, entities, events);
      && d.Keys == head.Keys + {"entities", "events"}
      && d["entities"] == JArr(entities)
      && d["events"] == JArr(events)
      && forall k :: k in head && k != "entities" && k != "events" ==> d[k] == head[k]
  {
  }

  /** The document before the nsset and keyset lookups. */
  function DomainBase(cfg: Config, d: Domain): Doc
  {
    DomainLayout(DomainHead(cfg, d), DomainEntities(cfg, d), DomainEvents(cfg, d))
  }

  // ---------------------------------------------------------------- nsset and keyset

  /** `fred_nsset`: the nsset's identity, its self link and the same nameserver entries as `nameservers`. */
  function FredNsset(cfg: Config, n: NSSet, nameservers: seq<Json>): Doc
  {
    map[
      "objectClassName" := JStr(NSSET_CLASS),
      "handle" := JStr(n.handle),
      "links" := JArr([SelfLink(Substitute(cfg.nssetUrl, n.handle))]),
      "nameservers" := JArr(nameservers)]
  }

  function WithNsset(cfg: Config, doc: Doc, n: NSSet): Doc
  {
    var entries := Nsset.NameserverEntries(cfg, n.nservers);
    doc["nameservers" := JArr(entries)]["fred_nsset" := JObj(FredNsset(cfg, n, entries))]
  }

  /** `secureDNS`: both signing flags set, the configured signature lifetime and the key entries. */
  function SecureDns(cfg: Config, keyData: seq<Json>): Doc
  {
    map[
      "zoneSigned" := JBool(true),
      "delegationSigned" := JBool(true),
      "maxSigLife" := JInt(cfg.dnsMaxSigLife),
      "keyData" := JArr(keyData)]
  }

  /** `fred_keyset`: the keyset's identity, its self link and the same key entries as `keyData`. */
  function FredKeyset(cfg: Config, k: KeySet, keys: seq<Json>): Doc
  {
    map[
      "objectClassName" := JStr(KEYSET_CLASS),
      "handle" := JStr(k.handle),
      "links" := JArr([SelfLink(Substitute(cfg.keysetUrl, k.handle))]),
      "dns_keys" := JArr(keys)]
  }

  function WithKeyset(cfg: Config, doc: Doc, k: KeySet): Doc
  {
    var entries := Keyset.KeyEntries(k.dns_keys);
    doc["secureDNS" := JObj(SecureDns(cfg, entries))]["fred_keyset" := JObj(FredKeyset(cfg, k, entries))]
  }

  /** The nsset is looked up only when the domain names one. */
  predicate HasNsset(d: Domain) { Nonempty(OptString(d.nsset_handle)) }
  predicate HasKeyset(d: Domain) { Nonempty(OptString(d.keyset_handle)) }

  /** The nsset step: no handle or no record leaves the document alone; a raised error ends the transformer. */
  function NssetStep(cfg: Config, w: Backend, d: Domain, doc: Doc): Fetch<Doc>
  {
    if !HasNsset(d) then Fetched(doc)
    else match w.nssetByHandle(d.nsset_handle.value)
      case Raised(e) => Raised(e)
      case Fetched(None) => Fetched(doc)
      case Fetched(Some(n)) => Fetched(WithNsset(cfg, doc, n))
  }

  function KeysetStep(cfg: Config, w: Backend, d: Domain, doc: Doc): Fetch<Doc>
  {
    if !HasKeyset(d) then Fetched(doc)
    else match w.keysetByHandle(d.keyset_handle.value)
      case Raised(e) => Raised(e)
      case Fetched(None) => Fetched(doc)
      case Fetched(Some(k)) => Fetched(WithKeyset(cfg, doc, k))
  }

  /** The outcome for one domain record. */
  function DomainResult(cfg: Config, w: Backend, d: Domain): Fetch<Doc>
  {
    if IsDeleteCandidate(d) then Fetched(DeleteCandidateDocument(cfg, d))
    else match NssetStep(cfg, w, d, DomainBase(cfg, d))
      case Raised(e) => Raised(e)
      case Fetched(doc) => KeysetStep(cfg, w, d, doc)
  }

  /** `domain_to_dict` as a value: no record gives no document; an inner lookup's error is passed on. */
  function DomainDict(cfg: Config, w: Backend, s: Option<Domain>): Fetch<Option<Doc>>
  {
    match s
    case None => Fetched(None)
    case Some(d) =>
      match DomainResult(cfg, w, d)
      case Raised(e) => Raised(e)
      case Fetched(doc) => Fetched(Some(doc))
  }

  // ---------------------------------------------------------------- the transformer

  method BuildDomainEntities(cfg: Config, d: Domain) returns (entities: seq<Json>)
    ensures entities == DomainEntities(cfg, d)
  {
    entities := [LinkedContact(cfg, d.registrant_handle, "registrant", true),
                 EntityRef(d.registrar_handle, "registrar", true, None)];
    var admins := BuildContactRefs(cfg, d.admin_contact_handles, "administrative", true);
    entities := entities + admins;
  }

  method BuildDomainEvents(cfg: Config, d: Domain) returns (events: seq<Json>)
    ensures events == DomainEvents(cfg, d)
  {
    var expiration := if d.expire_time_actual.Some? then d.expire_time_actual.value else d.expire_time_estimate;
    events := [Event("registration", Rfc3339Date(cfg, d.registered)),
               Event("expiration", Rfc3339Date(cfg, expiration))];
    events := AppendChangeEvents(cfg, events, d.changed, d.last_transfer, true);
    var validatedTo: Option<IdlDateTime>;
    if d.validated_to_time_actual.Some? {
      validatedTo := d.validated_to_time_actual;
    } else if d.validated_to_time_estimate.Some? {
      validatedTo := d.validated_to_time_estimate;
    } else {
      validatedTo := None;
    }
    if validatedTo.Some? {
      events := events + [Event("enum validation expiration", Rfc3339Date(cfg, validatedTo.value))];
    }
  }

  /** One loop fills both nameserver lists with the same entries. */
  method BuildDelegation(cfg: Config, nss: seq<NameServer>) returns (nameservers: seq<Json>, fredNameservers: seq<Json>)
    ensures nameservers == Nsset.NameserverEntries(cfg, nss)
    ensures fredNameservers == Nsset.NameserverEntries(cfg, nss)
  {
    nameservers := [];
    fredNameservers := [];
    for i := 0 to |nss|
      invariant nameservers == Nsset.NameserverEntries(cfg, nss[..i])
      invariant fredNameservers == nameservers
    {
      assert nss[..i + 1][..i] == nss[..i];
      var entry := Nsset.BuildNameserverEntry(cfg, nss[i]);
      nameservers := nameservers + [JObj(entry)];
      fredNameservers := fredNameservers + [JObj(entry)];
    }
  }

  /** One loop fills `keyData` and `dns_keys` with the same key entries. */
  method BuildKeyData(keys: seq<DNSKey>) returns (keyData: seq<Json>, dnsKeys: seq<Json>)
    ensures keyData == Keyset.KeyEntries(keys)
    ensures dnsKeys == Keyset.KeyEntries(keys)
  {
    keyData := [];
    dnsKeys := [];
    for i := 0 to |keys|
      invariant keyData == Keyset.KeyEntries(keys[..i])
      invariant dnsKeys == keyData
    {
      assert keys[..i + 1][..i] == keys[..i];
      keyData := keyData + [Keyset.KeyJson(keys[i])];
      dnsKeys := dnsKeys + [Keyset.KeyJson(keys[i])];
    }
  }

  method AttachNsset(cfg: Config, w: Backend, d: Domain, doc: Doc) returns (r: Fetch<Doc>)
    ensures r == NssetStep(cfg, w, d, doc)
  {
    if !Nonempty(OptString(d.nsset_handle)) {
      return Fetched(doc);
    }
    var fetched := w.nssetByHandle(d.nsset_handle.value);
    if fetched.Raised? {
      return Raised(fetched.error);
    }
    if fetched.value.None? {
      return Fetched(doc);
    }
    var n := fetched.value.value;
    var nameservers, fredNameservers := BuildDelegation(cfg, n.nservers);
    r := Fetched(doc["nameservers" := JArr(nameservers)]["fred_nsset" := JObj(FredNsset(cfg, n, fredNameservers))]);
  }

  method AttachKeyset(cfg: Config, w: Backend, d: Domain, doc: Doc) returns (r: Fetch<Doc>)
    ensures r == KeysetStep(cfg, w, d, doc)
  {
    if !Nonempty(OptString(d.keyset_handle)) {
      return Fetched(doc);
    }
    var fetched := w.keysetByHandle(d.keyset_handle.value);
    if fetched.Raised? {
      return Raised(fetched.error);
    }
    if fetched.value.None? {
      return Fetched(doc);
    }
    var k := fetched.value.value;
    var keyData, dnsKeys := BuildKeyData(k.dns_keys);
    r := Fetched(doc["secureDNS" := JObj(SecureDns(cfg, keyData))]["fred_keyset" := JObj(FredKeyset(cfg, k, dnsKeys))]);
  }

  /** `domain_to_dict`: routes delete candidates, builds the document, then attaches nsset and keyset. */
  method DomainToDict(cfg: Config, w: Backend, s: Option<Domain>) returns (r: Fetch<Option<Doc>>)
    ensures r == DomainDict(cfg, w, s)
  {
    if s.None? {
      return Fetched(None);
    }
    var d := s.value;
    if Nonempty(PyList(|d.statuses|)) {
      if "deleteCandidate" in d.statuses {
        var reduced := DeleteCandidateDomainToDict(cfg, s);
        return Fetched(reduced);
      }
    }
    var result := DomainHead(cfg, d);
    var entities := BuildDomainEntities(cfg, d);
    var events := BuildDomainEvents(cfg, d);
    result := result["entities" := JArr(entities)]["events" := JArr(events)];
    var withNsset := AttachNsset(cfg, w, d, result);
    if withNsset.Raised? {
      return Raised(withNsset.error);
    }
    var withKeyset := AttachKeyset(cfg, w, d, withNsset.value);
    if withKeyset.Raised? {
      return Raised(withKeyset.error);
    }
    r := Fetched(Some(withKeyset.value));
  }

  // ---------------------------------------------------------------- properties

  /** Routing tests only for `deleteCandidate`: the truthiness guard on the status list always holds. */
  lemma DeleteCandidateRouting(cfg: Config, w: Backend, d: Domain)
    ensures IsDeleteCandidate(d) <==> "deleteCandidate" in d.statuses
    ensures "deleteCandidate" in d.statuses ==> DomainResult(cfg, w, d) == Fetched(DeleteCandidateDocument(cfg, d))
  {
  }

  /**
   * A delete candidate's document has the identity fields, its self link, the
   * whois host, `unicodeName` for an internationalised name, and the single
   * status `pending delete`; no events, contacts or delegation.
   */
  lemma DeleteCandidateShape(cfg: Config, d: Domain)
    requires "deleteCandidate" in d.statuses
    ensures var r := DeleteCandidateDocument(cfg, d);
      && r.Keys == {"objectClassName", "rdapConformance", "handle", "ldhName", "links", "port43", "status"}
                   + (if cfg.idnDecode(d.handle) != d.handle then {"unicodeName"} else {})
      && r["status"] == JArr([JStr("pending delete")])
      && r["objectClassName"] == JStr(DOMAIN_CLASS)
      && r["ldhName"] == JStr(d.handle)
      && r["links"] == JArr([SelfLink(Substitute(cfg.domainUrl, d.handle))])
  {
    AddUnicodeNameSpec(DomainLiteral(cfg, d), d.handle, cfg.idnDecode);
  }

  lemma DomainHeadKeys(cfg: Config, d: Domain)
    ensures DomainHead(cfg, d).Keys
         == {"rdapConformance", "objectClassName", "handle", "ldhName", "links", "port43"}
            + (if cfg.idnDecode(d.handle) != d.handle then {"unicodeName"} else {})
            + (if RdapStatusMapping(d.statuses) != [] then {"status"} else {})
  {
    AddUnicodeNameSpec(DomainLiteral(cfg, d), d.handle, cfg.idnDecode);
  }

  /**
   * The head names the domain by its handle (as `handle` and `ldhName`),
   * links to itself, names the whois host, carries the decoded name when it
   * differs, and carries the mapped statuses exactly when there are any.
   */
  lemma DomainHeadFields(cfg: Config, d: Domain)
    ensures var h := DomainHead(cfg, d);
      var status := RdapStatusMapping(d.statuses);
      && (status != [] ==> "status" in h && h["status"] == JArr(JStrs(status)))
      && (status == [] ==> "status" !in h)
      && "rdapConformance" in h && h["rdapConformance"] == JArr([JStr("rdap_level_0"), JStr("fred_version_0")])
      && "objectClassName" in h && h["objectClassName"] == JStr(DOMAIN_CLASS)
      && "handle" in h && h["handle"] == JStr(d.handle)
      && "ldhName" in h && h["ldhName"] == JStr(d.handle)
      && "links" in h && h["links"] == JArr([SelfLink(Substitute(cfg.domainUrl, d.handle))])
      && "port43" in h && h["port43"] == JStr(cfg.unixWhoisHost)
      && (cfg.idnDecode(d.handle) != d.handle ==> "unicodeName" in h && h["unicodeName"] == JStr(cfg.idnDecode(d.handle)))
  {
    NamedLiteralFields(cfg, d);
  }

  /** The literal's identity values, and the decoded name when it differs; it has no `status` of its own. */
  lemma NamedLiteralFields(cfg: Config, d: Domain)
    ensures var h := NamedLiteral(cfg, d);
      && "status" !in h
      && "rdapConformance" in h && h["rdapConformance"] == JArr([JStr("rdap_level_0"), JStr("fred_version_0")])
      && "objectClassName" in h && h["objectClassName"] == JStr(DOMAIN_CLASS)
      && "handle" in h && h["handle"] == JStr(d.handle)
      && "ldhName" in h && h["ldhName"] == JStr(d.handle)
      && "links" in h && h["links"] == JArr([SelfLink(Substitute(cfg.domainUrl, d.handle))])
      && "port43" in h && h["port43"] == JStr(cfg.unixWhoisHost)
      && (cfg.idnDecode(d.handle) != d.handle ==> "unicodeName" in h && h["unicodeName"] == JStr(cfg.idnDecode(d.handle)))
  {
    AddUnicodeNameSpec(DomainLiteral(cfg, d), d.handle, cfg.idnDecode);
  }

  /** Every field of the head reaches the full document unchanged, whatever the two lookups add. */
  lemma DomainDocumentKeepsHead(cfg: Config, w: Backend, d: Domain)
    requires !IsDeleteCandidate(d)
    requires DomainResult(cfg, w, d).Fetched?
    ensures var doc := DomainResult(cfg, w, d).value;
      var h := DomainHead(cfg, d);
      forall k :: k in h ==> k in doc && doc[k] == h[k]
  {
    var h := DomainHead(cfg, d);
    var base := DomainBase(cfg, d);
    DomainHeadHasNoLists(cfg, d);
    DomainLayoutShape(h, DomainEntities(cfg, d), DomainEvents(cfg, d));
    assert forall k :: k in h ==> k in base && base[k] == h[k];
    DomainResultKeepsBase(cfg, w, d);
  }

  /** The head leaves room for the two lists the layout adds. */
  lemma DomainHeadHasNoLists(cfg: Config, d: Domain)
    ensures "entities" !in DomainHead(cfg, d) && "events" !in DomainHead(cfg, d)
  {
    AddUnicodeNameSpec(DomainLiteral(cfg, d), d.handle, cfg.idnDecode);
  }

  /**
   * A full domain document carries the head's values: the handle as `handle`
   * and `ldhName`, its self link, the whois host as `port43`, and the mapped
   * statuses as `status` when there are any.
   */
  lemma DomainDocumentFields(cfg: Config, w: Backend, d: Domain)
    requires !IsDeleteCandidate(d)
    requires DomainResult(cfg, w, d).Fetched?
    ensures var doc := DomainResult(cfg, w, d).value;
      var status := RdapStatusMapping(d.statuses);
      && (status != [] ==> "status" in doc && doc["status"] == JArr(JStrs(status)))
      && "objectClassName" in doc && doc["objectClassName"] == JStr(DOMAIN_CLASS)
      && "handle" in doc && doc["handle"] == JStr(d.handle)
      && "ldhName" in doc && doc["ldhName"] == JStr(d.handle)
      && "links" in doc && doc["links"] == JArr([SelfLink(Substitute(cfg.domainUrl, d.handle))])
      && "port43" in doc && doc["port43"] == JStr(cfg.unixWhoisHost)
  {
    DomainHeadFields(cfg, d);
    DomainDocumentKeepsHead(cfg, w, d);
  }

  /**
   * Before delegation, a domain document has the identity fields, its
   * contacts and events, `unicodeName` for an internationalised name and
   * `status` exactly when the mapped statuses are non-empty.
   */
  lemma DomainBaseKeys(cfg: Config, d: Domain)
    ensures DomainBase(cfg, d).Keys
         == {"rdapConformance", "objectClassName", "handle", "ldhName", "links", "port43", "entities", "events"}
            + (if cfg.idnDecode(d.handle) != d.handle then {"unicodeName"} else {})
            + (if RdapStatusMapping(d.statuses) != [] then {"status"} else {})
  {
    DomainHeadKeys(cfg, d);
    DomainLayoutShape(DomainHead(cfg, d), DomainEntities(cfg, d), DomainEvents(cfg, d));
  }

  /** The two lists of the base document are the contacts and the events. */
  lemma DomainBaseListsAre(cfg: Config, d: Domain)
    ensures var b := DomainBase(cfg, d);
      && b["entities"] == JArr(DomainEntities(cfg, d))
      && b["events"] == JArr(DomainEvents(cfg, d))
  {
    DomainLayoutShape(DomainHead(cfg, d), DomainEntities(cfg, d), DomainEvents(cfg, d));
  }

  lemma DomainEntitiesShape(cfg: Config, d: Domain)
    ensures var es := DomainEntities(cfg, d);
      && |es| == 2 + |d.admin_contact_handles|
      && es[0] == LinkedContact(cfg, d.registrant_handle, "registrant", true)
      && es[1] == EntityRef(d.registrar_handle, "registrar", true, None)
      && forall i :: 0 <= i < |d.admin_contact_handles| ==>
           es[i + 2] == LinkedContact(cfg, d.admin_contact_handles[i], "administrative", true)
  {
    var es := DomainEntities(cfg, d);
    forall i | 0 <= i < |d.admin_contact_handles|
      ensures es[i + 2] == LinkedContact(cfg, d.admin_contact_handles[i], "administrative", true)
    {
    }
  }

  /** Registrant first, registrar second, then the administrative contacts in order. */
  lemma DomainBaseEntities(cfg: Config, d: Domain)
    ensures var es := Items(DomainBase(cfg, d)["entities"]);
      && |es| == 2 + |d.admin_contact_handles|
      && es[0] == LinkedContact(cfg, d.registrant_handle, "registrant", true)
      && es[1] == EntityRef(d.registrar_handle, "registrar", true, None)
      && forall i :: 0 <= i < |d.admin_contact_handles| ==>
           es[i + 2] == LinkedContact(cfg, d.admin_contact_handles[i], "administrative", true)
  {
    DomainBaseListsAre(cfg, d);
    DomainEntitiesShape(cfg, d);
  }

  lemma ValidationEventActions(cfg: Config, d: Domain)
    ensures Actions(ValidationEvents(cfg, d))
         == When(d.validated_to_time_actual.Some? || d.validated_to_time_estimate.Some?, "enum validation expiration")
  {
    var v := ValidatedToDate(d);
    if v.Some? {
      ActionOfEvent("enum validation expiration", Rfc3339Date(cfg, v.value), "");
      assert Actions(ValidationEvents(cfg, d)) == Actions([]) + [Action(ValidationEvents(cfg, d)[0])];
    }
  }

  lemma FirstEventActions(cfg: Config, d: Domain)
    ensures Actions([Event("registration", Rfc3339Date(cfg, d.registered)),
                     Event("expiration", Rfc3339Date(cfg, ExpirationDate(d)))])
         == ["registration", "expiration"]
  {
    ActionOfEvent("registration", Rfc3339Date(cfg, d.registered), "");
    ActionOfEvent("expiration", Rfc3339Date(cfg, ExpirationDate(d)), "");
  }

  /**
   * Events: registration, expiration, then last changed and transfer when
   * those dates are present, then the validation end when either validation
   * date is present.
   */
  lemma DomainEventActions(cfg: Config, d: Domain)
    ensures Actions(DomainEvents(cfg, d))
         == ["registration", "expiration"]
            + (When(d.changed.Some?, "last changed") + When(d.last_transfer.Some?, "transfer"))
            + When(d.validated_to_time_actual.Some? || d.validated_to_time_estimate.Some?, "enum validation expiration")
  {
    var first := [Event("registration", Rfc3339Date(cfg, d.registered)),
                  Event("expiration", Rfc3339Date(cfg, ExpirationDate(d)))];
    var changes := ChangeEvents(cfg, d.changed, d.last_transfer, true);
    var validation := ValidationEvents(cfg, d);
    calc {
      Actions(DomainEvents(cfg, d));
      Actions(first + changes + validation);
      { ActionsAppend(first + changes, validation); }
      Actions(first + changes) + Actions(validation);
      { ActionsAppend(first, changes); }
      Actions(first) + Actions(changes) + Actions(validation);
      { FirstEventActions(cfg, d);
        ChangeEventActions(cfg, d.changed, d.last_transfer, true);
        ValidationEventActions(cfg, d); }
      ["registration", "expiration"]
      + (When(d.changed.Some?, "last changed") + When(d.last_transfer.Some?, "transfer"))
      + When(d.validated_to_time_actual.Some? || d.validated_to_time_estimate.Some?, "enum validation expiration");
    }
  }

  /** The document's `events` list has exactly those actions, in that order. */
  lemma DomainBaseEvents(cfg: Config, d: Domain)
    ensures Actions(Items(DomainBase(cfg, d)["events"]))
         == ["registration", "expiration"]
            + (When(d.changed.Some?, "last changed") + When(d.last_transfer.Some?, "transfer"))
            + When(d.validated_to_time_actual.Some? || d.validated_to_time_estimate.Some?, "enum validation expiration")
  {
    DomainBaseListsAre(cfg, d);
    DomainEventActions(cfg, d);
  }

  /**
   * The expiration event carries the actual expiration when the registry
   * knows it and the estimate otherwise; the validation event likewise
   * prefers the actual date.
   */
  lemma DomainEventDates(cfg: Config, d: Domain)
    ensures var ev := DomainEvents(cfg, d);
      && |ev| >= 2
      && (d.expire_time_actual.Some? ==> ev[1] == Event("expiration", Rfc3339Date(cfg, d.expire_time_actual.value)))
      && (d.expire_time_actual.None? ==> ev[1] == Event("expiration", Rfc3339Date(cfg, d.expire_time_estimate)))
      && (d.validated_to_time_actual.Some? ==>
            ev[|ev| - 1] == Event("enum validation expiration", Rfc3339Date(cfg, d.validated_to_time_actual.value)))
      && (d.validated_to_time_actual.None? && d.validated_to_time_estimate.Some? ==>
            ev[|ev| - 1] == Event("enum validation expiration", Rfc3339Date(cfg, d.validated_to_time_estimate.value)))
  {
  }

  /** Adding an nsset sets `nameservers` and `fred_nsset`, whose own `nameservers` is the same list. */
  lemma WithNssetShape(cfg: Config, doc: Doc, n: NSSet)
    ensures var r := WithNsset(cfg, doc, n);
      var entries := Nsset.NameserverEntries(cfg, n.nservers);
      && r.Keys == doc.Keys + {"nameservers", "fred_nsset"}
      && r["nameservers"] == JArr(entries)
      && r["fred_nsset"] == JObj(FredNsset(cfg, n, entries))
      && r["fred_nsset"].fields["nameservers"] == r["nameservers"]
      && forall k :: k in doc && k != "nameservers" && k != "fred_nsset" ==> r[k] == doc[k]
  {
  }

  /**
   * Adding a keyset sets `secureDNS` and `fred_keyset`; `keyData` and
   * `dns_keys` are the same list, from which the keys read back unchanged.
   */
  lemma WithKeysetShape(cfg: Config, doc: Doc, k: KeySet)
    ensures var r := WithKeyset(cfg, doc, k);
      var entries := Keyset.KeyEntries(k.dns_keys);
      && r.Keys == doc.Keys + {"secureDNS", "fred_keyset"}
      && r["secureDNS"] == JObj(SecureDns(cfg, entries))
      && r["fred_keyset"] == JObj(FredKeyset(cfg, k, entries))
      && r["secureDNS"].fields["keyData"] == r["fred_keyset"].fields["dns_keys"]
      && Keyset.KeysOf(entries) == Some(k.dns_keys)
      && forall key :: key in doc && key != "secureDNS" && key != "fred_keyset" ==> r[key] == doc[key]
  {
    Keyset.KeyEntriesRoundTrip(k.dns_keys);
  }

  /** A keyset step that succeeds keeps `nameservers` and `fred_nsset` as they were. */
  lemma KeysetStepKeeps(cfg: Config, w: Backend, d: Domain, doc: Doc)
    requires KeysetStep(cfg, w, d, doc).Fetched?
    ensures var r := KeysetStep(cfg, w, d, doc).value;
      && doc.Keys <= r.Keys
      && forall key :: key in doc && key != "secureDNS" && key != "fred_keyset" ==> r[key] == doc[key]
  {
    if HasKeyset(d) && w.keysetByHandle(d.keyset_handle.value).value.Some? {
      WithKeysetShape(cfg, doc, w.keysetByHandle(d.keyset_handle.value).value.value);
    }
  }

  /**
   * When the domain's nsset is found, the document lists its nameservers, and
   * `fred_nsset` names the nsset, links to it and lists the same entries.
   */
  lemma DomainEmbedsNsset(cfg: Config, w: Backend, d: Domain, n: NSSet)
    requires !IsDeleteCandidate(d) && HasNsset(d)
    requires w.nssetByHandle(d.nsset_handle.value) == Fetched(Some(n))
    requires DomainResult(cfg, w, d).Fetched?
    ensures var doc := DomainResult(cfg, w, d).value;
      var entries := Nsset.NameserverEntries(cfg, n.nservers);
      && "nameservers" in doc && doc["nameservers"] == JArr(entries)
      && "fred_nsset" in doc && doc["fred_nsset"] == JObj(FredNsset(cfg, n, entries))
  {
    var withNsset := WithNsset(cfg, DomainBase(cfg, d), n);
    WithNssetShape(cfg, DomainBase(cfg, d), n);
    KeysetStepKeeps(cfg, w, d, withNsset);
  }

  /**
   * When the domain's keyset is found, `secureDNS` declares the zone and the
   * delegation signed with the configured signature lifetime and lists the
   * keys, and `fred_keyset` lists the same keys.
   */
  lemma DomainEmbedsKeyset(cfg: Config, w: Backend, d: Domain, k: KeySet)
    requires !IsDeleteCandidate(d) && HasKeyset(d)
    requires w.keysetByHandle(d.keyset_handle.value) == Fetched(Some(k))
    requires DomainResult(cfg, w, d).Fetched?
    ensures var doc := DomainResult(cfg, w, d).value;
      var entries := Keyset.KeyEntries(k.dns_keys);
      && "secureDNS" in doc && doc["secureDNS"] == JObj(SecureDns(cfg, entries))
      && "fred_keyset" in doc && doc["fred_keyset"] == JObj(FredKeyset(cfg, k, entries))
      && Keyset.KeysOf(entries) == Some(k.dns_keys)
  {
    var withNsset := NssetStep(cfg, w, d, DomainBase(cfg, d)).value;
    WithKeysetShape(cfg, withNsset, k);
  }

  /** The nsset step, when it succeeds, changes at most `nameservers` and `fred_nsset`. */
  lemma NssetStepKeeps(cfg: Config, w: Backend, d: Domain, doc: Doc)
    requires NssetStep(cfg, w, d, doc).Fetched?
    ensures var r := NssetStep(cfg, w, d, doc).value;
      && doc.Keys <= r.Keys
      && forall key :: key in doc && key != "nameservers" && key != "fred_nsset" ==> r[key] == doc[key]
  {
    if HasNsset(d) && w.nssetByHandle(d.nsset_handle.value).value.Some? {
      WithNssetShape(cfg, doc, w.nssetByHandle(d.nsset_handle.value).value.value);
    }
  }

  /** The base document has none of the four keys the lookups add. */
  lemma DomainBaseHasNoDelegation(cfg: Config, d: Domain)
    ensures var b := DomainBase(cfg, d);
      "nameservers" !in b && "fred_nsset" !in b && "secureDNS" !in b && "fred_keyset" !in b
  {
    DomainHeadHasNoDelegation(cfg, d);
    DomainLayoutShape(DomainHead(cfg, d), DomainEntities(cfg, d), DomainEvents(cfg, d));
  }

  lemma DomainHeadHasNoDelegation(cfg: Config, d: Domain)
    ensures var h := DomainHead(cfg, d);
      "nameservers" !in h && "fred_nsset" !in h && "secureDNS" !in h && "fred_keyset" !in h
  {
    NamedLiteralHasNoDelegation(cfg, d);
  }

  lemma NamedLiteralHasNoDelegation(cfg: Config, d: Domain)
    ensures var h := NamedLiteral(cfg, d);
      "nameservers" !in h && "fred_nsset" !in h && "secureDNS" !in h && "fred_keyset" !in h
  {
    AddUnicodeNameSpec(DomainLiteral(cfg, d), d.handle, cfg.idnDecode);
  }

  /** Every field of the base document survives both lookups. */
  lemma DomainResultKeepsBase(cfg: Config, w: Backend, d: Domain)
    requires !IsDeleteCandidate(d)
    requires DomainResult(cfg, w, d).Fetched?
    ensures var doc := DomainResult(cfg, w, d).value;
      var base := DomainBase(cfg, d);
      && base.Keys <= doc.Keys
      && forall key :: key in base ==> doc[key] == base[key]
  {
    var base := DomainBase(cfg, d);
    DomainBaseHasNoDelegation(cfg, d);
    NssetStepKeeps(cfg, w, d, base);
    KeysetStepKeeps(cfg, w, d, NssetStep(cfg, w, d, base).value);
  }

  /** The registry is consulted only for the handles the domain names: backends that agree on those give the same result. */
  lemma LookupsOnlyForNamedHandles(cfg: Config, w1: Backend, w2: Backend, d: Domain)
    requires HasNsset(d) ==> w1.nssetByHandle(d.nsset_handle.value) == w2.nssetByHandle(d.nsset_handle.value)
    requires HasKeyset(d) ==> w1.keysetByHandle(d.keyset_handle.value) == w2.keysetByHandle(d.keyset_handle.value)
    ensures DomainResult(cfg, w1, d) == DomainResult(cfg, w2, d)
  {
    var base := DomainBase(cfg, d);
    StepsAgree(cfg, w1, w2, d, base);
    if NssetStep(cfg, w1, d, base).Fetched? {
      StepsAgree(cfg, w1, w2, d, NssetStep(cfg, w1, d, base).value);
    }
  }

  lemma StepsAgree(cfg: Config, w1: Backend, w2: Backend, d: Domain, doc: Doc)
    requires HasNsset(d) ==> w1.nssetByHandle(d.nsset_handle.value) == w2.nssetByHandle(d.nsset_handle.value)
    requires HasKeyset(d) ==> w1.keysetByHandle(d.keyset_handle.value) == w2.keysetByHandle(d.keyset_handle.value)
    ensures NssetStep(cfg, w1, d, doc) == NssetStep(cfg, w2, d, doc)
    ensures KeysetStep(cfg, w1, d, doc) == KeysetStep(cfg, w2, d, doc)
  {
  }

  /**
   * A domain yields an error exactly when it is not a delete candidate and
   * the nsset lookup raises it, or the nsset lookup does not raise and the
   * keyset lookup does.
   */
  lemma DomainErrors(cfg: Config, w: Backend, d: Domain, e: BackendError)
    ensures DomainResult(cfg, w, d) == Raised(e)
        <==> !IsDeleteCandidate(d)
             && ((HasNsset(d) && w.nssetByHandle(d.nsset_handle.value) == Raised(e))
                 || (!(HasNsset(d) && w.nssetByHandle(d.nsset_handle.value).Raised?)
                     && HasKeyset(d) && w.keysetByHandle(d.keyset_handle.value) == Raised(e)))
  {
  }
}
