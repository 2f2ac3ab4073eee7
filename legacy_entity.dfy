/**
 * The older contact transformer of the top-level `rdap_rest` package. Its
 * backend record has plain optional fields instead of disclosure flags, a
 * missing contact still yields a document, and the jCard, the statuses and the
 * event names follow an earlier draft.
 */
module LegacyEntity {
  import opened Wrappers
  import opened Json
  import opened Registry
  import opened RdapUtils

  /** The contact record of the older backend interface: a field is either absent or shown. */
  datatype LegacyContact = LegacyContact(
    handle: string,
    name: Option<string>,
    organization: Option<string>,
    address: Option<PlaceAddress>,
    phone: Option<string>,
    email: Option<string>,
    creating_registrar_handle: string,
    created: IdlDateTime,
    changed: Option<IdlDateTime>,
    last_transfer: Option<IdlDateTime>,
    statuses: seq<string>)

  /** The document the older transformers give for a missing record: the conformance list alone. */
  function MissingRecordDocument(): Doc
  {
    map["rdapConformance" := JArr([JStr("rdap_level_0")])]
  }

  /** The self link is built from the root URL, not from an entity template. */
  function LegacySelfLink(cfg: Config, handle: string): string
  {
    cfg.rootUrl + "/entity/" + handle
  }

  function LegacyAdrValue(a: PlaceAddress): Json
  {
    JArr(JStrs(["", a.street1, a.street2, a.street3, a.city, a.stateorprovince, a.postalcode, a.country_code]))
  }

  function LegacyVersionProp(): Json { VProp("version", map[], "text", JStr("4.0")) }
  function LegacyFnProp(c: LegacyContact): Json
    requires c.name.Some?
  { VProp("fn", map[], "text", JStr(c.name.value)) }
  function LegacyOrgProp(c: LegacyContact): Json
    requires c.organization.Some?
  { VProp("org", map[], "text", JStr(c.organization.value)) }
  function LegacyAdrProp(c: LegacyContact): Json
    requires c.address.Some?
  { VProp("adr", map["type" := JStr("official")], "text", LegacyAdrValue(c.address.value)) }
  function LegacyTelProp(c: LegacyContact): Json
    requires c.phone.Some?
  { VProp("tel", map["type" := JArr([JStr("official")])], "uri", JStr("tel:" + c.phone.value)) }
  function LegacyEmailProp(c: LegacyContact): Json
    requires c.email.Some?
  { VProp("email", map["type" := JStr("official")], "text", JStr(c.email.value)) }

  function LegacyIdentityProps(c: LegacyContact): seq<Json>
  {
    (if c.name.Some? then [LegacyFnProp(c)] else [])
    + (if c.organization.Some? then [LegacyOrgProp(c)] else [])
    + (if c.address.Some? then [LegacyAdrProp(c)] else [])
  }

  function LegacyReachProps(c: LegacyContact): seq<Json>
  {
    (if c.phone.Some? then [LegacyTelProp(c)] else [])
    + (if c.email.Some? then [LegacyEmailProp(c)] else [])
  }

  /** The jCard: the version, then each field that is present, in a fixed order. */
  function LegacyVCard(c: LegacyContact): seq<Json>
  {
    [LegacyVersionProp()] + LegacyIdentityProps(c) + LegacyReachProps(c)
  }

  /** `last_update` and `last_transfer`, each when its date is present. */
  function LegacyChangeEvents(c: LegacyContact): seq<Json>
  {
    (if c.changed.Some? then [Event("last_update", RawDate(c.changed.value))] else [])
    + (if c.last_transfer.Some? then [Event("last_transfer", RawDate(c.last_transfer.value))] else [])
  }

  /** `created` by the creating registrar, then the change events. */
  function LegacyEvents(c: LegacyContact): seq<Json>
  {
    [EventBy("created", RawDate(c.created), c.creating_registrar_handle)] + LegacyChangeEvents(c)
  }

  function LegacyContactDocument(cfg: Config, c: LegacyContact): Doc
  {
    map[
      "rdapConformance" := JArr([JStr("rdap_level_0")]),
      "handle" := JStr(c.handle),
      "vcardArray" := JArr([JStr("vcard"), JArr(LegacyVCard(c))]),
      "status" := JArr(JStrs(c.statuses)),
      "links" := JArr([SelfLink(LegacySelfLink(cfg, c.handle))]),
      "port43" := JStr(cfg.unixWhoisHost),
      "events" := JArr(LegacyEvents(c))]
  }

  /** The legacy `contact_to_dict` as a value: a document in both cases. */
  function LegacyContactDict(cfg: Config, s: Option<LegacyContact>): Doc
  {
    match s
    case None => MissingRecordDocument()
    case Some(c) => LegacyContactDocument(cfg, c)
  }

  method AppendLegacyIdentity(vcard: seq<Json>, c: LegacyContact) returns (r: seq<Json>)
    ensures r == vcard + LegacyIdentityProps(c)
  {
    r := vcard;
    if c.name.Some? {
      r := r + [LegacyFnProp(c)];
    }
    if c.organization.Some? {
      r := r + [LegacyOrgProp(c)];
    }
    if c.address.Some? {
      r := r + [LegacyAdrProp(c)];
    }
  }

  method AppendLegacyReach(vcard: seq<Json>, c: LegacyContact) returns (r: seq<Json>)
    ensures r == vcard + LegacyReachProps(c)
  {
    r := vcard;
    if c.phone.Some? {
      r := r + [LegacyTelProp(c)];
    }
    if c.email.Some? {
      r := r + [LegacyEmailProp(c)];
    }
  }

  method AppendLegacyChangeEvents(events: seq<Json>, c: LegacyContact) returns (r: seq<Json>)
    ensures r == events + LegacyChangeEvents(c)
  {
    r := events;
    if c.changed.Some? {
      r := r + [Event("last_update", RawDate(c.changed.value))];
    }
    if c.last_transfer.Some? {
      r := r + [Event("last_transfer", RawDate(c.last_transfer.value))];
    }
  }

  /** The legacy `contact_to_dict`: builds the jCard and the events by conditional appends. */
  method LegacyContactToDict(cfg: Config, s: Option<LegacyContact>) returns (r: Doc)
    ensures r == LegacyContactDict(cfg, s)
  {
    if s.None? {
      return MissingRecordDocument();
    }
    var c := s.value;
    var selfLink := cfg.rootUrl + "/entity/" + c.handle;
    var vcard := [LegacyVersionProp()];
    vcard := AppendLegacyIdentity(vcard, c);
    vcard := AppendLegacyReach(vcard, c);
    var events := [EventBy("created", RawDate(c.created), c.creating_registrar_handle)];
    events := AppendLegacyChangeEvents(events, c);
    r := map[
      "rdapConformance" := JArr([JStr("rdap_level_0")]),
      "handle" := JStr(c.handle),
      "vcardArray" := JArr([JStr("vcard"), JArr(vcard)]),
      "status" := JArr(JStrs(c.statuses)),
      "links" := JArr([SelfLink(selfLink)]),
      "port43" := JStr(cfg.unixWhoisHost),
      "events" := JArr(events)];
  }

  /** A missing record gives the conformance list and nothing else, never an empty answer. */
  lemma MissingRecordShape()
    ensures MissingRecordDocument().Keys == {"rdapConformance"}
    ensures MissingRecordDocument()["rdapConformance"] == JArr([JStr("rdap_level_0")])
  {
  }

  /**
   * A present contact has exactly seven keys, with the registry statuses
   * untranslated and no `objectClassName` or `entities`; it links to
   * `<root>/entity/<handle>`.
   */
  lemma LegacyContactKeys(cfg: Config, c: LegacyContact)
    ensures LegacyContactDocument(cfg, c).Keys
         == {"rdapConformance", "handle", "vcardArray", "status", "links", "port43", "events"}
    ensures LegacyContactDocument(cfg, c)["status"] == JArr(JStrs(c.statuses))
    ensures LegacyContactDocument(cfg, c)["links"] == JArr([SelfLink(cfg.rootUrl + "/entity/" + c.handle)])
  {
  }

  /** The jCard's property names: the version, then one per present field in the order fn, org, adr, tel, email. */
  lemma LegacyVCardNames(c: LegacyContact)
    ensures PropNames(LegacyVCard(c))
         == ["version"]
            + (When(c.name.Some?, "fn") + When(c.organization.Some?, "org") + When(c.address.Some?, "adr"))
            + (When(c.phone.Some?, "tel") + When(c.email.Some?, "email"))
  {
    PropNamesOfThree([LegacyVersionProp()], LegacyIdentityProps(c), LegacyReachProps(c));
    assert PropNames([LegacyVersionProp()]) == ["version"] by {
      assert PropNames([LegacyVersionProp()]) == PropNames([]) + [PropName(LegacyVersionProp())];
    }
    LegacyIdentityNames(c);
    LegacyReachNames(c);
  }

  lemma LegacyIdentityNames(c: LegacyContact)
    ensures PropNames(LegacyIdentityProps(c))
         == When(c.name.Some?, "fn") + When(c.organization.Some?, "org") + When(c.address.Some?, "adr")
  {
    var fn := if c.name.Some? then [LegacyFnProp(c)] else [];
    var org := if c.organization.Some? then [LegacyOrgProp(c)] else [];
    var adr := if c.address.Some? then [LegacyAdrProp(c)] else [];
    PropNamesOfThree(fn, org, adr);
    if c.name.Some? { PropNamesWhen(true, "fn", map[], "text", JStr(c.name.value)); }
    if c.organization.Some? { PropNamesWhen(true, "org", map[], "text", JStr(c.organization.value)); }
    if c.address.Some? {
      PropNamesWhen(true, "adr", map["type" := JStr("official")], "text", LegacyAdrValue(c.address.value));
    }
  }

  lemma LegacyReachNames(c: LegacyContact)
    ensures PropNames(LegacyReachProps(c)) == When(c.phone.Some?, "tel") + When(c.email.Some?, "email")
  {
    var tel := if c.phone.Some? then [LegacyTelProp(c)] else [];
    var email := if c.email.Some? then [LegacyEmailProp(c)] else [];
    PropNamesAppend(tel, email);
    if c.phone.Some? {
      PropNamesWhen(true, "tel", map["type" := JArr([JStr("official")])], "uri", JStr("tel:" + c.phone.value));
    }
    if c.email.Some? {
      PropNamesWhen(true, "email", map["type" := JStr("official")], "text", JStr(c.email.value));
    }
  }

  /**
   * The jCard's values: text `fn`, `org` and `email`, an `adr` whose
   * 8-element value starts with an empty post-office box, a `tel` whose value
   * is the number as a `tel:` URI, and every typed property marked `official`.
   */
  lemma LegacyVCardValues(c: LegacyContact)
    ensures LegacyVCard(c)[0] == VProp("version", map[], "text", JStr("4.0"))
    ensures c.name.Some? ==> (LegacyFnProp(c) in LegacyVCard(c)
      && Items(LegacyFnProp(c)) == [JStr("fn"), JObj(map[]), JStr("text"), JStr(c.name.value)])
    ensures c.organization.Some? ==> (LegacyOrgProp(c) in LegacyVCard(c)
      && Items(LegacyOrgProp(c)) == [JStr("org"), JObj(map[]), JStr("text"), JStr(c.organization.value)])
    ensures c.address.Some? ==> (LegacyAdrProp(c) in LegacyVCard(c)
      && Items(LegacyAdrProp(c))[..3] == [JStr("adr"), JObj(map["type" := JStr("official")]), JStr("text")]
      && Items(LegacyAdrProp(c))[3] == JArr(JStrs(["", c.address.value.street1, c.address.value.street2,
           c.address.value.street3, c.address.value.city, c.address.value.stateorprovince,
           c.address.value.postalcode, c.address.value.country_code]))
      && |Items(Items(LegacyAdrProp(c))[3])| == 8
      && Items(Items(LegacyAdrProp(c))[3])[0] == JStr(""))
    ensures c.phone.Some? ==> (LegacyTelProp(c) in LegacyVCard(c)
      && Items(LegacyTelProp(c))
         == [JStr("tel"), JObj(map["type" := JArr([JStr("official")])]), JStr("uri"), JStr("tel:" + c.phone.value)])
    ensures c.email.Some? ==> (LegacyEmailProp(c) in LegacyVCard(c)
      && Items(LegacyEmailProp(c))
         == [JStr("email"), JObj(map["type" := JStr("official")]), JStr("text"), JStr(c.email.value)])
  {
  }

  /** The change events are named after the earlier draft: `last_update` and `last_transfer`. */
  lemma LegacyChangeActions(c: LegacyContact)
    ensures Actions(LegacyChangeEvents(c))
         == When(c.changed.Some?, "last_update") + When(c.last_transfer.Some?, "last_transfer")
  {
    var upd := if c.changed.Some? then [Event("last_update", RawDate(c.changed.value))] else [];
    var tr := if c.last_transfer.Some? then [Event("last_transfer", RawDate(c.last_transfer.value))] else [];
    ActionsAppend(upd, tr);
    if c.changed.Some? { ActionOfEvent("last_update", RawDate(c.changed.value), ""); }
    if c.last_transfer.Some? { ActionOfEvent("last_transfer", RawDate(c.last_transfer.value), ""); }
  }

  /** The events' names: `created` first, then the change events. */
  lemma LegacyEventActions(c: LegacyContact)
    ensures Actions(LegacyEvents(c))
         == ["created"] + When(c.changed.Some?, "last_update") + When(c.last_transfer.Some?, "last_transfer")
  {
    var reg := [EventBy("created", RawDate(c.created), c.creating_registrar_handle)];
    ActionsAppend(reg, LegacyChangeEvents(c));
    ActionOfEvent("created", RawDate(c.created), c.creating_registrar_handle);
    LegacyChangeActions(c);
  }
}
