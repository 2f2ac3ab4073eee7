/**
 * The older domain transformer of the top-level `rdap_rest` package: raw
 * statuses, the handle reused as `unicodeName`, a fixed placeholder list of
 * events, and the administrative contacts listed with role `technical`.
 */
module LegacyDomain {
  import opened Wrappers
  import opened Json
  import opened Registry
  import opened RdapUtils
  import LegacyEntity

  /** The four placeholder events every legacy domain document carries, whatever the record says. */
  const LEGACY_DOMAIN_EVENTS: seq<Json> := [
    Event("registration", JStr("1990-12-31T23:59:60Z")),
    EventBy("last changed", JStr("1991-12-31T23:59:60Z"), "joe@example.com"),
    EventBy("transfer", JStr("1991-12-31T23:59:60Z"), "joe@example.com"),
    EventBy("expiration", JStr("2016-12-31T23:59:60Z"), "joe@example.com")]

  /** The registrant, then every administrative contact under role `technical`; none is classed, all are linked. */
  function LegacyDomainEntities(cfg: Config, d: Domain): seq<Json>
  {
    [LinkedContact(cfg, d.registrant_handle, "registrant", false)]
    + ContactRefs(cfg, d.admin_contact_handles, "technical", false)
  }

  function LegacyDomainDocument(cfg: Config, d: Domain): Doc
  {
    map[
      "rdapConformance" := JArr([JStr("rdap_level_0")]),
      "handle" := JStr(d.handle),
      "ldhName" := JStr(d.handle),
      "unicodeName" := JStr(d.handle),
      "status" := JArr(JStrs(d.statuses)),
      "links" := JArr([SelfLink(Substitute(cfg.domainUrl, d.handle))]),
      "port43" := JStr(cfg.unixWhoisHost),
      "events" := JArr(LEGACY_DOMAIN_EVENTS),
      "entities" := JArr(LegacyDomainEntities(cfg, d))]
  }

  /** The legacy `domain_to_dict` as a value: a document in both cases. */
  function LegacyDomainDict(cfg: Config, s: Option<Domain>): Doc
  {
    match s
    case None => LegacyEntity.MissingRecordDocument()
    case Some(d) => LegacyDomainDocument(cfg, d)
  }

  /** The legacy `domain_to_dict`: the literal, then one appended reference per administrative contact. */
  method LegacyDomainToDict(cfg: Config, s: Option<Domain>) returns (r: Doc)
    ensures r == LegacyDomainDict(cfg, s)
  {
    if s.None? {
      return LegacyEntity.MissingRecordDocument();
    }
    var d := s.value;
    var selfLink := Substitute(cfg.domainUrl, d.handle);
    var entities := [LinkedContact(cfg, d.registrant_handle, "registrant", false)];
    var admins := BuildContactRefs(cfg, d.admin_contact_handles, "technical", false);
    entities := entities + admins;
    r := map[
      "rdapConformance" := JArr([JStr("rdap_level_0")]),
      "handle" := JStr(d.handle),
      "ldhName" := JStr(d.handle),
      "unicodeName" := JStr(d.handle),
      "status" := JArr(JStrs(d.statuses)),
      "links" := JArr([SelfLink(selfLink)]),
      "port43" := JStr(cfg.unixWhoisHost),
      "events" := JArr(LEGACY_DOMAIN_EVENTS),
      "entities" := JArr(entities)];
  }

  /** A present domain has exactly nine keys, whatever its record holds. */
  lemma LegacyDomainKeys(cfg: Config, d: Domain)
    ensures LegacyDomainDocument(cfg, d).Keys
         == {"rdapConformance", "handle", "ldhName", "unicodeName", "status", "links", "port43", "events", "entities"}
  {
  }

  /** handle, ldhName and unicodeName are all the handle, and `status` is the raw status list. */
  lemma LegacyDomainFields(cfg: Config, d: Domain)
    ensures var r := LegacyDomainDocument(cfg, d);
      && r["handle"] == r["ldhName"] == r["unicodeName"] == JStr(d.handle)
      && r["status"] == JArr(JStrs(d.statuses))
      && r["links"] == JArr([SelfLink(Substitute(cfg.domainUrl, d.handle))])
      && r["port43"] == JStr(cfg.unixWhoisHost)
  {
  }

  /** The events are the same four for every domain: registration, last changed, transfer, expiration. */
  lemma LegacyDomainEvents(cfg: Config, d: Domain, e: Domain)
    ensures LegacyDomainDocument(cfg, d)["events"] == LegacyDomainDocument(cfg, e)["events"]
    ensures Actions(Items(LegacyDomainDocument(cfg, d)["events"]))
         == ["registration", "last changed", "transfer", "expiration"]
  {
    ActionOfEvent("registration", JStr("1990-12-31T23:59:60Z"), "");
    ActionOfEvent("last changed", JStr("1991-12-31T23:59:60Z"), "joe@example.com");
    ActionOfEvent("transfer", JStr("1991-12-31T23:59:60Z"), "joe@example.com");
    ActionOfEvent("expiration", JStr("2016-12-31T23:59:60Z"), "joe@example.com");
    assert Actions(LEGACY_DOMAIN_EVENTS) == [Action(LEGACY_DOMAIN_EVENTS[0]), Action(LEGACY_DOMAIN_EVENTS[1]),
                                             Action(LEGACY_DOMAIN_EVENTS[2]), Action(LEGACY_DOMAIN_EVENTS[3])];
  }

  lemma LegacyDomainEntitiesShape(cfg: Config, d: Domain)
    ensures var es := LegacyDomainEntities(cfg, d);
      && |es| == 1 + |d.admin_contact_handles|
      && es[0] == LinkedContact(cfg, d.registrant_handle, "registrant", false)
      && forall i :: 0 <= i < |d.admin_contact_handles| ==>
           es[i + 1] == LinkedContact(cfg, d.admin_contact_handles[i], "technical", false)
  {
    var es := LegacyDomainEntities(cfg, d);
    forall i | 0 <= i < |d.admin_contact_handles|
      ensures es[i + 1] == LinkedContact(cfg, d.admin_contact_handles[i], "technical", false)
    {
    }
  }

  /** The registrant comes first, then each administrative handle in order, under role `technical`. */
  lemma LegacyDomainDocumentEntities(cfg: Config, d: Domain)
    ensures var es := Items(LegacyDomainDocument(cfg, d)["entities"]);
      && |es| == 1 + |d.admin_contact_handles|
      && es[0] == LinkedContact(cfg, d.registrant_handle, "registrant", false)
      && forall i :: 0 <= i < |d.admin_contact_handles| ==>
           es[i + 1] == LinkedContact(cfg, d.admin_contact_handles[i], "technical", false)
  {
    assert LegacyDomainDocument(cfg, d)["entities"] == JArr(LegacyDomainEntities(cfg, d));
    LegacyDomainEntitiesShape(cfg, d);
  }
}
