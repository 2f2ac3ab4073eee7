/**
 * The contact document (`contact_to_dict`). A contact that is not linked to
 * any registry object is published without personal data; a linked one gets
 * a jCard of the fields it chose to disclose.
 */
module Entity {
  import opened Wrappers
  import opened Json
  import opened Registry
  import opened RdapUtils

  const UNLINKED_REMARK := "Omitting data because contact is not linked to any registry object."

  // ---------------------------------------------------------------- the jCard

  predicate ShowName(c: Contact) { DisclosableNonempty(StringField(c.name)) }
  predicate ShowOrganization(c: Contact) { DisclosableNonempty(StringField(c.organization)) }
  predicate ShowAddress(c: Contact) { DisclosableNonempty(AddressField(c.address)) }
  predicate ShowPhone(c: Contact) { DisclosableNonempty(StringField(c.phone)) }
  predicate ShowFax(c: Contact) { DisclosableNonempty(StringField(c.fax)) }
  predicate ShowEmail(c: Contact) { DisclosableNonempty(StringField(c.email)) }

  /** The structured address value: an empty post-office box, then the address lines and parts. */
  function AdrValue(a: PlaceAddress): Json
  {
    JArr(JStrs(["", a.street1, a.street2, a.street3, a.city, a.stateorprovince, a.postalcode, a.country_code]))
  }

  function VersionProp(): Json { VProp("version", map[], "text", JStr("4.0")) }
  function FnProp(c: Contact): Json { VProp("fn", map[], "text", JStr(c.name.value)) }
  function OrgProp(c: Contact): Json { VProp("org", map[], "text", JStr(c.organization.value)) }
  function AdrProp(c: Contact): Json { VProp("adr", map["type" := JStr("")], "text", AdrValue(c.address.value)) }
  function PhoneProp(c: Contact): Json { VProp("tel", map["type" := JArr([JStr("voice")])], "uri", JStr("tel:" + c.phone.value)) }
  function FaxProp(c: Contact): Json { VProp("tel", map["type" := JArr([JStr("fax")])], "uri", JStr("tel:" + c.fax.value)) }
  function EmailProp(c: Contact): Json { VProp("email", map["type" := JStr("")], "text", JStr(c.email.value)) }

  /** Who the contact is: name, organization and address, each when shown. */
  function IdentityProps(c: Contact): seq<Json>
  {
    When(ShowName(c), FnProp(c)) + When(ShowOrganization(c), OrgProp(c)) + When(ShowAddress(c), AdrProp(c))
  }

  /** How to reach the contact: phone, fax and email, each when shown. */
  function ReachProps(c: Contact): seq<Json>
  {
    When(ShowPhone(c), PhoneProp(c)) + When(ShowFax(c), FaxProp(c)) + When(ShowEmail(c), EmailProp(c))
  }

  /** The jCard properties: the version, then each disclosed, non-empty field in a fixed order. */
  function VCard(c: Contact): seq<Json>
  {
    [VersionProp()] + IdentityProps(c) + ReachProps(c)
  }

  /** Appends the name, organization and address properties that are shown. */
  method AppendIdentity(vcard: seq<Json>, c: Contact) returns (r: seq<Json>)
    ensures r == vcard + IdentityProps(c)
  {
    r := AppendWhen(vcard, ShowName(c), FnProp(c));
    r := AppendWhen(r, ShowOrganization(c), OrgProp(c));
    r := AppendWhen(r, ShowAddress(c), AdrProp(c));
  }

  /** Appends the phone, fax and email properties that are shown. */
  method AppendReach(vcard: seq<Json>, c: Contact) returns (r: seq<Json>)
    ensures r == vcard + ReachProps(c)
  {
    r := AppendWhen(vcard, ShowPhone(c), PhoneProp(c));
    r := AppendWhen(r, ShowFax(c), FaxProp(c));
    r := AppendWhen(r, ShowEmail(c), EmailProp(c));
  }

  /** Builds the jCard by conditional appends, one per field. */
  method BuildVCard(c: Contact) returns (vcard: seq<Json>)
    ensures vcard == VCard(c)
  {
    vcard := [VersionProp()];
    vcard := AppendIdentity(vcard, c);
    vcard := AppendReach(vcard, c);
  }

  lemma IdentityNames(c: Contact)
    ensures PropNames(IdentityProps(c)) == When(ShowName(c), "fn") + When(ShowOrganization(c), "org") + When(ShowAddress(c), "adr")
  {
    PropNamesOfThree(When(ShowName(c), FnProp(c)), When(ShowOrganization(c), OrgProp(c)), When(ShowAddress(c), AdrProp(c)));
    PropNamesWhen(ShowName(c), "fn", map[], "text", JStr(c.name.value));
    PropNamesWhen(ShowOrganization(c), "org", map[], "text", JStr(c.organization.value));
    PropNamesWhen(ShowAddress(c), "adr", map["type" := JStr("")], "text", AdrValue(c.address.value));
  }

  lemma ReachNames(c: Contact)
    ensures PropNames(ReachProps(c)) == When(ShowPhone(c), "tel") + When(ShowFax(c), "tel") + When(ShowEmail(c), "email")
  {
    PropNamesOfThree(When(ShowPhone(c), PhoneProp(c)), When(ShowFax(c), FaxProp(c)), When(ShowEmail(c), EmailProp(c)));
    PropNamesWhen(ShowPhone(c), "tel", map["type" := JArr([JStr("voice")])], "uri", JStr("tel:" + c.phone.value));
    PropNamesWhen(ShowFax(c), "tel", map["type" := JArr([JStr("fax")])], "uri", JStr("tel:" + c.fax.value));
    PropNamesWhen(ShowEmail(c), "email", map["type" := JStr("")], "text", JStr(c.email.value));
  }

  lemma VCardNamesShown(c: Contact)
    ensures PropNames(VCard(c))
         == ["version"] + (When(ShowName(c), "fn") + When(ShowOrganization(c), "org") + When(ShowAddress(c), "adr"))
            + (When(ShowPhone(c), "tel") + When(ShowFax(c), "tel") + When(ShowEmail(c), "email"))
  {
    PropNamesOfThree([VersionProp()], IdentityProps(c), ReachProps(c));
    assert PropNames([VersionProp()]) == ["version"] by {
      assert PropNames([VersionProp()]) == PropNames([]) + [PropName(VersionProp())];
    }
    IdentityNames(c);
    ReachNames(c);
  }

  /**
   * The jCard's property names, in order: `version`, then `fn`, `org`, `adr`,
   * `tel` (voice), `tel` (fax) and `email`, each exactly when the field is
   * disclosed and not empty (for the address: disclosed).
   */
  lemma VCardNames(c: Contact)
    ensures PropNames(VCard(c))
         == ["version"]
            + (When(c.name.disclose && c.name.value != "", "fn")
               + When(c.organization.disclose && c.organization.value != "", "org")
               + When(c.address.disclose, "adr"))
            + (When(c.phone.disclose && c.phone.value != "", "tel")
               + When(c.fax.disclose && c.fax.value != "", "tel")
               + When(c.email.disclose && c.email.value != "", "email"))
  {
    VCardNamesShown(c);
    DisclosableFields(c.name, c.address);
    DisclosableFields(c.organization, c.address);
    DisclosableFields(c.phone, c.address);
    DisclosableFields(c.fax, c.address);
    DisclosableFields(c.email, c.address);
  }

  /** A contact that discloses nothing still has a jCard, holding the version alone. */
  lemma VCardOfUndisclosed(c: Contact)
    requires !c.name.disclose && !c.organization.disclose && !c.address.disclose
    requires !c.phone.disclose && !c.fax.disclose && !c.email.disclose
    ensures VCard(c) == [VersionProp()]
  {
  }

  /**
   * A shown property is in the jCard and carries the field's value: the name
   * as `fn`, the organization as `org`, the address parts in order after an
   * empty post-office box, the phone and the fax as `tel:` URIs typed `voice`
   * and `fax`, and the email as `email`.
   */
  lemma VCardValues(c: Contact)
    ensures ShowName(c) ==> (FnProp(c) in VCard(c)
      && FnProp(c).items == [JStr("fn"), JObj(map[]), JStr("text"), JStr(c.name.value)])
    ensures ShowOrganization(c) ==> (OrgProp(c) in VCard(c)
      && OrgProp(c).items == [JStr("org"), JObj(map[]), JStr("text"), JStr(c.organization.value)])
    ensures ShowAddress(c) ==> (AdrProp(c) in VCard(c)
      && AdrProp(c).items[..3] == [JStr("adr"), JObj(map["type" := JStr("")]), JStr("text")]
      && Items(AdrProp(c).items[3]) == JStrs(["", c.address.value.street1, c.address.value.street2,
           c.address.value.street3, c.address.value.city, c.address.value.stateorprovince,
           c.address.value.postalcode, c.address.value.country_code]))
    ensures ShowPhone(c) ==> (PhoneProp(c) in VCard(c)
      && PhoneProp(c).items == [JStr("tel"), JObj(map["type" := JArr([JStr("voice")])]), JStr("uri"), JStr("tel:" + c.phone.value)])
    ensures ShowFax(c) ==> (FaxProp(c) in VCard(c)
      && FaxProp(c).items == [JStr("tel"), JObj(map["type" := JArr([JStr("fax")])]), JStr("uri"), JStr("tel:" + c.fax.value)])
    ensures ShowEmail(c) ==> (EmailProp(c) in VCard(c)
      && EmailProp(c).items == [JStr("email"), JObj(map["type" := JStr("")]), JStr("text"), JStr(c.email.value)])
  {
  }

  // ---------------------------------------------------------------- the contact document

  function RegistrarRef(c: Contact): Json
  {
    EntityRef(c.sponsoring_registrar_handle, "registrar", true, None)
  }

  /** A contact nothing refers to: identity, link, registrar and a remark, and no personal data. */
  function UnlinkedDocument(cfg: Config, c: Contact): Doc
  {
    map[
      "rdapConformance" := JArr([JStr("rdap_level_0")]),
      "objectClassName" := JStr(ENTITY_CLASS),
      "handle" := JStr(c.handle),
      "links" := JArr([SelfLink(Substitute(cfg.entityUrl, c.handle))]),
      "entities" := JArr([RegistrarRef(c)]),
      "port43" := JStr(cfg.unixWhoisHost),
      "remarks" := JArr([JObj(map["description" := JArr([JStr(UNLINKED_REMARK)])])])]
  }

  /** Registration by the creating registrar, then the change events; dates left as datetimes. */
  function ContactEvents(cfg: Config, c: Contact): seq<Json>
  {
    [EventBy("registration", RawDate(c.created), c.creating_registrar_handle)]
    + ChangeEvents(cfg, c.changed, c.last_transfer, false)
  }

  /** The starting literal of a linked contact, plus `status` when the mapping is non-empty. */
  function LinkedHead(cfg: Config, c: Contact): Doc
  {
    var base := map[
      "objectClassName" := JStr(ENTITY_CLASS),
      "rdapConformance" := JArr([JStr("rdap_level_0")]),
      "handle" := JStr(c.handle),
      "vcardArray" := JArr([JStr("vcard"), JArr(VCard(c))]),
      "links" := JArr([SelfLink(Substitute(cfg.entityUrl, c.handle))]),
      "port43" := JStr(cfg.unixWhoisHost),
      "entities" := JArr([RegistrarRef(c)])];
    var status := RdapStatusMapping(c.statuses);
    if status != [] then base["status" := JArr(JStrs(status))] else base
  }

  function LinkedDocument(cfg: Config, c: Contact): Doc
  {
    LinkedHead(cfg, c)["events" := JArr(ContactEvents(cfg, c))]
  }

  /** `contact_to_dict` as a value. */
  function ContactDict(cfg: Config, s: Option<Contact>): Option<Doc>
  {
    match s
    case None => None
    case Some(c) => Some(if "linked" in c.statuses then LinkedDocument(cfg, c) else UnlinkedDocument(cfg, c))
  }

  /** `contact_to_dict`: chooses the branch on `linked`, then builds the jCard and the events. */
  method ContactToDict(cfg: Config, s: Option<Contact>) returns (r: Option<Doc>)
    ensures r == ContactDict(cfg, s)
    ensures s.None? <==> r.None?
  {
    if s.None? {
      return None;
    }
    var c := s.value;
    var selfLink := Substitute(cfg.entityUrl, c.handle);
    if "linked" !in c.statuses {
      r := Some(map[
        "rdapConformance" := JArr([JStr("rdap_level_0")]),
        "objectClassName" := JStr(ENTITY_CLASS),
        "handle" := JStr(c.handle),
        "links" := JArr([SelfLink(selfLink)]),
        "entities" := JArr([RegistrarRef(c)]),
        "port43" := JStr(cfg.unixWhoisHost),
        "remarks" := JArr([JObj(map["description" := JArr([JStr(UNLINKED_REMARK)])])])]);
    } else {
      var vcard := BuildVCard(c);
      var result := map[
        "objectClassName" := JStr(ENTITY_CLASS),
        "rdapConformance" := JArr([JStr("rdap_level_0")]),
        "handle" := JStr(c.handle),
        "vcardArray" := JArr([JStr("vcard"), JArr(vcard)]),
        "links" := JArr([SelfLink(selfLink)]),
        "port43" := JStr(cfg.unixWhoisHost),
        "entities" := JArr([RegistrarRef(c)])];
      var events := [EventBy("registration", RawDate(c.created), c.creating_registrar_handle)];
      var status := RdapStatusMapping(c.statuses);
      if status != [] {
        result := result["status" := JArr(JStrs(status))];
      }
      events := AppendChangeEvents(cfg, events, c.changed, c.last_transfer, false);
      r := Some(result["events" := JArr(events)]);
    }
  }

  /**
   * A contact that is not linked is published with exactly seven keys: no
   * jCard, no events and no status, so nothing personal is shown. What is
   * shown is the handle, the self link, the whois host, the sponsoring
   * registrar alone and the fixed remark saying why the data is omitted.
   */
  lemma UnlinkedDocumentKeys(cfg: Config, c: Contact)
    ensures UnlinkedDocument(cfg, c).Keys
         == {"rdapConformance", "objectClassName", "handle", "links", "entities", "port43", "remarks"}
    ensures "vcardArray" !in UnlinkedDocument(cfg, c) && "events" !in UnlinkedDocument(cfg, c)
    ensures var d := UnlinkedDocument(cfg, c);
      && d["rdapConformance"] == JArr([JStr("rdap_level_0")])
      && d["objectClassName"] == JStr("entity")
      && d["handle"] == JStr(c.handle)
      && d["links"] == JArr([SelfLink(Substitute(cfg.entityUrl, c.handle))])
      && d["entities"] == JArr([EntityRef(c.sponsoring_registrar_handle, "registrar", true, None)])
      && d["port43"] == JStr(cfg.unixWhoisHost)
      && d["remarks"] == JArr([JObj(map["description" := JArr([JStr(
           "Omitting data because contact is not linked to any registry object.")])])])
  {
  }

  /**
   * A linked contact always has a status, which includes `associated`, and
   * its document has the unlinked one's identity keys plus the jCard, the
   * events and the status, and no remarks.
   */
  lemma LinkedDocumentKeys(cfg: Config, c: Contact)
    requires "linked" in c.statuses
    ensures LinkedDocument(cfg, c).Keys
         == {"objectClassName", "rdapConformance", "handle", "vcardArray", "links", "port43", "entities", "status", "events"}
    ensures "associated" in RdapStatusMapping(c.statuses)
  {
    LinkedMapsToAssociated(c.statuses);
    assert LinkedHead(cfg, c).Keys
        == {"objectClassName", "rdapConformance", "handle", "vcardArray", "links", "port43", "entities", "status"};
  }

  lemma LinkedHeadFields(cfg: Config, c: Contact)
    requires "linked" in c.statuses
    ensures var h := LinkedHead(cfg, c);
      && "status" in h && h["status"] == JArr(JStrs(RdapStatusMapping(c.statuses)))
      && "vcardArray" in h && h["vcardArray"] == JArr([JStr("vcard"), JArr(VCard(c))])
      && "handle" in h && h["handle"] == JStr(c.handle)
      && "entities" in h && h["entities"] == JArr([RegistrarRef(c)])
      && "links" in h && h["links"] == JArr([SelfLink(Substitute(cfg.entityUrl, c.handle))])
  {
    LinkedMapsToAssociated(c.statuses);
  }

  /**
   * A linked contact's document carries its jCard, the mapped statuses, its
   * handle and self link, and the sponsoring registrar as the only entity.
   */
  lemma LinkedDocumentFields(cfg: Config, c: Contact)
    requires "linked" in c.statuses
    ensures var d := LinkedDocument(cfg, c);
      && "status" in d && d["status"] == JArr(JStrs(RdapStatusMapping(c.statuses)))
      && "vcardArray" in d && d["vcardArray"] == JArr([JStr("vcard"), JArr(VCard(c))])
      && "handle" in d && d["handle"] == JStr(c.handle)
      && "entities" in d && d["entities"] == JArr([RegistrarRef(c)])
      && "links" in d && d["links"] == JArr([SelfLink(Substitute(cfg.entityUrl, c.handle))])
  {
    LinkedHeadFields(cfg, c);
  }

  /**
   * Events: registration by the creating registrar with the raw creation
   * date, then last changed and transfer when those dates are present.
   */
  lemma ContactEventsShape(cfg: Config, c: Contact)
    ensures Actions(ContactEvents(cfg, c))
         == ["registration"] + When(c.changed.Some?, "last changed") + When(c.last_transfer.Some?, "transfer")
    ensures ContactEvents(cfg, c)[0].fields["eventActor"] == JStr(c.creating_registrar_handle)
    ensures ContactEvents(cfg, c)[0].fields["eventDate"] == JDateTime(UnwrapDatetime(c.created))
  {
    var reg := [EventBy("registration", RawDate(c.created), c.creating_registrar_handle)];
    ActionsAppend(reg, ChangeEvents(cfg, c.changed, c.last_transfer, false));
    ActionOfEvent("registration", RawDate(c.created), c.creating_registrar_handle);
    ChangeEventActions(cfg, c.changed, c.last_transfer, false);
  }

  /** The jCard, and with it every disclosed field, is published exactly for linked contacts. */
  lemma PersonalDataOnlyWhenLinked(cfg: Config, c: Contact)
    ensures var d := ContactDict(cfg, Some(c)).value;
      ("vcardArray" in d <==> "linked" in c.statuses) && ("events" in d <==> "linked" in c.statuses)
  {
    if "linked" in c.statuses {
      LinkedDocumentKeys(cfg, c);
    } else {
      UnlinkedDocumentKeys(cfg, c);
    }
  }
}
