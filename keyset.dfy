/**
 * The keyset document (`keyset_to_dict`) and the DNSKEY entries it lists,
 * which domain documents embed as well.
 */
module Keyset {
  import opened Wrappers
  import opened Json
  import opened Registry
  import opened RdapUtils

  // ---------------------------------------------------------------- DNSKEY entries

  /** One key as the documents show it; the backend's `alg` is published as `algorithm`. */
  function KeyJson(k: DNSKey): Json
  {
    JObj(map["flags" := JInt(k.flags), "protocol" := JInt(k.protocol),
             "algorithm" := JInt(k.alg), "publicKey" := JStr(k.public_key)])
  }

  /** Reads a key entry back; anything that is not a key entry gives nothing. */
  function KeyOf(j: Json): Option<DNSKey>
  {
    if j.JObj? && "flags" in j.fields && "protocol" in j.fields && "algorithm" in j.fields && "publicKey" in j.fields
       && j.fields["flags"].JInt? && j.fields["protocol"].JInt? && j.fields["algorithm"].JInt?
       && j.fields["publicKey"].JStr?
    then Some(DNSKey(j.fields["flags"].n, j.fields["protocol"].n, j.fields["algorithm"].n, j.fields["publicKey"].s))
    else None
  }

  /** A key entry loses nothing: the key can be read back from it, and it has exactly the four fields. */
  lemma KeyJsonRoundTrip(k: DNSKey)
    ensures KeyOf(KeyJson(k)) == Some(k)
    ensures KeyJson(k).fields.Keys == {"flags", "protocol", "algorithm", "publicKey"}
  {
  }

  /** One entry per key, in order. */
  function KeyEntries(keys: seq<DNSKey>): (r: seq<Json>)
    ensures |r| == |keys|
    ensures forall i :: 0 <= i < |keys| ==> r[i] == KeyJson(keys[i])
  {
    if keys == [] then [] else KeyEntries(keys[..|keys| - 1]) + [KeyJson(keys[|keys| - 1])]
  }

  /** Reads the keys back from a list of entries, stopping at nothing: a non-entry gives no list. */
  function KeysOf(entries: seq<Json>): Option<seq<DNSKey>>
  {
    if entries == [] then Some([])
    else
      match (KeysOf(entries[..|entries| - 1]), KeyOf(entries[|entries| - 1]))
      case (Some(ks), Some(k)) => Some(ks + [k])
      case _ => None
  }

  /** The key list of a document gives back exactly the keyset's keys. */
  lemma {:induction false} KeyEntriesRoundTrip(keys: seq<DNSKey>)
    ensures KeysOf(KeyEntries(keys)) == Some(keys)
  {
    if keys != [] {
      var init := keys[..|keys| - 1];
      var r := KeyEntries(keys);
      assert r[..|r| - 1] == KeyEntries(init);
      KeyEntriesRoundTrip(init);
      KeyJsonRoundTrip(keys[|keys| - 1]);
      assert init + [keys[|keys| - 1]] == keys;
    }
  }

  /** Appends one entry per key, as the transformers' loops over `dns_keys` do. */
  method BuildKeyEntries(keys: seq<DNSKey>) returns (entries: seq<Json>)
    ensures entries == KeyEntries(keys)
  {
    entries := [];
    for i := 0 to |keys|
      invariant entries == KeyEntries(keys[..i])
    {
      assert keys[..i + 1][..i] == keys[..i];
      entries := entries + [KeyJson(keys[i])];
    }
    assert keys[..|keys|] == keys;
  }

  // ---------------------------------------------------------------- the keyset document

  /** The registrar, unclassed and without a link, then one technical contact per handle. */
  function KeysetEntities(cfg: Config, k: KeySet): seq<Json>
  {
    [EntityRef(k.registrar_handle, "registrar", false, None)]
    + ContactRefs(cfg, k.tech_contact_handles, "technical", false)
  }

  /** Registration, then the change events; all dates left as datetimes. */
  function KeysetEvents(cfg: Config, k: KeySet): seq<Json>
  {
    [Event("registration", RawDate(k.created))] + ChangeEvents(cfg, k.changed, k.last_transfer, false)
  }

  /**
   * The starting literal, with the registry statuses as they are when there are
   * any, and the key entries when there are any keys.
   */
  function KeysetHead(cfg: Config, k: KeySet): Doc
  {
    var base := map[
      "rdapConformance" := JArr([JStr("rdap_level_0"), JStr("cznic_version_0")]),
      "handle" := JStr(k.handle),
      "port43" := JStr(cfg.unixWhoisHost),
      "links" := JArr([SelfLink(Substitute(cfg.keysetUrl, k.handle))])];
    var withStatus := if k.statuses != [] then base["status" := JArr(JStrs(k.statuses))] else base;
    if k.dns_keys != [] then withStatus["dns_keys" := JArr(KeyEntries(k.dns_keys))] else withStatus
  }

  /** The starting literal with the two lists the transformer appends to. */
  function KeysetLayout(head: Doc, entities: seq<Json>, events: seq<Json>): Doc
  {
    head["entities" := JArr(entities)]["events" := JArr(events)]
  }

  /** The layout adds the two lists and keeps every other field of the literal. */
  lemma KeysetLayoutShape(head: Doc, entities: seq<Json>, events: seq<Json>)
    ensures var d := KeysetLayout(head, entities, events);
      && d.Keys == head.Keys + {"entities", "events"}
      && d["entities"] == JArr(entities)
      && d["events"] == JArr(events)
      && forall key :: key in head && key != "entities" && key != "events" ==> d[key] == head[key]
  {
  }

  function KeysetDocument(cfg: Config, k: KeySet): Doc
  {
    KeysetLayout(KeysetHead(cfg, k), KeysetEntities(cfg, k), KeysetEvents(cfg, k))
  }

  /** `keyset_to_dict` as a value: no record gives no document. */
  function KeysetDict(cfg: Config, s: Option<KeySet>): Option<Doc>
  {
    match s
    case None => None
    case Some(k) => Some(KeysetDocument(cfg, k))
  }

  /** `keyset_to_dict`: builds the document, appending contacts, events and keys as it goes. */
  method KeysetToDict(cfg: Config, s: Option<KeySet>) returns (r: Option<Doc>)
    ensures r == KeysetDict(cfg, s)
    ensures s.None? <==> r.None?
  {
    if s.None? {
      return None;
    }
    var k := s.value;
    var result := map[
      "rdapConformance" := JArr([JStr("rdap_level_0"), JStr("cznic_version_0")]),
      "handle" := JStr(k.handle),
      "port43" := JStr(cfg.unixWhoisHost),
      "links" := JArr([SelfLink(Substitute(cfg.keysetUrl, k.handle))])];
    var entities := [EntityRef(k.registrar_handle, "registrar", false, None)];
    var events := [Event("registration", RawDate(k.created))];
    if k.statuses != [] {
      result := result["status" := JArr(JStrs(k.statuses))];
    }
    var techs := BuildContactRefs(cfg, k.tech_contact_handles, "technical", false);
    entities := entities + techs;
    events := AppendChangeEvents(cfg, events, k.changed, k.last_transfer, false);
    if k.dns_keys != [] {
      var keys := BuildKeyEntries(k.dns_keys);
      result := result["dns_keys" := JArr(keys)];
    }
    result := result["entities" := JArr(entities)]["events" := JArr(events)];
    r := Some(result);
  }

  /** The document keeps every field of the starting literal and adds the two lists. */
  lemma KeysetDocumentKeepsHead(cfg: Config, k: KeySet)
    ensures var d := KeysetDocument(cfg, k);
      var h := KeysetHead(cfg, k);
      && d.Keys == h.Keys + {"entities", "events"}
      && forall key :: key in h && key != "entities" && key != "events" ==> d[key] == h[key]
  {
    KeysetLayoutShape(KeysetHead(cfg, k), KeysetEntities(cfg, k), KeysetEvents(cfg, k));
  }

  /** The two lists of the document are the contacts and the events. */
  lemma KeysetDocumentListsAre(cfg: Config, k: KeySet)
    ensures var d := KeysetDocument(cfg, k);
      && d["entities"] == JArr(KeysetEntities(cfg, k))
      && d["events"] == JArr(KeysetEvents(cfg, k))
  {
    KeysetLayoutShape(KeysetHead(cfg, k), KeysetEntities(cfg, k), KeysetEvents(cfg, k));
  }

  /**
   * A keyset document has a fixed key set, plus `status` exactly when the
   * keyset has statuses and `dns_keys` exactly when it has keys; there is no
   * `objectClassName`.
   */
  lemma KeysetDocumentKeys(cfg: Config, k: KeySet)
    ensures KeysetDocument(cfg, k).Keys
         == {"rdapConformance", "handle", "port43", "links", "entities", "events"}
            + (if k.statuses != [] then {"status"} else {})
            + (if k.dns_keys != [] then {"dns_keys"} else {})
  {
    KeysetDocumentKeepsHead(cfg, k);
  }

  /**
   * The registry statuses are published untranslated, and the keys are
   * published in order and can be read back unchanged.
   */
  lemma KeysetDocumentStatusAndKeys(cfg: Config, k: KeySet)
    ensures var d := KeysetDocument(cfg, k);
      && (k.statuses != [] ==> d["status"] == JArr(JStrs(k.statuses)))
      && (k.dns_keys != [] ==> d["dns_keys"].JArr? && KeysOf(d["dns_keys"].items) == Some(k.dns_keys))
  {
    KeysetHeadOptional(cfg, k);
    KeysetDocumentKeepsHead(cfg, k);
    KeyEntriesRoundTrip(k.dns_keys);
  }

  lemma KeysetHeadFields(cfg: Config, k: KeySet)
    ensures var h := KeysetHead(cfg, k);
      && "rdapConformance" in h && h["rdapConformance"] == JArr([JStr("rdap_level_0"), JStr("cznic_version_0")])
      && "handle" in h && h["handle"] == JStr(k.handle)
      && "port43" in h && h["port43"] == JStr(cfg.unixWhoisHost)
      && "links" in h && h["links"] == JArr([SelfLink(Substitute(cfg.keysetUrl, k.handle))])
  {
  }

  lemma KeysetHeadOptional(cfg: Config, k: KeySet)
    ensures var h := KeysetHead(cfg, k);
      && (k.statuses != [] ==> "status" in h && h["status"] == JArr(JStrs(k.statuses)))
      && (k.dns_keys != [] ==> "dns_keys" in h && h["dns_keys"] == JArr(KeyEntries(k.dns_keys)))
  {
  }

  /** The document names the keyset and the whois host and links to itself. */
  lemma KeysetDocumentFields(cfg: Config, k: KeySet)
    ensures var d := KeysetDocument(cfg, k);
      && d["rdapConformance"] == JArr([JStr("rdap_level_0"), JStr("cznic_version_0")])
      && d["handle"] == JStr(k.handle)
      && d["port43"] == JStr(cfg.unixWhoisHost)
      && d["links"] == JArr([SelfLink(Substitute(cfg.keysetUrl, k.handle))])
  {
    KeysetHeadFields(cfg, k);
    KeysetDocumentKeepsHead(cfg, k);
  }

  /**
   * The registrar comes first, with neither class nor link, followed by one
   * unclassed technical contact per handle, in order, each with its link.
   */
  lemma KeysetDocumentEntities(cfg: Config, k: KeySet)
    ensures var es := Items(KeysetDocument(cfg, k)["entities"]);
      && |es| == 1 + |k.tech_contact_handles|
      && es[0] == EntityRef(k.registrar_handle, "registrar", false, None)
      && forall i :: 0 <= i < |k.tech_contact_handles| ==>
           es[i + 1] == LinkedContact(cfg, k.tech_contact_handles[i], "technical", false)
  {
    KeysetDocumentListsAre(cfg, k);
    KeysetEntitiesOrder(cfg, k);
  }

  lemma KeysetEntitiesOrder(cfg: Config, k: KeySet)
    ensures var es := KeysetEntities(cfg, k);
      && |es| == 1 + |k.tech_contact_handles|
      && es[0] == EntityRef(k.registrar_handle, "registrar", false, None)
      && forall i :: 0 <= i < |k.tech_contact_handles| ==>
           es[i + 1] == LinkedContact(cfg, k.tech_contact_handles[i], "technical", false)
  {
    var es := KeysetEntities(cfg, k);
    forall i | 0 <= i < |k.tech_contact_handles|
      ensures es[i + 1] == LinkedContact(cfg, k.tech_contact_handles[i], "technical", false)
    {
    }
  }

  /** Events: registration, then last changed and transfer when those dates are present. */
  lemma KeysetDocumentEvents(cfg: Config, k: KeySet)
    ensures Actions(Items(KeysetDocument(cfg, k)["events"]))
         == ["registration"] + When(k.changed.Some?, "last changed") + When(k.last_transfer.Some?, "transfer")
  {
    KeysetDocumentListsAre(cfg, k);
    var reg := [Event("registration", RawDate(k.created))];
    ActionsAppend(reg, ChangeEvents(cfg, k.changed, k.last_transfer, false));
    ActionOfEvent("registration", RawDate(k.created), "");
    ChangeEventActions(cfg, k.changed, k.last_transfer, false);
  }
}
