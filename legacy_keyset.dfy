/**
 * The older keyset transformer of the top-level `rdap_rest` package. It builds
 * the same document as the current one except that `status` (the raw registry
 * statuses) and `dns_keys` are always present, possibly empty.
 */
module LegacyKeyset {
  import opened Wrappers
  import opened Json
  import opened Registry
  import opened RdapUtils
  import opened Keyset

  /** The starting literal: statuses and key entries are set unconditionally. */
  function LegacyKeysetHead(cfg: Config, k: KeySet): Doc
  {
    map[
      "rdapConformance" := JArr([JStr("rdap_level_0"), JStr("cznic_version_0")]),
      "handle" := JStr(k.handle),
      "status" := JArr(JStrs(k.statuses)),
      "port43" := JStr(cfg.unixWhoisHost),
      "links" := JArr([SelfLink(Substitute(cfg.keysetUrl, k.handle))]),
      "dns_keys" := JArr(KeyEntries(k.dns_keys))]
  }

  function LegacyKeysetDocument(cfg: Config, k: KeySet): Doc
  {
    KeysetLayout(LegacyKeysetHead(cfg, k), KeysetEntities(cfg, k), KeysetEvents(cfg, k))
  }

  function LegacyKeysetDict(cfg: Config, s: Option<KeySet>): Option<Doc>
  {
    match s
    case None => None
    case Some(k) => Some(LegacyKeysetDocument(cfg, k))
  }

  /**
   * The legacy `keyset_to_dict`: the contacts, the change events (checked with
   * `is not None`) and the keys are appended one by one.
   */
  method LegacyKeysetToDict(cfg: Config, s: Option<KeySet>) returns (r: Option<Doc>)
    ensures r == LegacyKeysetDict(cfg, s)
    ensures s.None? <==> r.None?
  {
    if s.None? {
      return None;
    }
    var k := s.value;
    var entities := [EntityRef(k.registrar_handle, "registrar", false, None)];
    var events := [Event("registration", RawDate(k.created))];
    var techs := BuildContactRefs(cfg, k.tech_contact_handles, "technical", false);
    entities := entities + techs;
    events := AppendChangeEvents(cfg, events, k.changed, k.last_transfer, false);
    var keys := BuildKeyEntries(k.dns_keys);
    var result := map[
      "rdapConformance" := JArr([JStr("rdap_level_0"), JStr("cznic_version_0")]),
      "handle" := JStr(k.handle),
      "status" := JArr(JStrs(k.statuses)),
      "port43" := JStr(cfg.unixWhoisHost),
      "links" := JArr([SelfLink(Substitute(cfg.keysetUrl, k.handle))]),
      "dns_keys" := JArr(keys)];
    result := result["entities" := JArr(entities)]["events" := JArr(events)];
    r := Some(result);
  }

  lemma LegacyHeadKeys(cfg: Config, k: KeySet)
    ensures LegacyKeysetHead(cfg, k).Keys == KeysetHead(cfg, k).Keys + {"status", "dns_keys"}
  {
  }

  lemma LegacyHeadValues(cfg: Config, k: KeySet)
    ensures forall key :: key in KeysetHead(cfg, k) ==> LegacyKeysetHead(cfg, k)[key] == KeysetHead(cfg, k)[key]
  {
    LegacyHeadKeys(cfg, k);
  }

  /**
   * The legacy document is the current one with `status` and `dns_keys` always
   * present: every field of the current document has the same value in the
   * legacy one, which adds exactly those two keys, holding the raw statuses and
   * the key entries even when they are empty.
   */
  lemma LegacyKeysetExtendsCurrent(cfg: Config, k: KeySet)
    ensures LegacyKeysetDocument(cfg, k).Keys == KeysetDocument(cfg, k).Keys + {"status", "dns_keys"}
    ensures forall key :: key in KeysetDocument(cfg, k) ==> LegacyKeysetDocument(cfg, k)[key] == KeysetDocument(cfg, k)[key]
    ensures LegacyKeysetDocument(cfg, k)["status"] == JArr(JStrs(k.statuses))
    ensures LegacyKeysetDocument(cfg, k)["dns_keys"] == JArr(KeyEntries(k.dns_keys))
  {
    LegacyHeadKeys(cfg, k);
    LegacyHeadValues(cfg, k);
    KeysetLayoutShape(KeysetHead(cfg, k), KeysetEntities(cfg, k), KeysetEvents(cfg, k));
    KeysetLayoutShape(LegacyKeysetHead(cfg, k), KeysetEntities(cfg, k), KeysetEvents(cfg, k));
  }
}
