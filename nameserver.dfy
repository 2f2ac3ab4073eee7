/** The nameserver lookup document (`nameserver_to_dict`). */
module Nameserver {
  import opened Wrappers
  import opened Json
  import opened Registry
  import opened RdapUtils

  /**
   * `nameserver_to_dict`: no record gives no document; otherwise the
   * nameserver's fqdn is both its handle and its LDH name, with a self link.
   */
  function NameserverToDict(cfg: Config, s: Option<NameServer>): (r: Option<Doc>)
    ensures s.None? <==> r.None?
    ensures s.Some? ==> r.value.Keys == {"rdapConformance", "objectClassName", "handle", "ldhName", "links"}
    ensures s.Some? ==> r.value["handle"] == r.value["ldhName"] == JStr(s.value.fqdn)
    ensures s.Some? ==> r.value["objectClassName"] == JStr("nameserver")
    ensures s.Some? ==> r.value["rdapConformance"] == JArr([JStr("rdap_level_0")])
    ensures s.Some? ==> r.value["links"] == JArr([SelfLink(Substitute(cfg.nameserverUrl, s.value.fqdn))])
  {
    match s
    case None => None
    case Some(ns) =>
      var selfLink := Substitute(cfg.nameserverUrl, ns.fqdn);
      Some(map[
        "rdapConformance" := JArr([JStr("rdap_level_0")]),
        "objectClassName" := JStr(NAMESERVER_CLASS),
        "handle" := JStr(ns.fqdn),
        "ldhName" := JStr(ns.fqdn),
        "links" := JArr([SelfLink(selfLink)])])
  }
}
