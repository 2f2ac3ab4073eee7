/**
 * The nsset document (`nsset_to_dict`) and the nameserver entries it lists,
 * whose addresses are grouped by IP family. The same entry construction is
 * embedded in domain documents.
 */
module Nsset {
  import opened Wrappers
  import opened Json
  import opened Registry
  import opened RdapUtils

  // ---------------------------------------------------------------- address grouping

  /** The addresses of family `v`, in the order they appear. */
  function AddressesOf(ips: seq<IPAddress>, v: IPVersion): (r: seq<string>)
    ensures |r| <= |ips|
    ensures forall a :: a in r <==> exists i :: 0 <= i < |ips| && ips[i].version == v && ips[i].address == a
  {
    if ips == [] then []
    else
      var init := ips[..|ips| - 1];
      var last := ips[|ips| - 1];
      var r := AddressesOf(init, v) + (if last.version == v then [last.address] else []);
      assert forall i :: 0 <= i < |init| ==> init[i] == ips[i];
      r
  }

  /** Grouping keeps order: the addresses of a concatenation are those of each part, in turn. */
  lemma {:induction false} AddressesOfAppend(a: seq<IPAddress>, b: seq<IPAddress>, v: IPVersion)
    ensures AddressesOf(a + b, v) == AddressesOf(a, v) + AddressesOf(b, v)
    decreases |b|
  {
    if b == [] {
      assert a + b == a;
    } else {
      var init := b[..|b| - 1];
      assert (a + b)[..|a + b| - 1] == a + init;
      AddressesOfAppend(a, init, v);
    }
  }

  /** Every address lands in exactly one family. */
  lemma {:induction false} AddressesPartition(ips: seq<IPAddress>)
    ensures |AddressesOf(ips, IPv4)| + |AddressesOf(ips, IPv6)| == |ips|
  {
    if ips != [] {
      AddressesPartition(ips[..|ips| - 1]);
    }
  }

  /** The `ipAddresses` object: a `v4` and a `v6` list, each only when that family has addresses. */
  function IpGroups(ips: seq<IPAddress>): Doc
  {
    var v4 := AddressesOf(ips, IPv4);
    var v6 := AddressesOf(ips, IPv6);
    var groups: Doc := map[];
    var withV4 := if v4 != [] then groups["v4" := JArr(JStrs(v4))] else groups;
    if v6 != [] then withV4["v6" := JArr(JStrs(v6))] else withV4
  }

  // ---------------------------------------------------------------- nameserver entries

  /** One `nameservers` entry for a nameserver of an nsset. */
  function NameserverEntry(cfg: Config, ns: NameServer): Doc
  {
    var selfLink := Substitute(cfg.nameserverUrl, ns.fqdn);
    var entry := map[
      "objectClassName" := JStr(NAMESERVER_CLASS),
      "handle" := JStr(ns.fqdn),
      "ldhName" := JStr(ns.fqdn),
      "links" := JArr([SelfLink(selfLink)])];
    var named := AddUnicodeName(entry, ns.fqdn, cfg.idnDecode);
    if ns.ip_addresses != [] then named["ipAddresses" := JObj(IpGroups(ns.ip_addresses))] else named
  }

  /** Builds a nameserver entry, sorting its addresses into the two family lists. */
  method BuildNameserverEntry(cfg: Config, ns: NameServer) returns (entry: Doc)
    ensures entry == NameserverEntry(cfg, ns)
  {
    var selfLink := Substitute(cfg.nameserverUrl, ns.fqdn);
    entry := map[
      "objectClassName" := JStr(NAMESERVER_CLASS),
      "handle" := JStr(ns.fqdn),
      "ldhName" := JStr(ns.fqdn),
      "links" := JArr([SelfLink(selfLink)])];
    entry := AddUnicodeName(entry, ns.fqdn, cfg.idnDecode);
    if ns.ip_addresses != [] {
      var ips := ns.ip_addresses;
      var addrsV4: seq<string> := [];
      var addrsV6: seq<string> := [];
      for i := 0 to |ips|
        invariant addrsV4 == AddressesOf(ips[..i], IPv4)
        invariant addrsV6 == AddressesOf(ips[..i], IPv6)
      {
        assert ips[..i + 1][..i] == ips[..i];
        if ips[i].version == IPv4 {
          addrsV4 := addrsV4 + [ips[i].address];
        }
        if ips[i].version == IPv6 {
          addrsV6 := addrsV6 + [ips[i].address];
        }
      }
      assert ips[..|ips|] == ips;
      var groups: Doc := map[];
      if addrsV4 != [] {
        groups := groups["v4" := JArr(JStrs(addrsV4))];
      }
      if addrsV6 != [] {
        groups := groups["v6" := JArr(JStrs(addrsV6))];
      }
      entry := entry["ipAddresses" := JObj(groups)];
    }
  }

  /** A family's list is non-empty exactly when some address has that family. */
  lemma AddressesOfNonempty(ips: seq<IPAddress>, v: IPVersion)
    ensures AddressesOf(ips, v) != [] <==> exists i :: 0 <= i < |ips| && ips[i].version == v
  {
    var r := AddressesOf(ips, v);
    if r != [] {
      assert r[0] in r;
    }
  }

  /**
   * The `ipAddresses` object has a `v4` or `v6` list exactly when some address
   * has that family, holding that family's addresses in order, and nothing else.
   */
  lemma IpGroupsShape(ips: seq<IPAddress>)
    ensures IpGroups(ips).Keys <= {"v4", "v6"}
    ensures "v4" in IpGroups(ips) <==> exists i :: 0 <= i < |ips| && ips[i].version == IPv4
    ensures "v6" in IpGroups(ips) <==> exists i :: 0 <= i < |ips| && ips[i].version == IPv6
    ensures "v4" in IpGroups(ips) ==> IpGroups(ips)["v4"] == JArr(JStrs(AddressesOf(ips, IPv4)))
    ensures "v6" in IpGroups(ips) ==> IpGroups(ips)["v6"] == JArr(JStrs(AddressesOf(ips, IPv6)))
  {
    AddressesOfNonempty(ips, IPv4);
    AddressesOfNonempty(ips, IPv6);
  }

  /**
   * A nameserver entry names the nameserver by its fqdn, links to it, and has
   * `ipAddresses` exactly when there are addresses, grouped by family.
   */
  lemma NameserverEntryShape(cfg: Config, ns: NameServer)
    ensures var e := NameserverEntry(cfg, ns);
      && e["handle"] == e["ldhName"] == JStr(ns.fqdn)
      && e["objectClassName"] == JStr("nameserver")
      && e["links"] == JArr([SelfLink(Substitute(cfg.nameserverUrl, ns.fqdn))])
      && ("ipAddresses" in e <==> ns.ip_addresses != [])
      && (ns.ip_addresses != [] ==> e["ipAddresses"] == JObj(IpGroups(ns.ip_addresses)))
      && (cfg.idnDecode(ns.fqdn) != ns.fqdn <==> "unicodeName" in e)
  {
    var selfLink := Substitute(cfg.nameserverUrl, ns.fqdn);
    AddUnicodeNameSpec(map[
      "objectClassName" := JStr(NAMESERVER_CLASS),
      "handle" := JStr(ns.fqdn),
      "ldhName" := JStr(ns.fqdn),
      "links" := JArr([SelfLink(selfLink)])], ns.fqdn, cfg.idnDecode);
  }

  /** One entry per nameserver, in order. */
  function NameserverEntries(cfg: Config, nss: seq<NameServer>): (r: seq<Json>)
    ensures |r| == |nss|
    ensures forall i :: 0 <= i < |nss| ==> r[i] == JObj(NameserverEntry(cfg, nss[i]))
  {
    if nss == [] then []
    else NameserverEntries(cfg, nss[..|nss| - 1]) + [JObj(NameserverEntry(cfg, nss[|nss| - 1]))]
  }

  /** Builds the entries of a list of nameservers, one at a time. */
  method BuildNameserverEntries(cfg: Config, nss: seq<NameServer>) returns (entries: seq<Json>)
    ensures entries == NameserverEntries(cfg, nss)
  {
    entries := [];
    for i := 0 to |nss|
      invariant entries == NameserverEntries(cfg, nss[..i])
    {
      assert nss[..i + 1][..i] == nss[..i];
      var entry := BuildNameserverEntry(cfg, nss[i]);
      entries := entries + [JObj(entry)];
    }
    assert nss[..|nss|] == nss;
  }

  // ---------------------------------------------------------------- the nsset document

  /** The registrar, then one technical contact per handle. */
  function NssetEntities(cfg: Config, n: NSSet): seq<Json>
  {
    [EntityRef(n.registrar_handle, "registrar", true, None)]
    + ContactRefs(cfg, n.tech_contact_handles, "technical", true)
  }

  /** Registration, then the change events; all dates formatted. */
  function NssetEvents(cfg: Config, n: NSSet): seq<Json>
  {
    [Event("registration", Rfc3339Date(cfg, n.created))] + ChangeEvents(cfg, n.changed, n.last_transfer, true)
  }

  /** The literal the document starts from, plus `status` when the mapping is non-empty. */
  function NssetHead(cfg: Config, n: NSSet): Doc
  {
    var base := map[
      "rdapConformance" := JArr([JStr("rdap_level_0"), JStr("fred_version_0")]),
      "objectClassName" := JStr(NSSET_CLASS),
      "handle" := JStr(n.handle),
      "port43" := JStr(cfg.unixWhoisHost),
      "links" := JArr([SelfLink(Substitute(cfg.nssetUrl, n.handle))])];
    var status := RdapStatusMapping(n.statuses);
    if status != [] then base["status" := JArr(JStrs(status))] else base
  }

  /** The starting literal with the three lists the transformer fills in. */
  function NssetLayout(head: Doc, entities: seq<Json>, nameservers: seq<Json>, events: seq<Json>): Doc
  {
    head["entities" := JArr(entities)]["nameservers" := JArr(nameservers)]["events" := JArr(events)]
  }

  /** The layout adds the three lists and keeps every other field of the literal. */
  lemma NssetLayoutShape(head: Doc, entities: seq<Json>, nameservers: seq<Json>, events: seq<Json>)
    ensures var d := NssetLayout(head, entities, nameservers, events);
      && d.Keys == head.Keys + {"entities", "nameservers", "events"}
      && d["entities"] == JArr(entities)
      && d["nameservers"] == JArr(nameservers)
      && d["events"] == JArr(events)
      && forall k :: k in head && k != "entities" && k != "nameservers" && k != "events" ==> d[k] == head[k]
  {
  }

  function NssetDocument(cfg: Config, n: NSSet): Doc
  {
    NssetLayout(NssetHead(cfg, n), NssetEntities(cfg, n), NameserverEntries(cfg, n.nservers), NssetEvents(cfg, n))
  }

  /** The document keeps every field of the starting literal and adds the three lists. */
  lemma NssetDocumentKeepsHead(cfg: Config, n: NSSet)
    ensures var d := NssetDocument(cfg, n);
      var h := NssetHead(cfg, n);
      && d.Keys == h.Keys + {"entities", "nameservers", "events"}
      && forall k :: k in h && k != "entities" && k != "nameservers" && k != "events" ==> d[k] == h[k]
  {
    NssetLayoutShape(NssetHead(cfg, n), NssetEntities(cfg, n), NameserverEntries(cfg, n.nservers), NssetEvents(cfg, n));
  }

  /** The three lists of the document are the contacts, the nameserver entries and the events. */
  lemma NssetDocumentListsAre(cfg: Config, n: NSSet)
    ensures var d := NssetDocument(cfg, n);
      && d["entities"] == JArr(NssetEntities(cfg, n))
      && d["nameservers"] == JArr(NameserverEntries(cfg, n.nservers))
      && d["events"] == JArr(NssetEvents(cfg, n))
  {
    NssetLayoutShape(NssetHead(cfg, n), NssetEntities(cfg, n), NameserverEntries(cfg, n.nservers), NssetEvents(cfg, n));
  }

  /** `nsset_to_dict` as a value: no record gives no document. */
  function NssetDict(cfg: Config, s: Option<NSSet>): Option<Doc>
  {
    match s
    case None => None
    case Some(n) => Some(NssetDocument(cfg, n))
  }

  /** `nsset_to_dict`: builds the document, appending contacts, nameservers and events as it goes. */
  method NssetToDict(cfg: Config, s: Option<NSSet>) returns (r: Option<Doc>)
    ensures r == NssetDict(cfg, s)
    ensures s.None? <==> r.None?
  {
    if s.None? {
      return None;
    }
    var n := s.value;
    var result := NssetHead(cfg, n);
    var entities := [EntityRef(n.registrar_handle, "registrar", true, None)];
    var events := [Event("registration", Rfc3339Date(cfg, n.created))];

    var techs := BuildContactRefs(cfg, n.tech_contact_handles, "technical", true);
    entities := entities + techs;

    var nameservers := BuildNameserverEntries(cfg, n.nservers);

    events := AppendChangeEvents(cfg, events, n.changed, n.last_transfer, true);
    assert entities == NssetEntities(cfg, n);
    result := result["entities" := JArr(entities)]["nameservers" := JArr(nameservers)]["events" := JArr(events)];
    r := Some(result);
  }

  /** The literal's keys, and `status` exactly when the mapped statuses are non-empty. */
  lemma NssetHeadKeys(cfg: Config, n: NSSet)
    ensures NssetHead(cfg, n).Keys == {"rdapConformance", "objectClassName", "handle", "port43", "links"}
                   + (if RdapStatusMapping(n.statuses) != [] then {"status"} else {})
  {
  }

  lemma NssetHeadFields(cfg: Config, n: NSSet)
    ensures var h := NssetHead(cfg, n);
      var status := RdapStatusMapping(n.statuses);
      && (status != [] ==> "status" in h && h["status"] == JArr(JStrs(status)))
      && "rdapConformance" in h && h["rdapConformance"] == JArr([JStr("rdap_level_0"), JStr("fred_version_0")])
      && "objectClassName" in h && h["objectClassName"] == JStr(NSSET_CLASS)
      && "handle" in h && h["handle"] == JStr(n.handle)
      && "port43" in h && h["port43"] == JStr(cfg.unixWhoisHost)
      && "links" in h && h["links"] == JArr([SelfLink(Substitute(cfg.nssetUrl, n.handle))])
  {
  }

  /**
   * An nsset document has a fixed key set, plus `status` exactly when the
   * mapped statuses are non-empty.
   */
  lemma NssetDocumentKeys(cfg: Config, n: NSSet)
    ensures NssetDocument(cfg, n).Keys
         == {"rdapConformance", "objectClassName", "handle", "port43", "links", "entities", "nameservers", "events"}
            + (if RdapStatusMapping(n.statuses) != [] then {"status"} else {})
  {
    NssetHeadKeys(cfg, n);
    NssetDocumentKeepsHead(cfg, n);
  }

  /** The document names the nsset and the whois host, links to itself, and carries the mapped statuses. */
  lemma NssetDocumentFields(cfg: Config, n: NSSet)
    ensures var d := NssetDocument(cfg, n);
      var status := RdapStatusMapping(n.statuses);
      && (status != [] ==> d["status"] == JArr(JStrs(status)))
      && d["rdapConformance"] == JArr([JStr("rdap_level_0"), JStr("fred_version_0")])
      && d["objectClassName"] == JStr(NSSET_CLASS)
      && d["handle"] == JStr(n.handle)
      && d["port43"] == JStr(cfg.unixWhoisHost)
      && d["links"] == JArr([SelfLink(Substitute(cfg.nssetUrl, n.handle))])
  {
    NssetHeadFields(cfg, n);
    NssetDocumentKeepsHead(cfg, n);
  }

  /**
   * The registrar comes first and is followed by one technical contact per
   * handle, in order; there is one nameserver entry per nameserver, in order.
   */
  lemma NssetDocumentLists(cfg: Config, n: NSSet)
    ensures var es := Items(NssetDocument(cfg, n)["entities"]);
      && |es| == 1 + |n.tech_contact_handles|
      && es[0] == EntityRef(n.registrar_handle, "registrar", true, None)
      && forall i :: 0 <= i < |n.tech_contact_handles| ==>
           es[i + 1] == LinkedContact(cfg, n.tech_contact_handles[i], "technical", true)
    ensures var ns := Items(NssetDocument(cfg, n)["nameservers"]);
      && |ns| == |n.nservers|
      && forall i :: 0 <= i < |n.nservers| ==> ns[i] == JObj(NameserverEntry(cfg, n.nservers[i]))
  {
    NssetDocumentListsAre(cfg, n);
    var es := NssetEntities(cfg, n);
    forall i | 0 <= i < |n.tech_contact_handles|
      ensures es[i + 1] == LinkedContact(cfg, n.tech_contact_handles[i], "technical", true)
    {
    }
  }

  /** Events: registration, then last changed and transfer when those dates are present. */
  lemma NssetEventActions(cfg: Config, n: NSSet)
    ensures Actions(NssetEvents(cfg, n))
         == ["registration"] + When(n.changed.Some?, "last changed") + When(n.last_transfer.Some?, "transfer")
  {
    var reg := [Event("registration", Rfc3339Date(cfg, n.created))];
    ActionsAppend(reg, ChangeEvents(cfg, n.changed, n.last_transfer, true));
    ActionOfEvent("registration", Rfc3339Date(cfg, n.created), "");
    ChangeEventActions(cfg, n.changed, n.last_transfer, true);
  }

  /** The document's `events` list has exactly those actions, in that order. */
  lemma NssetDocumentEvents(cfg: Config, n: NSSet)
    ensures Actions(Items(NssetDocument(cfg, n)["events"]))
         == ["registration"] + When(n.changed.Some?, "last changed") + When(n.last_transfer.Some?, "transfer")
  {
    NssetDocumentListsAre(cfg, n);
    NssetEventActions(cfg, n);
  }
}
