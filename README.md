# FRED RDAP gateway: response shaping, lookups and views

This project models the part of the FRED registry's RDAP server that turns a
registry record into an RDAP JSON document and turns the outcome of a lookup
into an HTTP response.

- **Transformers.** `domain_to_dict`, `contact_to_dict`, `nsset_to_dict`,
  `keyset_to_dict` and `nameserver_to_dict` each build one document from a
  backend record and read-only settings. The settings are the URL templates,
  the whois host, `DNS_MAX_SIG_LIFE` and the disclaimer. The model covers:
  - self links (RFC 9083 section 4.2);
  - events (RFC 9083 section 4.5) and status (RFC 9083 section 4.6);
  - port43 (RFC 9083 section 4.7);
  - entity, nameserver and domain objects (RFC 9083 sections 5.1 to 5.3);
  - the jCard of a contact;
  - the reduced documents for delete-candidate domains and unlinked contacts;
  - the grouping of nameserver addresses into `v4` and `v6`.
- **Status mapping.** The registry's status vocabulary is translated into RDAP
  values (RFC 8056 section 2, RFC 9083 section 10.2.2). The result has no
  duplicates.
- **Getters.** Each `get_*_by_handle` fetches one record, transforms it, and
  translates the backend's exceptions into `NotFoundError` and
  `InvalidHandleError`. Any other exception passes through.
- **Views.** Two generations of views are modelled: the REST view sets of
  `rdap/rdap_rest/views.py` and the Django views of `rdap/views.py`. Each runs
  a getter, attaches the disclaimer, and maps the outcome to an HTTP status and
  a log status (RFC 7480 section 5). Each closes the request's log record
  exactly once.
- **Older transformers.** The `rdap_rest/` package at the top level is an
  older revision of the domain, contact and keyset transformers. Each has its
  own module.

JSON documents are `map<string, Json>`. Each transformer that builds its
document step by step is a `method` whose `ensures` ties the result to a
specification function. The properties of the document (its exact key set,
field values, order of entities and events) are proved as lemmas about that
function. Backend calls are fields of a `Backend` value. IDNA decoding, IDNA
normalisation and RFC 3339 formatting are uninterpreted functions in `Config`.

The files, one module each:

- `wrappers.dfy` (Wrappers): `Option`
- `json.dfy` (Json): JSON values, dates
- `registry.dfy` (Registry): the backend's records, its exceptions, the `Backend` lookups
- `rdap_utils.dfy` (RdapUtils): `nonempty`, `unwrap_datetime`, `unwrap_date`, the status mapping, `disclosable_nonempty`, `add_unicode_name`, shared JSON fragments
- `nameserver.dfy` (Nameserver): `nameserver_to_dict`
- `nsset.dfy` (Nsset): `nsset_to_dict`
- `keyset.dfy` (Keyset): `keyset_to_dict`
- `entity.dfy` (Entity): `contact_to_dict`
- `domain.dfy` (Domain): `domain_to_dict`, `delete_candidate_domain_to_dict`
- `whois.dfy` (Whois): `get_*_by_handle`
- `rest_views.dfy` (RestViews): `rdap/rdap_rest/views.py`
- `views.dfy` (Views): `rdap/views.py`
- `legacy_domain.dfy` (LegacyDomain): `rdap_rest/domain.py`
- `legacy_entity.dfy` (LegacyEntity): `rdap_rest/entity.py`
- `legacy_keyset.dfy` (LegacyKeyset): `rdap_rest/keyset.py`

## Model

| member | source | states |
|---|---|---|
| RdapUtils.Nonempty | rdap/rdap_rest/rdap_utils.py:15-16 | a value is empty exactly when it is `None` or the empty string; every list, even an empty one, is nonempty |
| RdapUtils.UnwrapDatetime | rdap/rdap_rest/rdap_utils.py:7-9 | year, month and day come from `.date`, and hour, minute and second are copied; there is no sub-second part and no time zone |
| RdapUtils.UnwrapDatetimeInjective | rdap_rest/rdap_utils.py:7-8 | the older `unwrap_datetime`, which is the same function, loses no field: distinct backend times give distinct datetimes |
| RdapUtils.UnwrapDate | rdap/rdap_rest/rdap_utils.py:12-13 | year, month and day are copied |
| RdapUtils.SubstituteParts | rdap/rdap_rest/domain.py:35 | a URL built from a template splits back into the template's prefix, the handle and its suffix; nothing is escaped |
| RdapUtils.SubstituteInjective | rdap/rdap_rest/domain.py:35 | distinct handles give distinct self links under one template |
| RdapUtils.MapStatuses | rdap/tests/test_utils.py:55-79 | the mapping's fold keeps its accumulator as a prefix, adds no duplicate, and contains exactly the accumulated values and the values of known tokens |
| RdapUtils.RdapStatusMapping | rdap/tests/test_utils.py:52-79 | no statuses map to `["active"]`; otherwise a status is in the result exactly when some token maps to it; the result has no duplicates |
| RdapUtils.MapsToUncons | rdap/tests/test_utils.py:55-79 | a token list maps to a value exactly when its first token does or the rest of the list does |
| RdapUtils.UnknownStatusesDropped | rdap/tests/test_utils.py:55-59 | a non-empty list of unknown tokens maps to the empty list, with no error |
| RdapUtils.SingleKnownStatus | rdap/tests/test_utils.py:61-69 | a single known token maps to exactly its table entry (`inactive`, `linked`, `ok`, `outzone`, `pending*`) |
| RdapUtils.LinkedMapsToAssociated | rdap/tests/test_utils.py:64 | a status list containing `linked` maps to a list containing `associated`, so the list is never empty |
| RdapUtils.MapStatusesStep | rdap/tests/test_utils.py:71-74 | one more token at the front is folded in first |
| RdapUtils.MapStatusesSnoc | rdap/tests/test_utils.py:71-79 | one more token at the end adds its mapped value at most once, and never when it is unknown or already present, so the tests' duplicate-free result follows; putting it after the earlier values is the model's order |
| RdapUtils.StatusMappingSnoc | rdap/tests/test_utils.py:71-79 | the same for the public mapping of a non-empty status list |
| RdapUtils.StatusMappingDeduplicates | rdap/tests/test_utils.py:76-79 | `validatedContact`, `contactPassedManualVerification` and `deleteCandidate` map to `validated` and `pending delete`, each once, which is the set of values the test accepts; the order `["validated", "pending delete"]` is the model's |
| RdapUtils.MappingOfThree | rdap/tests/test_utils.py:76-79 | three known tokens of which the first two share an RDAP value map to the two values, each once, as the test requires; the first-occurrence order is the model's |
| RdapUtils.DisclosableFields | rdap/tests/test_utils.py:31-47 | `DisclosableNonempty` (`disclosable_nonempty`) holds exactly when the field is disclosed and its value is non-empty; an address value is never empty |
| RdapUtils.AddUnicodeNameSpec | rdap/tests/test_utils.py:125-145 | `AddUnicodeName`: a name whose IDNA decoding equals it leaves the document unchanged; otherwise `unicodeName` is set to the decoded name, replacing any earlier value; every other key is kept |
| RdapUtils.SelfLinkShape | rdap/rdap_rest/nsset.py:50-57 | a self link has exactly `value`, `rel`, `href` and `type`; `value` equals `href`, `rel` is `self` and the type is `application/rdap+json` |
| RdapUtils.EntityRefShape | rdap/rdap_rest/nsset.py:36-42 | an entity reference has the handle and one role, `objectClassName` `entity` exactly when classed, a self link exactly when a target is given, and no other key |
| RdapUtils.ContactRefs | rdap/rdap_rest/nsset.py:65-78 | one reference per contact handle, in input order, each with the role and the contact's self link |
| RdapUtils.BuildContactRefs | rdap/rdap_rest/nsset.py:65-78 | the loop over the contact handles appends exactly those references |
| RdapUtils.Actions | rdap/rdap_rest/nsset.py:44-49 | the list of event actions has one action per event, in order |
| RdapUtils.ActionOfEvent | rdap/rdap_rest/nsset.py:114-117 | an event built with an action reports that action |
| RdapUtils.ActionsAppend | rdap/rdap_rest/nsset.py:113-122 | the actions of appended events are appended to the actions |
| RdapUtils.AppendWhen | rdap/rdap_rest/nsset.py:113-117 | a conditional append adds the element exactly when the condition holds |
| RdapUtils.AppendChangeEvents | rdap/rdap_rest/nsset.py:113-122 | the two conditional appends add the change events to the end of the list |
| RdapUtils.ChangeEventActions | rdap/rdap_rest/nsset.py:113-122 | the change events are `last changed` and then `transfer`, each exactly when its date is present |
| RdapUtils.PropNames | rdap/rdap_rest/entity.py:47-83 | the vCard's property names have one name per property, in order |
| RdapUtils.PropNamesAppend | rdap/rdap_rest/entity.py:47-83 | the names of appended properties are appended to the names |
| RdapUtils.PropNamesOfThree | rdap/rdap_rest/entity.py:47-83 | the same for three property lists in a row |
| RdapUtils.PropNamesWhen | rdap/rdap_rest/entity.py:49-54 | a conditionally appended property contributes its name exactly when it is appended |
| Json.JStrs | rdap/rdap_rest/nsset.py:61-63 | a list of strings becomes one JSON string per element, in order |
| Nameserver.NameserverToDict | rdap/rdap_rest/nameserver.py:15-33 | no record gives no document; otherwise the document has exactly `rdapConformance` `["rdap_level_0"]`, `objectClassName` `nameserver`, `handle` and `ldhName` both equal to the fqdn, and a self link from the nameserver template |
| Nsset.AddressesOf | rdap/rdap_rest/nsset.py:100-104 | an address is in a family's list exactly when some address of that family has it; the list is no longer than the input |
| Nsset.AddressesOfAppend | rdap/rdap_rest/nsset.py:100-104 | grouping by family keeps the input order |
| Nsset.AddressesPartition | rdap/rdap_rest/nsset.py:100-104 | every address lands in exactly one of the two families |
| Nsset.AddressesOfNonempty | rdap/rdap_rest/nsset.py:106-109 | a family's list is non-empty exactly when some address is of that family |
| Nsset.IpGroupsShape | rdap/rdap_rest/nsset.py:97-109 | `ipAddresses` has only `v4` and `v6`, each present exactly when that family has an address, and each lists that family's addresses in order |
| Nsset.BuildNameserverEntry | rdap/rdap_rest/nsset.py:81-109 | the per-nameserver code, with its two address accumulators, builds exactly the specified entry |
| Nsset.NameserverEntryShape | rdap/rdap_rest/nsset.py:81-109 | an entry has `handle` and `ldhName` equal to the fqdn, class `nameserver` and a self link; it has `ipAddresses` exactly when there are addresses, grouped by family, and `unicodeName` exactly when the IDNA decoding differs |
| Nsset.NameserverEntries | rdap/rdap_rest/nsset.py:80-111 | one entry per nameserver, in order |
| Nsset.BuildNameserverEntries | rdap/rdap_rest/nsset.py:80-111 | the loop over the nameservers appends exactly those entries |
| Nsset.NssetLayoutShape | rdap/rdap_rest/nsset.py:32-59 | the document is the literal plus the three lists; every other field of the literal is kept |
| Nsset.NssetDocumentKeepsHead | rdap/rdap_rest/nsset.py:32-63 | the document keeps every field of the literal and adds exactly `entities`, `nameservers` and `events` |
| Nsset.NssetDocumentListsAre | rdap/rdap_rest/nsset.py:36-122 | the three lists are the contacts, the nameserver entries and the events |
| Nsset.NssetToDict | rdap/rdap_rest/nsset.py:27-122 | no record gives no document; otherwise the method builds exactly the specified document |
| Nsset.NssetHeadKeys | rdap/rdap_rest/nsset.py:32-63 | the literal's keys, and `status` exactly when the mapped statuses are non-empty |
| Nsset.NssetHeadFields | rdap/rdap_rest/nsset.py:30-63 | the literal holds the conformance, class `nsset`, the handle, the whois host, the self link, and the mapped statuses when they are non-empty |
| Nsset.NssetDocumentKeys | rdap/rdap_rest/nsset.py:32-63 | an nsset document has exactly its eight fixed keys, plus `status` exactly when the mapped statuses are non-empty |
| Nsset.NssetDocumentFields | rdap/rdap_rest/nsset.py:30-63 | the document holds the conformance, class, handle, whois host, self link and mapped statuses |
| Nsset.NssetDocumentLists | rdap/rdap_rest/nsset.py:36-111 | the registrar comes first, then one technical contact per handle, in order; there is one nameserver entry per nameserver, in order |
| Nsset.NssetEventActions | rdap/rdap_rest/nsset.py:44-49 | the events are registration, then last changed and transfer, each when its date is present |
| Nsset.NssetDocumentEvents | rdap/rdap_rest/nsset.py:113-122 | the document's `events` list has exactly those actions, in that order |
| Keyset.KeyJsonRoundTrip | rdap/rdap_rest/keyset.py:89-94 | a key entry has exactly `flags`, `protocol`, `algorithm` (from `alg`) and `publicKey`, and the key can be read back from it |
| Keyset.KeyEntries | rdap/rdap_rest/keyset.py:88-94 | one entry per key, in order |
| Keyset.KeyEntriesRoundTrip | rdap/rdap_rest/keyset.py:86-94 | the list of key entries gives back exactly the keyset's keys |
| Keyset.BuildKeyEntries | rdap/rdap_rest/keyset.py:88-94 | the loop over the keys appends exactly those entries |
| Keyset.KeysetLayoutShape | rdap/rdap_rest/keyset.py:32-56 | the document is the literal plus the two lists; every other field is kept |
| Keyset.KeysetToDict | rdap/rdap_rest/keyset.py:27-94 | no record gives no document; otherwise the method builds exactly the specified document |
| Keyset.KeysetDocumentKeepsHead | rdap/rdap_rest/keyset.py:32-59 | the document keeps every field of the literal and adds `entities` and `events` |
| Keyset.KeysetDocumentListsAre | rdap/rdap_rest/keyset.py:35-84 | the two lists are the contacts and the events |
| Keyset.KeysetDocumentKeys | rdap/rdap_rest/keyset.py:32-94 | a keyset document has its six fixed keys and no `objectClassName`; it has `status` exactly when there are statuses and `dns_keys` exactly when there are keys |
| Keyset.KeysetDocumentStatusAndKeys | rdap/rdap_rest/keyset.py:58-94 | `status` holds the raw, unmapped statuses; `dns_keys` gives back exactly the keyset's keys |
| Keyset.KeysetHeadFields | rdap/rdap_rest/keyset.py:30-55 | the literal holds the conformance `["rdap_level_0", "cznic_version_0"]`, the handle, the whois host and the self link |
| Keyset.KeysetHeadOptional | rdap/rdap_rest/keyset.py:58-94 | the statuses and the key entries are written when non-empty |
| Keyset.KeysetDocumentFields | rdap/rdap_rest/keyset.py:30-55 | the document holds the conformance, the handle, the whois host and the self link |
| Keyset.KeysetDocumentEntities | rdap/rdap_rest/keyset.py:35-73 | the registrar comes first, with no class and no link, then one technical contact per handle, in order, each with a link |
| Keyset.KeysetEntitiesOrder | rdap/rdap_rest/keyset.py:35-73 | the same, for the entity list before it is placed in the document |
| Keyset.KeysetDocumentEvents | rdap/rdap_rest/keyset.py:42-84 | the events are registration, then last changed and transfer, each when its date is present |
| LegacyKeyset.LegacyKeysetToDict | rdap_rest/keyset.py:26-102 | no record gives no document; otherwise the method builds exactly the specified document |
| LegacyKeyset.LegacyHeadKeys | rdap_rest/keyset.py:31-69 | the older literal has the current one's keys plus `status` and `dns_keys` |
| LegacyKeyset.LegacyHeadValues | rdap_rest/keyset.py:31-69 | every field the two literals share has the same value |
| LegacyKeyset.LegacyKeysetExtendsCurrent | rdap_rest/keyset.py:31-102 | the older document is the current one with `status` (raw statuses) and `dns_keys` (one entry per key) always present, even when empty |
| Entity.AppendIdentity | rdap/rdap_rest/entity.py:49-71 | the name, organization and address properties are appended, each exactly when it is shown |
| Entity.AppendReach | rdap/rdap_rest/entity.py:72-83 | the voice phone, fax and email properties are appended, each exactly when it is shown |
| Entity.BuildVCard | rdap/rdap_rest/entity.py:47-83 | the conditional appends build exactly the specified jCard, which starts with the version entry |
| Entity.IdentityNames | rdap/rdap_rest/entity.py:49-71 | the identity part of the jCard is `fn`, `org` and `adr`, in that order, each when shown |
| Entity.ReachNames | rdap/rdap_rest/entity.py:72-83 | the reach part is `tel` (voice), `tel` (fax) and `email`, in that order, each when shown |
| Entity.VCardNamesShown | rdap/rdap_rest/entity.py:47-83 | the jCard's names are `version` and then the shown properties in their fixed order |
| Entity.VCardNames | rdap/rdap_rest/entity.py:47-83 | the same order, with each property present exactly when its field is disclosed and non-empty; an address needs only to be disclosed |
| Entity.VCardOfUndisclosed | rdap/rdap_rest/entity.py:47 | a contact that discloses nothing has a jCard holding only the version entry |
| Entity.VCardValues | rdap/rdap_rest/entity.py:49-83 | each shown field's property is in the jCard with the source's name, parameters, type and value: `fn` and `org` as text, `adr` typed `""` holding the 8-element list with an empty post-office box first, the phone as `tel:` + number typed `voice`, the fax as `tel:` + number typed `fax`, and `email` typed `""` |
| Entity.ContactToDict | rdap/rdap_rest/entity.py:17-126 | no record gives no document; otherwise the method builds exactly the specified document, choosing the branch on `linked` |
| Entity.UnlinkedDocumentKeys | rdap/rdap_rest/entity.py:21-45 | an unlinked contact is published with exactly seven keys: no jCard, no events and no status; conformance `["rdap_level_0"]`, class `entity`, the handle, the template self link, `port43` = the whois host, the sponsoring registrar as the only entity (classed, no link), and the single remark "Omitting data because contact is not linked to any registry object." |
| Entity.LinkedDocumentKeys | rdap/rdap_rest/entity.py:85-116 | a linked contact's document has exactly nine keys, including `status`, which holds `associated` |
| Entity.LinkedHeadFields | rdap/rdap_rest/entity.py:85-116 | the linked literal holds the mapped statuses, the jCard, the handle, the registrar and the self link |
| Entity.LinkedDocumentFields | rdap/rdap_rest/entity.py:85-126 | the linked document holds the mapped statuses, the jCard, the handle, the sponsoring registrar as the only entity, and the self link |
| Entity.ContactEventsShape | rdap/rdap_rest/entity.py:99-126 | the events are registration (with the creating registrar as actor and the raw creation datetime), then last changed and transfer when present |
| Entity.PersonalDataOnlyWhenLinked | rdap/rdap_rest/entity.py:21-89 | the jCard and the events are published exactly for linked contacts |
| LegacyEntity.AppendLegacyIdentity | rdap_rest/entity.py:24-44 | the name, organization and address properties are appended, each exactly when the field is not `None` |
| LegacyEntity.AppendLegacyReach | rdap_rest/entity.py:45-57 | the phone and email properties are appended, each exactly when the field is not `None` |
| LegacyEntity.AppendLegacyChangeEvents | rdap_rest/entity.py:81-90 | the `last_update` and `last_transfer` events are appended, each exactly when its date is not `None` |
| LegacyEntity.LegacyContactToDict | rdap_rest/entity.py:14-90 | the method builds exactly the specified document; a missing record gives the conformance-only document |
| LegacyEntity.LegacyVCardValues | rdap_rest/entity.py:24-57 | the jCard starts with version `4.0`; `fn`, `org` and `email` carry the raw values; `adr` is typed `official` with an 8-element value starting with `""`; `tel` is typed `["official"]` with value `"tel:" + phone`; each present field's property is in the jCard |
| LegacyEntity.MissingRecordShape | rdap_rest/entity.py:14-17 | the document for a missing record has `rdapConformance` `["rdap_level_0"]` and nothing else |
| LegacyEntity.LegacyContactKeys | rdap_rest/entity.py:19-80 | a present contact has exactly seven keys, with the raw statuses and a self link `<root>/entity/<handle>` |
| LegacyEntity.LegacyVCardNames | rdap_rest/entity.py:22-57 | the jCard's names are `version`, then `fn`, `org`, `adr`, `tel` and `email`, each exactly when the field is present |
| LegacyEntity.LegacyIdentityNames | rdap_rest/entity.py:24-44 | the identity part of the jCard is `fn`, `org` and `adr`, each when present |
| LegacyEntity.LegacyReachNames | rdap_rest/entity.py:45-57 | the reach part is `tel` and `email`, each when present |
| LegacyEntity.LegacyChangeActions | rdap_rest/entity.py:81-90 | the change events are `last_update` and then `last_transfer`, each when present |
| LegacyEntity.LegacyEventActions | rdap_rest/entity.py:73-90 | the events are `created` first, then `last_update` and `last_transfer` when present |
| LegacyDomain.LegacyDomainToDict | rdap_rest/domain.py:14-90 | the method builds exactly the specified document; a missing record gives the conformance-only document |
| LegacyDomain.LegacyDomainKeys | rdap_rest/domain.py:21-75 | a present domain has exactly nine keys, whatever its record holds |
| LegacyDomain.LegacyDomainFields | rdap_rest/domain.py:19-36 | `handle`, `ldhName` and `unicodeName` all hold the handle; `status` is the raw status list; the self link comes from the domain template; `port43` is the whois host |
| LegacyDomain.LegacyDomainEvents | rdap_rest/domain.py:37-58 | every domain gets the same four placeholder events: registration, last changed, transfer, expiration |
| LegacyDomain.LegacyDomainEntitiesShape | rdap_rest/domain.py:59-90 | the registrant comes first, then one entry per administrative handle, in order, under role `technical` |
| LegacyDomain.LegacyDomainDocumentEntities | rdap_rest/domain.py:59-90 | the same for the document's `entities` list |
| Domain.DeleteCandidateDomainToDict | rdap/rdap_rest/domain.py:219-252 | no record gives no document; otherwise the method builds exactly the reduced document |
| Domain.DomainLayoutShape | rdap/rdap_rest/domain.py:42-86 | the document is the head plus `entities` and `events`; every other field of the head is kept |
| Domain.BuildDomainEntities | rdap/rdap_rest/domain.py:66-105 | the literal's two entities followed by the appended administrative contacts are exactly the specified list |
| Domain.BuildDomainEvents | rdap/rdap_rest/domain.py:37-129 | the two first events and the conditional appends give exactly the specified event list |
| Domain.BuildDelegation | rdap/rdap_rest/domain.py:147-178 | the loop over the nameservers fills `nameservers` and `fred_nsset.nameservers` with the same entries, one per nameserver, in order |
| Domain.BuildKeyData | rdap/rdap_rest/domain.py:202-214 | the loop over the keys fills `keyData` and `dns_keys` with the same entries, one per key, in order |
| Domain.AttachNsset | rdap/rdap_rest/domain.py:130-178 | the nsset is fetched only for a non-empty handle; a raised error is passed on; a missing nsset leaves the document alone; a found one is embedded as specified |
| Domain.AttachKeyset | rdap/rdap_rest/domain.py:180-214 | the same for the keyset, which is embedded as `secureDNS` and `fred_keyset` |
| Domain.DomainToDict | rdap/rdap_rest/domain.py:28-214 | the method computes exactly `DomainDict`, the specified outcome: no record gives no document, a delete candidate the reduced one, and an inner lookup's error is passed on |
| Domain.DeleteCandidateRouting | rdap/rdap_rest/domain.py:31-33 | a domain is routed to the reduced document exactly when `deleteCandidate` is among its statuses, and then nothing else is built |
| Domain.DeleteCandidateShape | rdap/rdap_rest/domain.py:228-249 | the reduced document has exactly the identity keys, the self link, `port43` and `status` `["pending delete"]`, plus `unicodeName` exactly when the IDNA decoding differs |
| Domain.DomainHeadFields | rdap/rdap_rest/domain.py:42-108 | the head's values: `handle` and `ldhName` are the handle, `links` the self link, `port43` the whois host, `rdapConformance` both levels, `unicodeName` the decoded name when it differs, and `status` the mapped statuses exactly when there are any |
| Domain.NamedLiteralFields | rdap/rdap_rest/domain.py:42-55 | the identity literal with `unicodeName` carries both conformance levels, the domain class, the handle as `handle` and `ldhName`, the self link, the whois host and the decoded name when it differs, and no `status` |
| Domain.DomainHeadHasNoLists | rdap/rdap_rest/domain.py:42-55 | the head has neither `entities` nor `events`, so the layout's lists do not overwrite any head field |
| Domain.DomainDocumentKeepsHead | rdap/rdap_rest/domain.py:42-214 | every head field reaches the full document unchanged, whatever the nsset and keyset lookups add |
| Domain.DomainDocumentFields | rdap/rdap_rest/domain.py:42-108 | a full domain document has the handle as `handle` and `ldhName`, its self link, the whois host as `port43`, and the mapped statuses as `status` when there are any |
| Domain.DomainHeadKeys | rdap/rdap_rest/domain.py:42-108 | the head has the identity keys, `unicodeName` exactly when the decoding differs, and `status` exactly when the mapped statuses are non-empty |
| Domain.DomainBaseKeys | rdap/rdap_rest/domain.py:42-129 | before delegation, the document has exactly the identity keys, `entities` and `events`, with `unicodeName` and `status` as above |
| Domain.DomainBaseListsAre | rdap/rdap_rest/domain.py:56-129 | the two lists of the base document are the contacts and the events |
| Domain.DomainEntitiesShape | rdap/rdap_rest/domain.py:66-105 | the registrant comes first with a link, then the registrar with none, then one administrative contact per handle, in order |
| Domain.DomainBaseEntities | rdap/rdap_rest/domain.py:66-105 | the same for the document's `entities` list |
| Domain.ValidationEventActions | rdap/rdap_rest/domain.py:119-129 | there is a validation event exactly when an actual or estimated validation date exists |
| Domain.FirstEventActions | rdap/rdap_rest/domain.py:56-65 | the events start with registration and expiration |
| Domain.DomainEventActions | rdap/rdap_rest/domain.py:56-129 | the events are registration, expiration, then last changed, transfer and enum validation expiration, each when its date is present |
| Domain.DomainBaseEvents | rdap/rdap_rest/domain.py:56-129 | the document's `events` list has exactly those actions, in that order |
| Domain.DomainEventDates | rdap/rdap_rest/domain.py:37-129 | the expiration event uses the actual date when known and the estimate otherwise; the validation event prefers the actual date likewise |
| Domain.WithNssetShape | rdap/rdap_rest/domain.py:133-178 | embedding an nsset adds exactly `nameservers` and `fred_nsset`, whose own `nameservers` is the same list; every other field is kept |
| Domain.WithKeysetShape | rdap/rdap_rest/domain.py:183-214 | embedding a keyset adds exactly `secureDNS` and `fred_keyset`; `keyData` equals `dns_keys`, and the keys read back unchanged |
| Domain.KeysetStepKeeps | rdap/rdap_rest/domain.py:180-214 | a successful keyset step changes no field other than `secureDNS` and `fred_keyset` |
| Domain.NssetStepKeeps | rdap/rdap_rest/domain.py:130-178 | a successful nsset step changes no field other than `nameservers` and `fred_nsset` |
| Domain.DomainEmbedsNsset | rdap/rdap_rest/domain.py:130-178 | when the domain's nsset is found, `nameservers` lists one entry per nameserver, and `fred_nsset` names the nsset, links to it and lists the same entries |
| Domain.DomainEmbedsKeyset | rdap/rdap_rest/domain.py:180-214 | when the domain's keyset is found, `secureDNS` declares the zone and the delegation signed with the configured `maxSigLife` and lists the keys; `fred_keyset` lists the same keys |
| Domain.DomainBaseHasNoDelegation | rdap/rdap_rest/domain.py:42-129 | the base document has none of the four keys the lookups add |
| Domain.DomainHeadHasNoDelegation | rdap/rdap_rest/domain.py:42-108 | the head has none of them either |
| Domain.NamedLiteralHasNoDelegation | rdap/rdap_rest/domain.py:42-88 | the literal with `unicodeName` has none of them either |
| Domain.DomainResultKeepsBase | rdap/rdap_rest/domain.py:130-214 | every field of the base document survives both lookups unchanged |
| Domain.LookupsOnlyForNamedHandles | rdap/rdap_rest/domain.py:130-181 | the registry is consulted only for the handles the domain names: backends that agree on those give the same result |
| Domain.StepsAgree | rdap/rdap_rest/domain.py:130-181 | the same for each lookup step on its own |
| Domain.DomainErrors | rdap/rdap_rest/domain.py:28-214 | `DomainResult` for one domain is an error exactly when it is not a delete candidate and the nsset lookup raises it, or the nsset lookup does not raise and the keyset lookup does |
| Whois.ObjectError | rdap/rdap_rest/whois.py:35-82 | `OBJECT_NOT_FOUND` becomes `NotFoundError` and `INVALID_HANDLE` becomes `InvalidHandleError`, in both directions; any other error passes through unchanged |
| Whois.DomainError | rdap/rdap_rest/whois.py:49-52 | `OBJECT_NOT_FOUND`, `TOO_MANY_LABELS` and `UNMANAGED_ZONE` become `NotFoundError`, and `INVALID_LABEL` becomes `InvalidHandleError`, in both directions; any other error passes through unchanged |
| Whois.ObjectGetters | rdap/rdap_rest/whois.py:35-82 | the contact, nameserver, nsset and keyset getters (`GetContactByHandle`, `GetNameserverByHandle`, `GetNssetByHandle`, `GetKeysetByHandle`) each succeed exactly when their fetch does, then return exactly the transformer's document, and otherwise fail with the error translated by the object table |
| Whois.NameserverGetterDocument | rdap/rdap_rest/whois.py:55-62 | a found nameserver's document has exactly the five nameserver keys, with the fqdn as handle |
| Whois.DomainGetterErrors | rdap/rdap_rest/whois.py:45-52 | for a fetched domain, `GetDomainByHandle` succeeds exactly when the transformer does and returns its document; an error from a nested lookup is translated by the domain table |
| Whois.MissingNssetHidesDomain | rdap/rdap_rest/whois.py:45-52 | a domain whose nsset has vanished is reported not found, while an nsset handle rejected as invalid escapes both translations |
| RestViews.TranslateRestPathKnown | rdap/rdap_rest/views.py:15-26 | `TranslateRestPath` maps `entity`, `domain`, `nameserver`, `fred_nsset` and `fred_keyset` to `EntityLookup`, `DomainLookup`, `NameserverLookup`, `NSSetLookup` and `KeySetLookup`; only these paths get a type, no two share one, and every other path has the empty type |
| RestViews.LogRequest.constructor | rdap/rdap_rest/views.py:29-31 | a new log record is an RDAP request of the path's type from the remote address, carrying the handle, not yet closed |
| RestViews.LogRequest.Close | rdap/rdap_rest/views.py:68-69 | closing records exactly one more `(status, content)` pair and changes nothing else |
| RestViews.AppendDisclaimer | rdap/rdap_rest/views.py:43-51 | the in-place update gives exactly the specified document, or the error `.append` raises |
| RestViews.AddDisclaimerSpec | rdap/rdap_rest/views.py:43-51 | attaching the disclaimer fails exactly when `notices` is present and not a list; otherwise every other field and every earlier notice is kept, and one disclaimer notice is added at the end |
| RestViews.ResponseHandling | rdap/rdap_rest/views.py:34-71 | the response is the outcome's content and status with the CORS header; the log record is closed exactly once more with the outcome's status and content, and is otherwise unchanged |
| RestViews.HandleStatuses | rdap/rdap_rest/views.py:53-67 | for `Handle`, the outcome of `response_handling` as a value, the status is 200, 404, 400 or 500, each paired with its own log status; only 200 carries content; 404 and 400 answer exactly `NotFoundError` and `InvalidHandleError`; logged content implies 500 |
| RestViews.HandleUncaught | rdap/rdap_rest/views.py:62-67 | any other error is answered 500 with no content, and its text is logged |
| RestViews.HandleDocument | rdap/rdap_rest/views.py:43-55 | a document whose `notices`, if present, is a list is answered 200 and logged "Ok": unchanged without a disclaimer, and with the disclaimer notice appended after its own notices when one is configured |
| RestViews.HandleNoDocument | rdap/rdap_rest/views.py:43-55 | a getter returning no document is answered 200 with no content without a disclaimer, and 500 with one |
| RestViews.Retrieve | rdap/rdap_rest/views.py:29-71 | a fresh log record is created for the path, handle and address and closed exactly once with the outcome; the response is the outcome's |
| RestViews.EntityRetrieve | rdap/rdap_rest/views.py:74-84 | the entity view answers the contact getter's outcome and closes its fresh log record once |
| RestViews.DomainRetrieve | rdap/rdap_rest/views.py:87-101 | an invalid IDN is answered 400 with no content, no CORS header and no log record; otherwise the normalised name is looked up, logged and answered as above |
| RestViews.NameserverRetrieve | rdap/rdap_rest/views.py:104-118 | the same for nameservers |
| RestViews.NssetRetrieve | rdap/rdap_rest/views.py:121-131 | the nsset view answers the nsset getter's outcome and closes its fresh log record once |
| RestViews.KeysetRetrieve | rdap/rdap_rest/views.py:134-144 | the keyset view answers the keyset getter's outcome and closes its fresh log record once |
| RestViews.FixedResponses | rdap/rdap_rest/views.py:147-174 | malformed paths are answered 400 and unsupported ones 501, both empty and without the CORS header; help answers 200 with the CORS header, exactly `rdapConformance` `["rdap_level_0"]` and `notices`, which is the single notice titled `Help` with description `["No help."]` |
| Views.ObjectLog.constructor | rdap/views.py:32-33 | a new log record is an RDAP request of the view's type from the remote address, carrying the handle, with no result and not yet closed |
| Views.ObjectLog.Close | rdap/views.py:55-56 | closing records exactly one more property list and changes nothing else |
| Views.ObjectViewGet | rdap/views.py:31-56 | a fresh log record is created, its result set as specified, and it is closed exactly once with the collected properties; the outcome is the specified response or re-raised exception |
| Views.FqdnObjectViewGet | rdap/views.py:64-69 | an invalid IDN is answered 400 with no body before any log record is created; otherwise the normalised name is served as above |
| Views.ObjectGetOutcomes | rdap/views.py:36-54 | for `ObjectGet`, the outcome of `ObjectView.get` as a value, a response is 200, 404 or 400, each with its own log result, no properties, a body only on 200 and the CORS header only on 200; 404 and 400 answer exactly the getter's two errors; a re-raised exception is closed with its class name as the only property |
| Views.ObjectGetReraises | rdap/views.py:52-54 | an error the getter did not translate propagates under its own class name, with no result logged |
| Views.ObjectGetNoDocument | rdap/views.py:36-45 | a getter returning no document always ends in an exception; the result has been set to "Ok" exactly when no disclaimer is configured |
| Views.ObjectGetAgreesWithRest | rdap/views.py:36-45 | for a document, the view responds exactly when the REST view answers 200, and with the same body, disclaimer included |
| Views.FixedViews | rdap/views.py:76-95 | help answers 200 with the CORS header, both conformance levels and the single notice titled `Help` with description `["No help."]`; an unsupported path answers its status, 501 by default, with no body and no CORS header |

## Left out

- Backend transport: the CORBA and gRPC clients, the module-level `_WHOIS`/`_CORBA` singletons and `c2u`/`u2c` recoding are not modelled. Each fetch is a function field of `Registry.Backend`, and recoding is the identity.
- Time zones and IDNA: `to_rfc3339`, the IDNA decoding inside `add_unicode_name` and `preprocess_fqdn` are uninterpreted functions in `Config`, because their results depend on the time-zone database and Python codecs. `InvalidIdn` is a `None` result of `preprocessFqdn`.
- RdapUtils.RdapStatusMapping: the table holds only the entries the tests fix. Every other registry status is treated as unknown and dropped. `rdap_status_mapping` is imported from `rdap_utils` by `nsset.py`, `entity.py` and `domain.py`, but `rdap/rdap_rest/rdap_utils.py` as it stands defines only `unwrap_datetime`, `unwrap_date` and `nonempty`, so the model fixes only the entries `rdap/tests/test_utils.py` asserts (lines 52-79). The result order (first occurrence) is the model's choice as well: the tests compare with `assertCountEqual`, which fixes the values and not their order, so the order of every `status` list in the nsset, contact and domain documents is the model's too.
- Object class names: the `ObjectClassName` enum is not part of this model. Its values are taken to be the lower-case class names, so the nsset and keyset classes are `nsset` and `keyset`.
- Dictionary order: documents are maps, so the order of keys within a JSON object is not modelled. The order of every list is modelled.
- Logging: the logging service is reduced to the record each view creates and the `close` calls made on it. `logging.debug` calls and traceback formatting are not modelled.
- Disclaimer file: `get_disclaimer_text` reads a file. The model holds its text in `Config.disclaimer`, which is `None` when no disclaimer file is configured.
- Routing: `rdap/urls.py` is not part of this model. Each view takes its getter and request type as parameters, and `UnsupportedView`'s status is a parameter (501 by default).
- HTTP framework: Django and DRF response classes, content negotiation, renderers and the exception handler are not modelled. A response is its status, content type, body and headers, and a re-raised exception is its class name.
- RestViews.Handle: the text of an exception raised inside `response_handling` is modelled as a backend error's message or a Python error built from `PyTypeName`. Python's exact message for other value types is not modelled.
- The older `rdap_rest/whois.py` and `rdap_rest/views.py` are not part of this model: one reflects over attributes and the other is a prototype with a bare `except`.
- Error documents: no RDAP error body (section 6 of RFC 9083) is built for 400, 404, 500 or 501 responses, so only the status is modelled.
