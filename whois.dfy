/**
 * The lookup functions the views call: each fetches one record from the
 * registry, passes it to its transformer, and translates the registry's
 * exceptions into the two errors the views understand. Any other exception
 * passes through untouched.
 */
module Whois {
  import opened Wrappers
  import opened Json
  import opened Registry
  import opened RdapUtils
  import Entity
  import Nameserver
  import Nsset
  import Keyset
  import Domain

  /** What a getter can raise: one of its two own errors, or an exception it did not catch. */
  datatype LookupError = NotFoundError | InvalidHandleError | Uncaught(error: BackendError)

  /** A getter's outcome: the transformer's result (which may be `None`), or a raised error. */
  datatype Lookup = Found(doc: Option<Doc>) | Failed(error: LookupError)

  /** Translation for contacts, nameservers, nssets and keysets. */
  function ObjectError(e: BackendError): (r: LookupError)
    ensures r == NotFoundError <==> e.kind == ObjectNotFound
    ensures r == InvalidHandleError <==> e.kind == InvalidHandle
    ensures r.Uncaught? ==> r.error == e
  {
    match e.kind
    case ObjectNotFound => NotFoundError
    case InvalidHandle => InvalidHandleError
    case _ => Uncaught(e)
  }

  /**
   * Translation for domains: a name with too many labels or outside the
   * managed zones is not found, and an invalid label is an invalid handle.
   */
  function DomainError(e: BackendError): (r: LookupError)
    ensures r == NotFoundError <==> e.kind == ObjectNotFound || e.kind == TooManyLabels || e.kind == UnmanagedZone
    ensures r == InvalidHandleError <==> e.kind == InvalidLabel
    ensures r.Uncaught? ==> r.error == e
  {
    match e.kind
    case ObjectNotFound => NotFoundError
    case TooManyLabels => NotFoundError
    case UnmanagedZone => NotFoundError
    case InvalidLabel => InvalidHandleError
    case _ => Uncaught(e)
  }

  function GetContactByHandle(cfg: Config, b: Backend, handle: string): Lookup
  {
    match b.contactByHandle(handle)
    case Raised(e) => Failed(ObjectError(e))
    case Fetched(c) => Found(Entity.ContactDict(cfg, c))
  }

  function GetNameserverByHandle(cfg: Config, b: Backend, handle: string): Lookup
  {
    match b.nameserverByFqdn(handle)
    case Raised(e) => Failed(ObjectError(e))
    case Fetched(n) => Found(Nameserver.NameserverToDict(cfg, n))
  }

  function GetNssetByHandle(cfg: Config, b: Backend, handle: string): Lookup
  {
    match b.nssetByHandle(handle)
    case Raised(e) => Failed(ObjectError(e))
    case Fetched(n) => Found(Nsset.NssetDict(cfg, n))
  }

  function GetKeysetByHandle(cfg: Config, b: Backend, handle: string): Lookup
  {
    match b.keysetByHandle(handle)
    case Raised(e) => Failed(ObjectError(e))
    case Fetched(k) => Found(Keyset.KeysetDict(cfg, k))
  }

  /** The domain getter's `try` also covers the transformer, so the nested lookups' errors are translated too. */
  function GetDomainByHandle(cfg: Config, b: Backend, handle: string): Lookup
  {
    match b.domainByHandle(handle)
    case Raised(e) => Failed(DomainError(e))
    case Fetched(s) =>
      match Domain.DomainDict(cfg, b, s)
      case Raised(e) => Failed(DomainError(e))
      case Fetched(r) => Found(r)
  }

  /**
   * Every getter but the domain one returns exactly its transformer's result
   * when the fetch succeeds, and otherwise fails with the translated error.
   */
  lemma ObjectGetters(cfg: Config, b: Backend, handle: string)
    ensures GetContactByHandle(cfg, b, handle).Found?
        <==> b.contactByHandle(handle).Fetched?
    ensures b.contactByHandle(handle).Fetched? ==>
              GetContactByHandle(cfg, b, handle).doc == Entity.ContactDict(cfg, b.contactByHandle(handle).value)
    ensures b.contactByHandle(handle).Raised? ==>
              GetContactByHandle(cfg, b, handle).error == ObjectError(b.contactByHandle(handle).error)
    ensures GetNameserverByHandle(cfg, b, handle).Found?
        <==> b.nameserverByFqdn(handle).Fetched?
    ensures b.nameserverByFqdn(handle).Fetched? ==>
              GetNameserverByHandle(cfg, b, handle).doc == Nameserver.NameserverToDict(cfg, b.nameserverByFqdn(handle).value)
    ensures b.nameserverByFqdn(handle).Raised? ==>
              GetNameserverByHandle(cfg, b, handle).error == ObjectError(b.nameserverByFqdn(handle).error)
    ensures GetNssetByHandle(cfg, b, handle).Found?
        <==> b.nssetByHandle(handle).Fetched?
    ensures b.nssetByHandle(handle).Fetched? ==>
              GetNssetByHandle(cfg, b, handle).doc == Nsset.NssetDict(cfg, b.nssetByHandle(handle).value)
    ensures b.nssetByHandle(handle).Raised? ==>
              GetNssetByHandle(cfg, b, handle).error == ObjectError(b.nssetByHandle(handle).error)
    ensures GetKeysetByHandle(cfg, b, handle).Found?
        <==> b.keysetByHandle(handle).Fetched?
    ensures b.keysetByHandle(handle).Fetched? ==>
              GetKeysetByHandle(cfg, b, handle).doc == Keyset.KeysetDict(cfg, b.keysetByHandle(handle).value)
    ensures b.keysetByHandle(handle).Raised? ==>
              GetKeysetByHandle(cfg, b, handle).error == ObjectError(b.keysetByHandle(handle).error)
  {
  }

  /** A found nameserver's document is exactly the transformer's, with the fqdn as handle. */
  lemma NameserverGetterDocument(cfg: Config, b: Backend, fqdn: string, ns: NameServer)
    requires b.nameserverByFqdn(fqdn) == Fetched(Some(ns))
    ensures var r := GetNameserverByHandle(cfg, b, fqdn);
      && r.Found? && r.doc.Some?
      && r.doc.value["handle"] == JStr(ns.fqdn)
      && r.doc.value.Keys == {"rdapConformance", "objectClassName", "handle", "ldhName", "links"}
  {
  }

  /**
   * For a domain the registry returns, the getter yields a document exactly
   * when the transformer succeeds, and that document is the transformer's;
   * an error raised by a nested lookup is translated by the domain table.
   */
  lemma DomainGetterErrors(cfg: Config, b: Backend, handle: string, d: Registry.Domain, e: BackendError)
    requires b.domainByHandle(handle) == Fetched(Some(d))
    ensures GetDomainByHandle(cfg, b, handle) == Failed(DomainError(e))
        <== Domain.DomainResult(cfg, b, d) == Raised(e)
    ensures GetDomainByHandle(cfg, b, handle).Found?
        <==> Domain.DomainResult(cfg, b, d).Fetched?
    ensures Domain.DomainResult(cfg, b, d).Fetched? ==>
              GetDomainByHandle(cfg, b, handle) == Found(Some(Domain.DomainResult(cfg, b, d).value))
  {
  }

  /**
   * A domain whose nsset has vanished from the registry is itself reported as
   * not found, while an nsset handle the registry rejects as invalid escapes
   * both translations and reaches the view as an unexpected error.
   */
  lemma MissingNssetHidesDomain(cfg: Config, b: Backend, handle: string, d: Registry.Domain, e: BackendError)
    requires b.domainByHandle(handle) == Fetched(Some(d))
    requires !Domain.IsDeleteCandidate(d) && Domain.HasNsset(d)
    requires b.nssetByHandle(d.nsset_handle.value) == Raised(e)
    ensures e.kind == ObjectNotFound ==> GetDomainByHandle(cfg, b, handle) == Failed(NotFoundError)
    ensures e.kind == InvalidHandle ==> GetDomainByHandle(cfg, b, handle) == Failed(Uncaught(e))
  {
    Domain.DomainErrors(cfg, b, d, e);
  }
}
