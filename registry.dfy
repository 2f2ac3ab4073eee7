/**
 * The records the registry backend returns (the Whois interface's structs)
 * and the exceptions it raises. Only the fields the transformers read are
 * kept.
 */
module Registry {
  import opened Wrappers

  datatype IdlDate = IdlDate(year: int, month: int, day: int)
  datatype IdlDateTime = IdlDateTime(date: IdlDate, hour: int, minute: int, second: int)

  /** A field whose publication the contact controls. */
  datatype Disclosable<T> = Disclosable(value: T, disclose: bool)

  datatype PlaceAddress = PlaceAddress(street1: string, street2: string, street3: string,
                                       city: string, stateorprovince: string,
                                       postalcode: string, country_code: string)

  datatype Contact = Contact(
    handle: string,
    organization: Disclosable<string>,
    name: Disclosable<string>,
    address: Disclosable<PlaceAddress>,
    phone: Disclosable<string>,
    fax: Disclosable<string>,
    email: Disclosable<string>,
    creating_registrar_handle: string,
    sponsoring_registrar_handle: string,
    created: IdlDateTime,
    changed: Option<IdlDateTime>,
    last_transfer: Option<IdlDateTime>,
    statuses: seq<string>)

  datatype Domain = Domain(
    handle: string,
    registrant_handle: string,
    admin_contact_handles: seq<string>,
    nsset_handle: Option<string>,
    keyset_handle: Option<string>,
    registrar_handle: string,
    statuses: seq<string>,
    registered: IdlDateTime,
    changed: Option<IdlDateTime>,
    last_transfer: Option<IdlDateTime>,
    expire_time_estimate: IdlDateTime,
    expire_time_actual: Option<IdlDateTime>,
    validated_to_time_estimate: Option<IdlDateTime>,
    validated_to_time_actual: Option<IdlDateTime>)

  datatype IPVersion = IPv4 | IPv6
  datatype IPAddress = IPAddress(address: string, version: IPVersion)
  datatype NameServer = NameServer(fqdn: string, ip_addresses: seq<IPAddress>)

  datatype NSSet = NSSet(
    handle: string,
    nservers: seq<NameServer>,
    tech_contact_handles: seq<string>,
    registrar_handle: string,
    created: IdlDateTime,
    changed: Option<IdlDateTime>,
    last_transfer: Option<IdlDateTime>,
    statuses: seq<string>)

  datatype DNSKey = DNSKey(flags: int, protocol: int, alg: int, public_key: string)

  datatype KeySet = KeySet(
    handle: string,
    dns_keys: seq<DNSKey>,
    tech_contact_handles: seq<string>,
    registrar_handle: string,
    created: IdlDateTime,
    changed: Option<IdlDateTime>,
    last_transfer: Option<IdlDateTime>,
    statuses: seq<string>)

  /** The exception classes of the Whois interface; anything else the call can raise is `OtherError`. */
  datatype ErrorKind =
    | ObjectNotFound
    | InvalidHandle
    | TooManyLabels
    | UnmanagedZone
    | InvalidLabel
    | OtherError(typeName: string)

  /** The exception's class name, as `type(error).__name__` reports it. */
  function ExceptionName(kind: ErrorKind): string
  {
    match kind
    case ObjectNotFound => "OBJECT_NOT_FOUND"
    case InvalidHandle => "INVALID_HANDLE"
    case TooManyLabels => "TOO_MANY_LABELS"
    case UnmanagedZone => "UNMANAGED_ZONE"
    case InvalidLabel => "INVALID_LABEL"
    case OtherError(typeName) => typeName
  }

  /** A raised exception: its class and its `str()`. */
  datatype BackendError = BackendError(kind: ErrorKind, message: string)

  /** The outcome of one backend call: a returned value or a raised exception. */
  datatype Fetch<T> = Fetched(value: T) | Raised(error: BackendError)

  /**
   * The registry's whois interface: one lookup per object kind. Each either
   * returns a record (or none) or raises one of the interface's errors.
   */
  datatype Backend = Backend(
    contactByHandle: string -> Fetch<Option<Contact>>,
    domainByHandle: string -> Fetch<Option<Domain>>,
    nameserverByFqdn: string -> Fetch<Option<NameServer>>,
    nssetByHandle: string -> Fetch<Option<NSSet>>,
    keysetByHandle: string -> Fetch<Option<KeySet>>)
}
