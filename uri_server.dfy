// The server-side registry of URI services. Services are kept in a hash map
// keyed by a 64-bit key derived from the service name; a lookup goes to the
// key of the queried name and then compares the stored name exactly, so two
// names that share a key are never confused.

module UriServer {
  import opened UriInterface

  /** The cached description of a registered service: the borrowed service, its name and its version. */
  datatype ServiceInfo = ServiceInfo(service: Service, name: string, version: uint16)

  /** The entry a registration stores for `service`. */
  function InfoOf(service: Service): ServiceInfo
  {
    ServiceInfo(service, service.name, service.version)
  }

  /**
   * Every entry sits at the key of its own name, holds a name that fits the
   * fixed-capacity name buffer, and caches its service's name and version.
   */
  ghost predicate WellKeyed(services: map<uint64, ServiceInfo>, keyOf: string -> uint64)
  {
    forall k :: k in services ==>
      && k == keyOf(services[k].name)
      && |services[k].name| < kMaxUriServiceNameLength
      && services[k] == InfoOf(services[k].service)
  }

  /** A service registered under exactly `name`, by a search over all the entries. */
  ghost predicate RegisteredAs(services: map<uint64, ServiceInfo>, name: string, service: Service)
  {
    exists k :: k in services && services[k].name == name && services[k].service == service
  }

  /** The hashed lookup: the entry at the key of `name`, if it carries that exact name. */
  function Lookup(services: map<uint64, ServiceInfo>, keyOf: string -> uint64, name: string): Option<Service>
  {
    var k := keyOf(name);
    if k in services && services[k].name == name then Some(services[k].service) else None
  }

  /** The hashed lookup finds exactly the services a search over all entries finds. */
  lemma LookupFindsRegistered(services: map<uint64, ServiceInfo>, keyOf: string -> uint64, name: string, service: Service)
    requires WellKeyed(services, keyOf)
    ensures Lookup(services, keyOf, name) == Some(service) <==> RegisteredAs(services, name, service)
  {
    if RegisteredAs(services, name, service) {
      var k :| k in services && services[k].name == name && services[k].service == service;
      assert k == keyOf(name);
    }
  }

  /** The hashed lookup finds nothing exactly when no entry carries the name. */
  lemma LookupMissesUnregistered(services: map<uint64, ServiceInfo>, keyOf: string -> uint64, name: string)
    requires WellKeyed(services, keyOf)
    ensures Lookup(services, keyOf, name).None? <==> forall k :: k in services ==> services[k].name != name
  {
  }

  /** Adding an entry at a free key makes its name findable and changes no other lookup. */
  lemma LookupAfterAdd(services: map<uint64, ServiceInfo>, keyOf: string -> uint64, info: ServiceInfo, name: string)
    requires keyOf(info.name) !in services
    ensures Lookup(services[keyOf(info.name) := info], keyOf, name) ==
      if name == info.name then Some(info.service) else Lookup(services, keyOf, name)
  {
    var k := keyOf(info.name);
    if name != info.name && keyOf(name) == k {
      assert Lookup(services, keyOf, name).None?;
    }
  }

  /** Removing the entry at a key makes its name unfindable and changes no other lookup. */
  lemma LookupAfterRemove(services: map<uint64, ServiceInfo>, keyOf: string -> uint64, k: uint64, name: string)
    requires WellKeyed(services, keyOf) && k in services
    ensures Lookup(services - {k}, keyOf, name) ==
      if name == services[k].name then None else Lookup(services, keyOf, name)
  {
    if name != services[k].name && keyOf(name) == k {
      assert Lookup(services, keyOf, name).None?;
    }
  }

  /** `URIServer`'s service registry. `keyOf` is the hash that turns a service name into its map key. */
  class URIServer {
    const keyOf: string -> uint64
    var registeredServices: map<uint64, ServiceInfo>

    ghost predicate Valid()
      reads this
    {
      WellKeyed(registeredServices, keyOf)
    }

    constructor (keyOf: string -> uint64)
      ensures Valid()
      ensures this.keyOf == keyOf && registeredServices == map[]
    {
      this.keyOf := keyOf;
      registeredServices := map[];
    }

    /** The service registered under exactly `name`, or nothing. */
    function FindService(name: string): (r: Option<Service>)
      reads this
      requires Valid()
      ensures r.Some? ==> RegisteredAs(registeredServices, name, r.value)
      ensures r.None? ==> forall k :: k in registeredServices ==> registeredServices[k].name != name
    {
      var r := Lookup(registeredServices, keyOf, name);
      if r.Some? then LookupFindsRegistered(registeredServices, keyOf, name, r.value); r
      else LookupMissesUnregistered(registeredServices, keyOf, name); r
    }

    /** Adds a service; fails, changing nothing, when its name's key is already taken. */
    method RegisterService(service: Service) returns (result: Result)
      requires Valid()
      requires |service.name| < kMaxUriServiceNameLength
      modifies this
      ensures Valid()
      ensures var k := keyOf(service.name);
        if k in old(registeredServices) then
          result == UriServiceRegistrationError && registeredServices == old(registeredServices)
        else
          result == Success && registeredServices == old(registeredServices)[k := InfoOf(service)]
      ensures result == Success ==> FindService(service.name) == Some(service)
      ensures forall name :: name != service.name ==> FindService(name) == old(FindService(name))
    {
      var k := keyOf(service.name);
      if k in registeredServices {
        result := UriServiceRegistrationError;
      } else {
        ghost var before := registeredServices;
        registeredServices := registeredServices[k := InfoOf(service)];
        result := Success;
        forall name
          ensures Lookup(registeredServices, keyOf, name) ==
            if name == service.name then Some(service) else Lookup(before, keyOf, name)
        {
          LookupAfterAdd(before, keyOf, InfoOf(service), name);
        }
      }
    }

    /** Removes a service; fails, changing nothing, unless this very service is registered under its name. */
    method UnregisterService(service: Service) returns (result: Result)
      requires Valid()
      modifies this
      ensures Valid()
      ensures var k := keyOf(service.name);
        if k in old(registeredServices) && old(registeredServices)[k].service == service then
          result == Success && registeredServices == old(registeredServices) - {k}
        else
          result == UriServiceRegistrationError && registeredServices == old(registeredServices)
      ensures result == Success ==> FindService(service.name).None?
      ensures forall name :: name != service.name ==> FindService(name) == old(FindService(name))
    {
      var k := keyOf(service.name);
      if k in registeredServices && registeredServices[k].service == service {
        ghost var before := registeredServices;
        registeredServices := registeredServices - {k};
        result := Success;
        forall name
          ensures Lookup(registeredServices, keyOf, name) ==
            if name == service.name then None else Lookup(before, keyOf, name)
        {
          LookupAfterRemove(before, keyOf, k, name);
        }
      } else {
        result := UriServiceRegistrationError;
      }
    }

    /**
     * Checks, before any block is opened, that the named service accepts
     * `sizeRequested` bytes of post data for a request with these arguments.
     */
    function ValidatePostRequest(serviceName: string, arguments: string, sizeRequested: uint32): (r: Result)
      reads this
      requires Valid()
      ensures r == UriInvalidParameters <==> forall k :: k in registeredServices ==> registeredServices[k].name != serviceName
      ensures r == Success <==>
        exists k :: k in registeredServices && registeredServices[k].name == serviceName
          && sizeRequested <= registeredServices[k].service.QueryPostSizeLimit(arguments)
      ensures r == Success || r == UriInvalidParameters || r == UriInvalidPostDataSize
    {
      match FindService(serviceName)
      case None => UriInvalidParameters
      case Some(service) =>
        if sizeRequested <= service.QueryPostSizeLimit(arguments) then Success else UriInvalidPostDataSize
    }
  }
}
