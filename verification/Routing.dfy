/** The state of a packet router: its component table with their routes, its
    clients for remote nodes, and its counters. */
module Routing {
  import opened Configuration

  /** Which router object, in order of creation on its node. */
  type RouterId = nat

  /** A pointer to an entry of a router's component table. */
  datatype InstPtr = InstPtr(router: RouterId, name: Name)

  /** A component object: its kind, the router it weakly refers to, the table
      entry it was told is its own, its in-packet counter and, for generators,
      whether it is running. */
  datatype Comp = Comp(kind: Kind, router: RouterId, self: InstPtr, inCount: Word, running: bool)

  datatype LocalRoute = LocalRoute(inPort: Port, target: InstPtr)

  /** A remote route shares the client of its node, by its place in `endpoints`. */
  datatype RemoteRoute = RemoteRoute(inPort: Port, dest: Name, client: nat)

  datatype Routes = Routes(local: seq<LocalRoute>, remote: seq<RemoteRoute>)

  const NO_ROUTES: Routes := Routes([], [])

  /** A table entry; one made by the subscript operator has no component. */
  datatype Entry = Entry(comp: Option<Comp>, name: Name, ports: map<Port, Routes>)

  const NO_ENTRY: Entry := Entry(None, "", map[])

  datatype Endpoint = Endpoint(address: string, port: Port)

  datatype RouterState = RouterState(
    started: bool,
    entries: map<Name, Entry>,
    clients: map<Name, nat>,
    endpoints: seq<Endpoint>,
    inPackets: Word,
    outPackets: Word)

  const NEW_ROUTER: RouterState := RouterState(false, map[], map[], [], 0, 0)

  /** What `do_route` iterates over for one component and port. */
  function RoutesAt(r: RouterState, comp: Name, port: Port): Routes {
    if comp in r.entries && port in r.entries[comp].ports then r.entries[comp].ports[port] else NO_ROUTES
  }

  /** Every entry has a component object. */
  predicate AllReal(r: RouterState) {
    forall comp :: comp in r.entries ==> r.entries[comp].comp.Some?
  }

  predicate RemoteValid(routes: seq<RemoteRoute>, clients: nat) {
    forall i :: 0 <= i < |routes| ==> routes[i].client < clients
  }

  predicate LocalValid(id: RouterId, routes: seq<LocalRoute>, entries: set<Name>) {
    forall i :: 0 <= i < |routes| ==>
      routes[i].target == InstPtr(id, routes[i].target.name) && routes[i].target.name in entries
  }

  /** Every remote route goes through a client that exists. */
  ghost predicate ClientsValid(r: RouterState) {
    forall comp, port: Port :: comp in r.entries ==> RemoteValid(RoutesAt(r, comp, port).remote, |r.endpoints|)
  }

  /** Same tables, other counters and flags: what running tasks can turn a router into. */
  ghost predicate SameTables(r: RouterState, r': RouterState) {
    && r'.clients == r.clients && r'.endpoints == r.endpoints
    && r'.entries.Keys == r.entries.Keys
    && forall comp :: comp in r.entries ==> SameEntry(r.entries[comp], r'.entries[comp])
  }

  predicate SameEntry(e: Entry, e': Entry) {
    && e'.name == e.name && e'.ports == e.ports
    && (e.comp.Some? <==> e'.comp.Some?)
    && (e.comp.Some? ==>
          e'.comp.value == e.comp.value.(inCount := e'.comp.value.inCount, running := e'.comp.value.running))
  }
}
