/** Deploying an application from end to end: the terminal parses it, cuts the
    slices of all nodes one after another from its one set of tables, and each
    node deploys what it is sent. */
module Pipeline {
  import opened Configuration
  import opened DeployIndex
  import opened Slice
  import opened SliceProperties
  import opened Routing
  import opened Runtime
  import opened Deployment
  import opened NodeProgram
  import Tables

  /** Cuts a slice for each node handle, in whatever order they are listed. The
      tables gather default entries on the way, yet each slice is that of the
      tables as they were at first. */
  method CutAll(deploy: DeployConfiguration, remotes: seq<RemoteNode>) returns (packets: seq<Packet>)
    requires forall k :: 0 <= k < |remotes| ==> Cuttable(deploy.View(), remotes[k].nodeInformation.name)
    modifies deploy
    ensures |packets| == |remotes|
    ensures forall k :: 0 <= k < |remotes| ==>
            packets[k] == SliceFor(old(deploy.View()), remotes[k].nodeInformation.name)
    ensures SameReadings(old(deploy.View()), deploy.View())
  {
    hide SliceFor, Cuttable;
    ghost var x := deploy.View();
    packets := [];
    for k := 0 to |remotes|
      invariant SameReadings(x, deploy.View())
      invariant |packets| == k
      invariant forall j :: 0 <= j < k ==> packets[j] == SliceFor(x, remotes[j].nodeInformation.name)
    {
      SliceSame(x, deploy.View(), remotes[k].nodeInformation.name);
      var p := remotes[k].AsyncDeploy(deploy);
      packets := packets + [p];
    }
  }

  /** The terminal's handles, one for each node it deploys to. */
  method Handles(targets: seq<NodeDecl>) returns (remotes: seq<RemoteNode>)
    ensures |remotes| == |targets|
    ensures forall k :: 0 <= k < |targets| ==> remotes[k].nodeInformation == targets[k]
  {
    remotes := [];
    for k := 0 to |targets|
      invariant |remotes| == k
      invariant forall j :: 0 <= j < k ==> remotes[j].nodeInformation == targets[j]
    {
      var remote := new RemoteNode(targets[k]);
      remotes := remotes + [remote];
    }
  }

  /** Each table is what some node builds from the slice of its target. */
  ghost predicate AllBuilt(config: Config, targets: seq<NodeDecl>, ids: seq<RouterId>, tables: seq<RouterState>)
    requires forall t :: t in targets ==> Cuttable(IndexOf(config), t.name)
  {
    && |tables| == |targets| == |ids|
    && forall k :: 0 <= k < |tables| ==>
         targets[k] in targets && tables[k] == Tables.Deployed(ids[k], SliceFor(IndexOf(config), targets[k].name))
  }

  /** Where the configured nodes are among the targets. */
  predicate Positions(config: Config, targets: seq<NodeDecl>, at: seq<nat>) {
    && |at| == |config.nodes|
    && forall k :: 0 <= k < |at| ==> at[k] < |targets| && targets[at[k]] == config.nodes[k]
  }

  /** The tables of the configured nodes, in configuration order. */
  function Primaries(tables: seq<RouterState>, at: seq<nat>): (rs: seq<RouterState>)
    requires forall k :: 0 <= k < |at| ==> at[k] < |tables|
    ensures |rs| == |at| && forall k :: 0 <= k < |at| ==> rs[k] == tables[at[k]]
  {
    seq(|at|, k requires 0 <= k < |at| => tables[at[k]])
  }

  lemma PrimariesHold(config: Config, targets: seq<NodeDecl>, ids: seq<RouterId>, tables: seq<RouterState>,
                      at: seq<nat>)
    requires WellFormed(config) && forall t :: t in targets ==> Cuttable(IndexOf(config), t.name)
    requires AllBuilt(config, targets, ids, tables) && Positions(config, targets, at)
    ensures forall c :: HeldByAll(Primaries(tables, at), c) == multiset(config.connections)[c]
    ensures forall k :: 0 <= k < |at| ==> Realizes(config, config.nodes[k].name, ids[at[k]], tables[at[k]])
  {
    hide WellFormed, SliceFor, Cuttable, Tables.Deployed, Realizes, HeldByAll;
    var rs := Primaries(tables, at);
    var mine := seq(|at|, k requires 0 <= k < |at| => ids[at[k]]);
    forall k | 0 <= k < |at|
      ensures config.nodes[k] in config.nodes && rs[k] == DeployedOn(config, config.nodes[k], mine[k])
      ensures Realizes(config, config.nodes[k].name, ids[at[k]], tables[at[k]])
    {
      assert targets[at[k]] == config.nodes[k];
      DeployRealizes(config, config.nodes[k], mine[k]);
    }
    forall c
      ensures HeldByAll(rs, c) == multiset(config.connections)[c]
    {
      GraphPreserved(config, mine, rs, c);
    }
  }

  /** New nodes deploy the packets they are sent, whatever these say. */
  method DeployPackets(packets: seq<Packet>, samples: Name -> Data)
    returns (nodes: seq<Node>, ids: seq<RouterId>, tables: seq<RouterState>)
    ensures |nodes| == |ids| == |tables| == |packets|
    ensures forall k :: 0 <= k < |nodes| ==>
              nodes[k].nodeName == packets[k].thisNode && ids[k] == nodes[k].router.id
                && tables[k] == nodes[k].router.State()
    ensures forall k :: 0 <= k < |nodes| ==> tables[k] == Tables.Deployed(ids[k], packets[k])
  {
    hide Tables.Deployed;
    nodes, ids, tables := [], [], [];
    for k := 0 to |packets|
      invariant |nodes| == |ids| == |tables| == k
      invariant forall j :: 0 <= j < k ==>
                  nodes[j].nodeName == packets[j].thisNode && ids[j] == nodes[j].router.id
                    && tables[j] == nodes[j].router.State()
      invariant forall j :: 0 <= j < k ==> tables[j] == Tables.Deployed(ids[j], packets[j])
    {
      var node := new Node();
      node.Redeploy(packets[k], samples);
      nodes, ids, tables := nodes + [node], ids + [node.router.id], tables + [node.router.State()];
    }
  }

  /** Parses a configuration and deploys it to new nodes, primary ones and pairs in
      any order: the tables of the primary nodes together are the configured graph. */
  method DeployApplication(config: Config, targets: seq<NodeDecl>, samples: Name -> Data)
    returns (nodes: seq<Node>, ids: seq<RouterId>, tables: seq<RouterState>)
    requires WellFormed(config)
    ensures |nodes| == |ids| == |tables| == |targets|
    ensures forall k :: 0 <= k < |nodes| ==>
              nodes[k].nodeName == targets[k].name && ids[k] == nodes[k].router.id
                && tables[k] == nodes[k].router.State()
    ensures forall at, c :: Positions(config, targets, at) ==>
              HeldByAll(Primaries(tables, at), c) == multiset(config.connections)[c]
    ensures forall at, k :: Positions(config, targets, at) && 0 <= k < |at| ==>
              Realizes(config, config.nodes[k].name, ids[at[k]], tables[at[k]])
  {
    hide WellFormed, SliceFor, Cuttable, Tables.Deployed, Realizes, HeldByAll, Primaries;
    forall t | t in targets
      ensures Cuttable(IndexOf(config), t.name) && SliceFor(IndexOf(config), t.name).thisNode == t.name
    {
      AlwaysCuttable(config, t.name);
      NamesNode(IndexOf(config), t.name);
    }
    var deploy := new DeployConfiguration();
    deploy.ParseDeploy(config);
    var remotes := Handles(targets);
    var packets := CutAll(deploy, remotes);
    nodes, ids, tables := DeployPackets(packets, samples);
    assert AllBuilt(config, targets, ids, tables);
    forall at | Positions(config, targets, at)
      ensures forall c :: HeldByAll(Primaries(tables, at), c) == multiset(config.connections)[c]
      ensures forall k :: 0 <= k < |at| ==> Realizes(config, config.nodes[k].name, ids[at[k]], tables[at[k]])
    {
      PrimariesHold(config, targets, ids, tables, at);
    }
  }

  /** A slice names the node it is for. */
  lemma NamesNode(x: Index, here: Name)
    requires Cuttable(x, here)
    ensures SliceFor(x, here).thisNode == here
  {
    CutInstances(x, here, Get(x.hosted, here, []));
  }

  /** Only mapped components are hosted anywhere, mirrors included. */
  lemma {:induction false} HostedMapped(x: Index, ms: seq<Mapping>, here: Name)
    requires x.hosted == map[]
    ensures forall h :: h in Get(WithMappings(x, ms).hosted, here, []) ==> IsMapped(ms, h.compName)
  {
    if ms != [] {
      var init, m := ms[..|ms| - 1], ms[|ms| - 1];
      HostedMapped(x, init, here);
      assert ms == init + [m];
    }
  }

  /** A well-formed configuration can be cut for every node, pairs included. */
  lemma AlwaysCuttable(config: Config, here: Name)
    requires WellFormed(config)
    ensures Cuttable(IndexOf(config), here)
  {
    var x := IndexOf(config);
    IndexResolves(config);
    BeforeMappingsFrame(config);
    HostedMapped(BeforeMappings(config), config.mappings, here);
    forall h | h in Get(x.hosted, here, [])
      ensures KnownKind(Get(x.components, h.compName, NO_COMPONENT).kind)
    {
      var m :| m in config.mappings && m.compName == h.compName;
      var c :| c in config.components && c.name == m.compName;
    }
  }
}
