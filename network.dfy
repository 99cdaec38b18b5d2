/** The simulated network of game/network.go: nodes keyed by IP, a route
    table fixed at construction, the node the player is on and the set of
    discovered nodes. Network is a class because Scan and Connect update the
    last two in place. */
module Net {
  import Text

  /** A service listening on a port; only its name and version are shown. */
  datatype Service = Service(name: string, version: string, vulnerable: bool, credentials: map<string, string>)

  /** A host. `kind` is the source's Type field; AccessLevel is only data. */
  datatype Node = Node(name: string, ip: string, ports: map<string, Service>, accessLevel: int, kind: string)

  /** The IPs of a list of nodes. */
  function IPs(ns: seq<Node>): set<string> {
    set n | n in ns :: n.ip
  }

  /** The node table NewNetwork builds: each IP maps to the last node
      carrying it. */
  function IndexNodes(ns: seq<Node>): (m: map<string, Node>)
    ensures m.Keys == IPs(ns)
    ensures forall ip :: ip in m ==> m[ip] in ns && m[ip].ip == ip
  {
    if ns == [] then map[]
    else
      var init := ns[..|ns| - 1];
      assert ns == init + [ns[|ns| - 1]];
      IndexNodes(init)[ns[|ns| - 1].ip := ns[|ns| - 1]]
  }

  /** With distinct IPs every node is found under its own IP. */
  lemma {:induction false} IndexNodesDistinct(ns: seq<Node>, i: nat)
    requires forall a, b :: 0 <= a < b < |ns| ==> ns[a].ip != ns[b].ip
    requires i < |ns|
    ensures IndexNodes(ns)[ns[i].ip] == ns[i]
  {
    var init := ns[..|ns| - 1];
    if i < |ns| - 1 {
      IndexNodesDistinct(init, i);
      assert init[i] == ns[i];
    }
  }

  /** The route list NewNetwork gives `ip`: the IPs of all nodes, in list
      order, except those equal to `ip`. */
  function OtherIPs(ns: seq<Node>, ip: string): (r: seq<string>)
    ensures forall x :: x in r <==> x in IPs(ns) && x != ip
  {
    if ns == [] then []
    else
      var init := ns[..|ns| - 1];
      var last := ns[|ns| - 1];
      assert ns == init + [last];
      OtherIPs(init, ip) + (if last.ip != ip then [last.ip] else [])
  }

  /** The route table after the outer loop of NewNetwork has visited `pre`. */
  function RoutesOf(ns: seq<Node>, pre: seq<Node>): (m: map<string, seq<string>>)
    ensures m.Keys == IPs(pre)
    ensures forall ip :: ip in m ==> m[ip] == OtherIPs(ns, ip)
  {
    if pre == [] then map[]
    else
      var init := pre[..|pre| - 1];
      assert pre == init + [pre[|pre| - 1]];
      RoutesOf(ns, init)[pre[|pre| - 1].ip := OtherIPs(ns, pre[|pre| - 1].ip)]
  }

  /** Every node routes to every other node and never to itself. */
  ghost predicate Topology(nodes: map<string, Node>, routes: map<string, seq<string>>) {
    && routes.Keys == nodes.Keys
    && (forall ip, x :: ip in routes ==> (x in routes[ip] <==> x in nodes && x != ip))
  }

  /** Where the player can be: on a node, or at "local" in an empty network. */
  predicate Placed(nodes: map<string, Node>, current: string) {
    current in nodes || (nodes == map[] && current == "local")
  }

  /** NewNetwork's tables have the full-mesh shape. */
  lemma NewTopology(ns: seq<Node>)
    ensures Topology(IndexNodes(ns), RoutesOf(ns, ns))
  {
  }

  // ----- Scan -----

  /** What a scan shows: one node's report, whose port lines come in map
      order, or a fixed text. */
  datatype ScanResult = NodeReport(node: Node) | Message(text: string)

  function ScanLine(ip: string, node: Node): string {
    ip + " (" + node.name + ")"
  }

  /** One line per routed IP that is a node, in route order. */
  function ScanLines(nodes: map<string, Node>, rs: seq<string>): seq<string> {
    if rs == [] then []
    else
      var ip := rs[|rs| - 1];
      ScanLines(nodes, rs[..|rs| - 1]) + (if ip in nodes then [ScanLine(ip, nodes[ip])] else [])
  }

  lemma ScanSnoc(nodes: map<string, Node>, rs: seq<string>, i: nat)
    requires i < |rs|
    ensures ScanLines(nodes, rs[..i + 1]) ==
              ScanLines(nodes, rs[..i]) + (if rs[i] in nodes then [ScanLine(rs[i], nodes[rs[i]])] else [])
    ensures RoutedNodes(nodes, rs[..i + 1]) == RoutedNodes(nodes, rs[..i]) + (if rs[i] in nodes then {rs[i]} else {})
  {
    assert rs[..i + 1][..i] == rs[..i];
  }

  const ScanHeader := ["Network scan results:", "-----------------------"]
  const NoRoutes := "No network routes found from current node."

  function ScanReply(nodes: map<string, Node>, routes: map<string, seq<string>>, current: string, target: string): ScanResult {
    if target != "" then
      if target in nodes then NodeReport(nodes[target]) else Message("No host found at " + target)
    else if current !in routes || |routes[current]| == 0 then Message(NoRoutes)
    else Message(Text.Join(ScanHeader + ScanLines(nodes, routes[current]), "\n"))
  }

  /** The routed IPs of `rs` that are nodes. */
  function RoutedNodes(nodes: map<string, Node>, rs: seq<string>): (r: set<string>)
    ensures forall ip :: ip in r <==> ip in rs && ip in nodes
  {
    if rs == [] then {}
    else
      var ip := rs[|rs| - 1];
      assert rs == rs[..|rs| - 1] + [ip];
      RoutedNodes(nodes, rs[..|rs| - 1]) + (if ip in nodes then {ip} else {})
  }

  /** The loop of Scan over the routes of the current node: the lines it
      prints and the IPs it marks discovered. */
  method ScanRoutes(nodes: map<string, Node>, rs: seq<string>) returns (results: seq<string>, found: set<string>)
    ensures found == RoutedNodes(nodes, rs)
    ensures results == ScanHeader + ScanLines(nodes, rs)
  {
    results := ScanHeader;
    found := {};
    for i := 0 to |rs|
      invariant found == RoutedNodes(nodes, rs[..i])
      invariant results == ScanHeader + ScanLines(nodes, rs[..i])
    {
      var ip := rs[i];
      ScanSnoc(nodes, rs, i);
      if ip in nodes {
        found := found + {ip};
        results := results + [ScanLine(ip, nodes[ip])];
      }
    }
    assert rs[..|rs|] == rs;
  }

  /** The discovered set after Scan(target). */
  function ScanDiscovered(nodes: map<string, Node>, routes: map<string, seq<string>>, current: string,
                          discovered: set<string>, target: string): (r: set<string>)
    ensures discovered <= r && r - discovered <= nodes.Keys
    ensures target != "" ==> r == discovered + (if target in nodes then {target} else {})
  {
    if target != "" then
      if target in nodes then discovered + {target} else discovered
    else if current !in routes || |routes[current]| == 0 then discovered
    else discovered + RoutedNodes(nodes, routes[current])
  }

  /** A full scan from a node discovers every other node of the network. */
  lemma ScanAllDiscoversOthers(nodes: map<string, Node>, routes: map<string, seq<string>>, current: string,
                               discovered: set<string>)
    requires Topology(nodes, routes) && current in nodes
    ensures ScanDiscovered(nodes, routes, current, discovered, "") == discovered + (nodes.Keys - {current})
  {
    assert RoutedNodes(nodes, routes[current]) == nodes.Keys - {current};
  }

  /** A scan line appears for exactly the routed IPs that are nodes. */
  lemma {:induction false} ScanLinesExact(nodes: map<string, Node>, rs: seq<string>, ip: string)
    requires ip in nodes
    requires forall a, b :: a in nodes && b in nodes && ScanLine(a, nodes[a]) == ScanLine(b, nodes[b]) ==> a == b
    ensures ScanLine(ip, nodes[ip]) in ScanLines(nodes, rs) <==> ip in rs
  {
    if rs != [] {
      var init := rs[..|rs| - 1];
      ScanLinesExact(nodes, init, ip);
      assert rs == init + [rs[|rs| - 1]];
    }
  }

  /** `out` is what Scan prints for `result`. */
  ghost predicate ScanShows(result: ScanResult, out: string) {
    match result
    case NodeReport(node) => IsNodeReport(node, out)
    case Message(text) => out == text
  }

  // ----- formatNodeScan -----

  function ReportHeader(node: Node): string {
    "Scan results for " + node.ip + " (" + node.name + "):\n"
      + "----------------------------------\n"
      + "Type: " + node.kind + "\n"
      + "Open Ports:\n"
  }

  function PortLine(port: string, svc: Service): string {
    "  " + port + ": " + svc.name + " " + svc.version + "\n"
  }

  /** The port lines for the ports in `order`. */
  function PortLines(node: Node, order: seq<string>): (lines: seq<string>)
    requires forall p :: p in order ==> p in node.ports
    ensures |lines| == |order|
    ensures forall i :: 0 <= i < |order| ==> lines[i] == PortLine(order[i], node.ports[order[i]])
  {
    if order == [] then []
    else
      var last := order[|order| - 1];
      assert last in order;
      PortLines(node, order[..|order| - 1]) + [PortLine(last, node.ports[last])]
  }

  function ReportText(node: Node, order: seq<string>): string
    requires forall p :: p in order ==> p in node.ports
  {
    ReportHeader(node) + Text.Concat(PortLines(node, order))
  }

  /** `out` is a report of `node` with its ports in one of Go's map orders. */
  ghost predicate IsNodeReport(node: Node, out: string) {
    exists order :: Text.Enumerates(order, node.ports.Keys) && out == ReportText(node, order)
  }

  /** A report carries one line per port of the node, and no other. */
  lemma ReportPortLines(node: Node, order: seq<string>, line: string)
    requires Text.Enumerates(order, node.ports.Keys)
    ensures |PortLines(node, order)| == |node.ports|
    ensures line in PortLines(node, order) <==> exists p :: p in node.ports && line == PortLine(p, node.ports[p])
  {
    Text.EnumeratesLength(order, node.ports.Keys);
    var lines := PortLines(node, order);
    if exists p :: p in node.ports && line == PortLine(p, node.ports[p]) {
      var p :| p in node.ports && line == PortLine(p, node.ports[p]);
      assert p in order;
      var k :| 0 <= k < |order| && order[k] == p;
      assert lines[k] == line;
    }
  }

  /** One more port in the order adds its line at the end of the report. */
  lemma ReportTextSnoc(node: Node, order: seq<string>, port: string)
    requires forall p :: p in order ==> p in node.ports
    requires port in node.ports
    ensures ReportText(node, order + [port]) == ReportText(node, order) + PortLine(port, node.ports[port])
  {
    assert PortLines(node, order + [port]) == PortLines(node, order) + [PortLine(port, node.ports[port])] by {
      assert (order + [port])[..|order|] == order;
    }
    Text.ConcatSnoc(PortLines(node, order), PortLine(port, node.ports[port]));
  }

  method FormatNodeScan(node: Node) returns (out: string)
    ensures IsNodeReport(node, out)
  {
    out := ReportHeader(node);
    ghost var order: seq<string> := [];
    var remaining := node.ports.Keys;
    while remaining != {}
      invariant remaining <= node.ports.Keys
      invariant forall p :: p in order <==> p in node.ports.Keys - remaining
      invariant Text.Distinct(order)
      invariant out == ReportText(node, order)
      decreases |remaining|
    {
      var port :| port in remaining;
      var service := node.ports[port];
      assert port !in order;
      ReportTextSnoc(node, order, port);
      out := out + PortLine(port, service);
      order := order + [port];
      remaining := remaining - {port};
    }
  }

  // ----- Connect -----

  function ConnectRefused(ip: string, port: string): string {
    "Error: Connection refused to " + ip + " on port " + port
  }

  function Connected(ip: string, node: Node, port: string): string
    requires port in node.ports
  {
    "Connected to " + ip + " (" + node.name + ") on port " + port
      + "\nService: " + node.ports[port].name + " " + node.ports[port].version
  }

  /** Connect's message and success flag: the host must exist, be on the
      current node's route list, and offer the port, checked in that order. */
  function ConnectReply(nodes: map<string, Node>, routes: map<string, seq<string>>, current: string,
                        ip: string, port: string): (string, bool) {
    if ip !in nodes then ("Error: Host not found: " + ip, false)
    else if current !in routes || ip !in routes[current] then ("Error: No route to host: " + ip, false)
    else if port !in nodes[ip].ports then (ConnectRefused(ip, port), false)
    else (Connected(ip, nodes[ip], port), true)
  }

  /** In a network NewNetwork built, a connection succeeds exactly when the
      host exists, is not the current node and offers the port; being
      discovered is not needed. */
  lemma ConnectSucceedsIff(nodes: map<string, Node>, routes: map<string, seq<string>>, current: string,
                           ip: string, port: string)
    requires Topology(nodes, routes) && Placed(nodes, current)
    ensures ConnectReply(nodes, routes, current, ip, port).1 <==>
              ip in nodes && ip != current && port in nodes[ip].ports
  {
  }

  /** Connecting to the node one is on always fails with "No route to host". */
  lemma ConnectToSelf(nodes: map<string, Node>, routes: map<string, seq<string>>, current: string, port: string)
    requires Topology(nodes, routes) && current in nodes
    ensures ConnectReply(nodes, routes, current, current, port) == ("Error: No route to host: " + current, false)
  {
  }

  // ----- GetNetworkMap -----

  function MapLine(ip: string, node: Node): string {
    ip + " (" + node.name + ") - " + node.kind
  }

  /** The map lines of the discovered nodes among `order`. */
  function DiscoveredLines(nodes: map<string, Node>, discovered: set<string>, order: seq<string>): seq<string>
    requires forall ip :: ip in order ==> ip in nodes
  {
    if order == [] then []
    else
      var ip := order[|order| - 1];
      assert ip in order;
      DiscoveredLines(nodes, discovered, order[..|order| - 1])
        + (if ip in discovered then [MapLine(ip, nodes[ip])] else [])
  }

  /** How many IPs of `order` are not discovered. */
  function UndiscoveredCount(discovered: set<string>, order: seq<string>): nat {
    if order == [] then 0
    else UndiscoveredCount(discovered, order[..|order| - 1]) + (if order[|order| - 1] in discovered then 0 else 1)
  }

  function NetworkMapText(nodes: map<string, Node>, discovered: set<string>, order: seq<string>): string
    requires forall ip :: ip in order ==> ip in nodes
  {
    var count := UndiscoveredCount(discovered, order);
    "DISCOVERED NODES:\n" + "-----------------\n" + Text.Join(DiscoveredLines(nodes, discovered, order), "\n")
      + (if count > 0
         then "\n\nUNDISCOVERED NODES:\n" + "-------------------\n" + Text.NatToString(count) + " nodes not yet discovered"
         else "")
  }

  /** `out` is a network map with the nodes visited in one of Go's map orders. */
  ghost predicate IsNetworkMap(nodes: map<string, Node>, discovered: set<string>, out: string) {
    exists order :: Text.Enumerates(order, nodes.Keys) && out == NetworkMapText(nodes, discovered, order)
  }

  /** The map lists exactly the discovered nodes. */
  lemma {:induction false} DiscoveredLinesExact(nodes: map<string, Node>, discovered: set<string>,
                                               order: seq<string>, line: string)
    requires forall ip :: ip in order ==> ip in nodes
    ensures line in DiscoveredLines(nodes, discovered, order) <==>
              exists ip :: ip in order && ip in discovered && line == MapLine(ip, nodes[ip])
  {
    if order != [] {
      var init := order[..|order| - 1];
      var last := order[|order| - 1];
      assert order == init + [last];
      DiscoveredLinesExact(nodes, discovered, init, line);
    }
  }

  /** The undiscovered count of an enumeration of the node table is the
      number of undiscovered nodes. */
  lemma {:induction false} UndiscoveredCountIs(discovered: set<string>, order: seq<string>, keys: set<string>)
    requires Text.Enumerates(order, keys)
    ensures UndiscoveredCount(discovered, order) == |keys - discovered|
  {
    if order == [] {
      assert forall x :: x !in keys;
      assert keys - discovered == {};
    } else {
      var init := order[..|order| - 1];
      var last := order[|order| - 1];
      Text.EnumeratesInit(order, keys);
      UndiscoveredCountIs(discovered, init, keys - {last});
      if last in discovered {
        assert keys - discovered == (keys - {last}) - discovered;
      } else {
        assert keys - discovered == ((keys - {last}) - discovered) + {last};
      }
    }
  }

  // ----- the loops of NewNetwork -----

  lemma IndexNodesSnoc(ns: seq<Node>, i: nat)
    requires i < |ns|
    ensures IndexNodes(ns[..i + 1]) == IndexNodes(ns[..i])[ns[i].ip := ns[i]]
  {
    assert ns[..i + 1][..i] == ns[..i];
  }

  lemma OtherIPsSnoc(ns: seq<Node>, ip: string, j: nat)
    requires j < |ns|
    ensures OtherIPs(ns[..j + 1], ip) == OtherIPs(ns[..j], ip) + (if ns[j].ip != ip then [ns[j].ip] else [])
  {
    assert ns[..j + 1][..j] == ns[..j];
  }

  lemma RoutesOfSnoc(ns: seq<Node>, i: nat)
    requires i < |ns|
    ensures RoutesOf(ns, ns[..i + 1]) == RoutesOf(ns, ns[..i])[ns[i].ip := OtherIPs(ns, ns[i].ip)]
  {
    assert ns[..i + 1][..i] == ns[..i];
  }

  /** The first loop of NewNetwork: index the nodes by IP. */
  method BuildNodeMap(ns: seq<Node>) returns (nodeMap: map<string, Node>)
    ensures nodeMap == IndexNodes(ns)
  {
    nodeMap := map[];
    for i := 0 to |ns|
      invariant nodeMap == IndexNodes(ns[..i])
    {
      IndexNodesSnoc(ns, i);
      nodeMap := nodeMap[ns[i].ip := ns[i]];
    }
    assert ns[..|ns|] == ns;
  }

  /** The inner loop of NewNetwork's second loop: the route list of `ip`. */
  method BuildRouteList(ns: seq<Node>, ip: string) returns (nodeRoutes: seq<string>)
    ensures nodeRoutes == OtherIPs(ns, ip)
  {
    nodeRoutes := [];
    for j := 0 to |ns|
      invariant nodeRoutes == OtherIPs(ns[..j], ip)
    {
      OtherIPsSnoc(ns, ip, j);
      if ip != ns[j].ip {
        nodeRoutes := nodeRoutes + [ns[j].ip];
      }
    }
    assert ns[..|ns|] == ns;
  }

  /** The second loop of NewNetwork: a route list for every node. */
  method BuildRoutes(ns: seq<Node>) returns (table: map<string, seq<string>>)
    ensures table == RoutesOf(ns, ns)
  {
    table := map[];
    for i := 0 to |ns|
      invariant table == RoutesOf(ns, ns[..i])
    {
      var nodeRoutes := BuildRouteList(ns, ns[i].ip);
      RoutesOfSnoc(ns, i);
      table := table[ns[i].ip := nodeRoutes];
    }
    assert ns[..|ns|] == ns;
  }

  // ----- the stateful network -----

  class Network {
    const nodes: map<string, Node>
    const routes: map<string, seq<string>>
    var currentNode: string
    var discovered: set<string>

    ghost predicate Valid()
      reads this
    {
      Topology(nodes, routes) && Placed(nodes, currentNode) && discovered <= nodes.Keys
    }

    /** NewNetwork: index the nodes, give every node a route to every other,
        and start on the first node, which is the only one discovered. */
    constructor (ns: seq<Node>)
      ensures nodes == IndexNodes(ns) && routes == RoutesOf(ns, ns)
      ensures ns == [] ==> currentNode == "local" && discovered == {}
      ensures ns != [] ==> currentNode == ns[0].ip && discovered == {ns[0].ip}
      ensures Valid()
    {
      var nodeMap := BuildNodeMap(ns);
      var table := BuildRoutes(ns);
      var initialNode := "local";
      var found: set<string> := {};
      if |ns| > 0 {
        initialNode := ns[0].ip;
        found := {initialNode};
        assert ns[0] in ns;
      }
      nodes := nodeMap;
      routes := table;
      currentNode := initialNode;
      discovered := found;
      NewTopology(ns);
    }

    /** Scan(t): a non-empty t that names a node is discovered and reported;
        an empty t discovers and lists every node on the current node's
        route list. */
    method Scan(targetIP: string) returns (out: string)
      requires Valid()
      modifies this
      ensures Valid()
      ensures currentNode == old(currentNode)
      ensures discovered == ScanDiscovered(nodes, routes, currentNode, old(discovered), targetIP)
      ensures ScanShows(ScanReply(nodes, routes, currentNode, targetIP), out)
    {
      if targetIP != "" {
        if targetIP in nodes {
          discovered := discovered + {targetIP};
          out := FormatNodeScan(nodes[targetIP]);
          return;
        }
        return "No host found at " + targetIP;
      }
      if currentNode !in routes || |routes[currentNode]| == 0 {
        return NoRoutes;
      }
      var results, found := ScanRoutes(nodes, routes[currentNode]);
      discovered := discovered + found;
      out := Text.Join(results, "\n");
    }

    /** Connect: on success the player moves to `ip`; on any failure nothing
        changes. */
    method Connect(ip: string, port: string) returns (out: string, success: bool)
      requires Valid()
      modifies this
      ensures Valid()
      ensures (out, success) == ConnectReply(nodes, routes, old(currentNode), ip, port)
      ensures currentNode == (if success then ip else old(currentNode))
      ensures discovered == old(discovered)
    {
      if ip !in nodes {
        return "Error: Host not found: " + ip, false;
      }
      var node := nodes[ip];
      if currentNode !in routes {
        return "Error: No route to host: " + ip, false;
      }
      var rs := routes[currentNode];
      var routeExists := false;
      for i := 0 to |rs|
        invariant !routeExists && ip !in rs[..i]
      {
        if rs[i] == ip {
          routeExists := true;
          break;
        }
        assert rs[..i + 1] == rs[..i] + [rs[i]];
      }
      if !routeExists {
        assert rs[..|rs|] == rs;
        return "Error: No route to host: " + ip, false;
      }
      if port !in node.ports {
        return ConnectRefused(ip, port), false;
      }
      currentNode := ip;
      return Connected(ip, node, port), true;
    }

    /** GetNetworkMap. */
    method GetNetworkMap() returns (out: string)
      ensures IsNetworkMap(nodes, discovered, out)
    {
      var found: seq<string> := [];
      var undiscovered := 0;
      ghost var order: seq<string> := [];
      var remaining := nodes.Keys;
      while remaining != {}
        invariant remaining <= nodes.Keys
        invariant forall ip :: ip in order <==> ip in nodes.Keys - remaining
        invariant Text.Distinct(order)
        invariant found == DiscoveredLines(nodes, discovered, order)
        invariant undiscovered == UndiscoveredCount(discovered, order)
        decreases |remaining|
      {
        var ip :| ip in remaining;
        assert ip !in order;
        assert (order + [ip])[..|order|] == order;
        if ip in discovered {
          found := found + [MapLine(ip, nodes[ip])];
        } else {
          undiscovered := undiscovered + 1;
        }
        order := order + [ip];
        remaining := remaining - {ip};
      }
      out := "DISCOVERED NODES:\n" + "-----------------\n" + Text.Join(found, "\n");
      if undiscovered > 0 {
        out := out + "\n\nUNDISCOVERED NODES:\n" + "-------------------\n"
          + Text.NatToString(undiscovered) + " nodes not yet discovered";
      }
      assert Text.Enumerates(order, nodes.Keys);
    }
  }
}
