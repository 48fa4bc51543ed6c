/** The in-memory cache of `custom_components/smartbox/model.py`, the older
    variant of the device and node classes.  Unlike `Cache` it sends no
    notifications, stores away and power-limit pushes unconditionally, does
    not skip power-monitor pushes, and a pushed status REPLACES the cached
    one instead of being merged into it. */
module LegacyCache {
  import opened Vocabulary
  import Cache

  class Node {
    const device: Device
    const nodeType: NodeType
    const addr: int
    var status: Dict
    var setup: Dict

    constructor (device: Device, nodeType: NodeType, addr: int, status: Dict, setup: Dict)
      ensures this.device == device && this.nodeType == nodeType && this.addr == addr
      ensures this.status == status && this.setup == setup
    {
      this.device := device;
      this.nodeType := nodeType;
      this.addr := addr;
      this.status := status;
      this.setup := setup;
    }

    /** `update_status`: the pushed status replaces the cached one, so keys
        the push leaves out are dropped. */
    method UpdateStatus(update: Dict)
      modifies this`status
      ensures status == update
    {
      status := update;
    }

    /** `update_setup`: the pushed setup replaces the cached one. */
    method UpdateSetup(update: Dict)
      modifies this`setup
      ensures setup == update
    {
      setup := update;
    }

    /** `set_status`: after the vendor write, merges the requested keys into
        the cached status and returns it. */
    method SetStatus(args: Dict) returns (r: Dict)
      modifies this`status
      ensures status == Merge(old(status), args) && r == status
    {
      status := status + args;
      r := status;
    }

    /** `update_device_away_status`: sets the owning device's away flag. */
    method UpdateDeviceAwayStatus(away: bool)
      modifies device`away
      ensures device.away == away
    {
      device.SetAwayStatus(away);
    }

    /** `set_window_mode`: after the vendor write, stores the flag. */
    method SetWindowMode(enabled: bool)
      modifies this`setup
      ensures setup == old(setup)["window_mode_enabled" := B(enabled)]
      ensures Cache.WindowMode(setup) == Ok(B(enabled))
    {
      setup := setup["window_mode_enabled" := B(enabled)];
    }

    /** `set_true_radiant`: after the vendor write, stores the flag. */
    method SetTrueRadiant(enabled: bool)
      modifies this`setup
      ensures setup == old(setup)["true_radiant_enabled" := B(enabled)]
      ensures Cache.TrueRadiant(setup) == Ok(B(enabled))
    {
      setup := setup["true_radiant_enabled" := B(enabled)];
    }
  }

  class Device {
    var away: bool
    var powerLimit: int
    /** The node keys in the order the nodes were added. */
    var order: seq<Cache.NodeKey>
    var nodes: map<Cache.NodeKey, Node>

    /** Every node is filed once, under its own type and address, and
        belongs to this device. */
    ghost predicate Valid()
      reads this
    {
      && (forall i, j :: 0 <= i < j < |order| ==> order[i] != order[j])
      && (forall k :: k in nodes <==> k in order)
      && (forall k :: k in nodes ==> nodes[k].device == this && nodes[k].nodeType == k.0 && nodes[k].addr == k.1)
    }

    constructor ()
      ensures Valid()
      ensures !away && powerLimit == 0
      ensures nodes == map[] && order == []
    {
      away := false;
      powerLimit := 0;
      order := [];
      nodes := map[];
    }

    /** `_nodes[(node.node_type, node.addr)] = node`, as the device fills
        its node map: a new key is appended, an existing key is refiled in
        place. */
    method AddNode(n: Node)
      requires Valid() && n.device == this
      modifies this`nodes, this`order
      ensures Valid()
      ensures nodes == old(nodes)[(n.nodeType, n.addr) := n]
      ensures order == if (n.nodeType, n.addr) in old(nodes) then old(order) else old(order) + [(n.nodeType, n.addr)]
    {
      var k := (n.nodeType, n.addr);
      if k !in nodes {
        order := order + [k];
      }
      nodes := nodes[k := n];
    }

    /** `get_nodes`: the cached node objects themselves, in the order they
        were added. */
    function NodeList(): (r: seq<Node>)
      reads this
      requires Valid()
      ensures |r| == |order|
      ensures forall i :: 0 <= i < |order| ==> order[i] in nodes && r[i] == nodes[order[i]]
      ensures forall i :: 0 <= i < |order| ==> r[i].nodeType == order[i].0 && r[i].addr == order[i].1
    {
      seq(|order|, i requires 0 <= i < |order| && order[i] in nodes reads this => nodes[order[i]])
    }

    /** `_away_status_update`: stores the pushed flag, changed or not. */
    method AwayStatusUpdate(a: bool)
      modifies this`away
      ensures away == a
    {
      away := a;
    }

    /** `_power_limit_update`: stores the pushed limit, changed or not. */
    method PowerLimitUpdate(limit: int)
      modifies this`powerLimit
      ensures powerLimit == limit
    {
      powerLimit := limit;
    }

    /** `_node_status_update`: the pushed status replaces the cached status
        of a known node, of any type; an unknown node is logged and changes
        nothing. */
    method NodeStatusUpdate(t: NodeType, addr: int, update: Dict)
      requires Valid()
      modifies if (t, addr) in nodes then {nodes[(t, addr)]} else {}
      ensures Valid() && nodes == old(nodes)
      ensures forall k :: k in nodes && k != (t, addr) ==> unchanged(nodes[k])
      ensures (t, addr) in nodes ==>
        nodes[(t, addr)].status == update && nodes[(t, addr)].setup == old(nodes[(t, addr)].setup)
    {
      if (t, addr) in nodes {
        nodes[(t, addr)].UpdateStatus(update);
      }
    }

    /** `_node_setup_update`: the pushed setup replaces the cached setup of a
        known node; an unknown node is logged and changes nothing. */
    method NodeSetupUpdate(t: NodeType, addr: int, update: Dict)
      requires Valid()
      modifies if (t, addr) in nodes then {nodes[(t, addr)]} else {}
      ensures Valid() && nodes == old(nodes)
      ensures forall k :: k in nodes && k != (t, addr) ==> unchanged(nodes[k])
      ensures (t, addr) in nodes ==>
        nodes[(t, addr)].setup == update && nodes[(t, addr)].status == old(nodes[(t, addr)].status)
    {
      if (t, addr) in nodes {
        nodes[(t, addr)].UpdateSetup(update);
      }
    }

    /** `set_away_status`: after the vendor write, stores the flag. */
    method SetAwayStatus(a: bool)
      modifies this`away
      ensures away == a
    {
      away := a;
    }

    /** `set_power_limit`: after the vendor write, stores the limit. */
    method SetPowerLimit(limit: int)
      modifies this`powerLimit
      ensures powerLimit == limit
    {
      powerLimit := limit;
    }
  }
}
