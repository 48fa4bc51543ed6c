/** The in-memory cache of `custom_components/smartbox/models.py`: a device
    owns its nodes, keyed by `(node type, address)`, and applies the push
    updates the vendor channel delivers.  The hub notifications the handlers
    send are recorded, in order, as a list of signals on the device. */
module Cache {
  import opened Vocabulary
  import Translation

  /** One energy reading of a node. */
  datatype Sample = Sample(timestamp: int, counter: real)

  /** A notification sent to the hub's dispatcher.  Node-level signals carry
      the node's address, which together with the device id forms the
      node id the signal is named after. */
  datatype Signal =
    | ConnectedSignal(connected: bool)
    | AwaySignal(addr: int, away: bool)
    | PowerLimitSignal(limit: int)
    | StatusSignal(addr: int, status: Dict)
    | SetupSignal(addr: int, setup: Dict)

  /** The key a device files a node under. */
  type NodeKey = (NodeType, int)

  /** The away signals sent, one per node in `keys` order. */
  function AwaySignals(keys: seq<NodeKey>, away: bool): (r: seq<Signal>)
    ensures |r| == |keys|
    ensures forall i :: 0 <= i < |keys| ==> r[i] == AwaySignal(keys[i].1, away)
  {
    if keys == [] then [] else AwaySignals(keys[..|keys| - 1], away) + [AwaySignal(keys[|keys| - 1].1, away)]
  }

  /** `is_heating` of a node of type `t`: an accumulator reports
      `charging`, every other node `active`; the value is returned as
      stored.  Both variants of the node read it alike. */
  function IsHeating(t: NodeType, s: Dict): (r: Result<Val>)
    ensures t == Acm ==> (r.Ok? <==> "charging" in s) && (r.Ok? ==> r.value == s["charging"])
    ensures t != Acm ==> (r.Ok? <==> "active" in s) && (r.Ok? ==> r.value == s["active"])
    ensures r.Fail? ==> r.error == MissingKey(if t == Acm then "charging" else "active")
  {
    if t == Acm then Lookup(s, "charging") else Lookup(s, "active")
  }

  /** `window_mode` of a node with this setup: KeyError when the setup has
      no window-mode flag.  Both variants of the node read it alike. */
  function WindowMode(setup: Dict): (r: Result<Val>)
    ensures r.Ok? <==> "window_mode_enabled" in setup
    ensures r.Ok? ==> r.value == setup["window_mode_enabled"]
    ensures r.Fail? ==> r.error == MissingKey("window_mode_enabled")
  {
    Lookup(setup, "window_mode_enabled")
  }

  /** `true_radiant` of a node with this setup: KeyError when the setup has
      no true-radiant flag.  Both variants of the node read it alike. */
  function TrueRadiant(setup: Dict): (r: Result<Val>)
    ensures r.Ok? <==> "true_radiant_enabled" in setup
    ensures r.Ok? ==> r.value == setup["true_radiant_enabled"]
    ensures r.Fail? ==> r.error == MissingKey("true_radiant_enabled")
  {
    Lookup(setup, "true_radiant_enabled")
  }

  class Node {
    const device: Device
    const nodeType: NodeType
    const addr: int
    var status: Dict
    var setup: Dict
    var samples: seq<Sample>

    constructor (device: Device, nodeType: NodeType, addr: int, status: Dict, setup: Dict, samples: seq<Sample>)
      ensures this.device == device && this.nodeType == nodeType && this.addr == addr
      ensures this.status == status && this.setup == setup && this.samples == samples
    {
      this.device := device;
      this.nodeType := nodeType;
      this.addr := addr;
      this.status := status;
      this.setup := setup;
      this.samples := samples;
    }

    /** `update_status`: merges the pushed keys into the cached status. */
    method UpdateStatus(update: Dict)
      modifies this`status
      ensures status == Merge(old(status), update)
    {
      status := status + update;
    }

    /** `update_setup`: the pushed setup replaces the cached one. */
    method UpdateSetup(update: Dict)
      modifies this`setup
      ensures setup == update
    {
      setup := update;
    }

    /** `set_status`: after the vendor write, merges the requested keys into
        the cached status and returns it. */
    method SetStatus(args: Dict) returns (r: Dict)
      modifies this`status
      ensures status == Merge(old(status), args) && r == status
    {
      status := status + args;
      r := status;
    }

    /** `update_power`: stores a freshly fetched power reading. */
    method UpdatePower(power: Val)
      modifies this`status
      ensures status == old(status)["power" := power]
    {
      status := status["power" := power];
    }

    /** `update_samples`: a fetch of at least two samples replaces the cached
        samples by its last two; a shorter fetch is ignored. */
    method UpdateSamples(fetched: seq<Sample>)
      modifies this`samples
      ensures |fetched| >= 2 ==> samples == fetched[|fetched| - 2..]
      ensures |fetched| < 2 ==> samples == old(samples)
    {
      if |fetched| >= 2 {
        samples := fetched[|fetched| - 2..];
      }
    }

    /** `total_energy`: the counter of the latest sample, none without
        samples. */
    function TotalEnergy(): (r: Option<real>)
      reads this`samples
      ensures r.None? <==> samples == []
      ensures r.Some? ==> r.value == samples[|samples| - 1].counter
    {
      if samples == [] then None else Some(samples[|samples| - 1].counter)
    }

    /** `set_window_mode`: after the vendor write, stores and returns the
        requested flag. */
    method SetWindowMode(enabled: bool) returns (r: bool)
      modifies this`setup
      ensures setup == old(setup)["window_mode_enabled" := B(enabled)] && r == enabled
      ensures WindowMode(setup) == Ok(B(enabled))
    {
      setup := setup["window_mode_enabled" := B(enabled)];
      r := enabled;
    }

    /** `set_true_radiant`: after the vendor write, stores the flag. */
    method SetTrueRadiant(enabled: bool)
      modifies this`setup
      ensures setup == old(setup)["true_radiant_enabled" := B(enabled)]
      ensures TrueRadiant(setup) == Ok(B(enabled))
    {
      setup := setup["true_radiant_enabled" := B(enabled)];
    }

    /** `boost`: the status's boost flag, false when absent. */
    function Boost(): (v: Val)
      reads this`status
      ensures "boost" !in status ==> v == B(false)
      ensures "boost" in status ==> v == status["boost"]
      ensures Truthy(v) <==> Translation.Boosting(status)
    {
      Get(status, "boost", B(false))
    }

    /** `boost_config`: the factory option `boost_config`, 0 when absent. */
    function BoostConfig(): (r: Result<Val>)
      reads this`setup
      ensures "factory_options" !in setup ==> r == Ok(N(0.0))
      ensures "factory_options" in setup && setup["factory_options"].D? ==>
        r == Ok(Get(setup["factory_options"].entries, "boost_config", N(0.0)))
      ensures "factory_options" in setup && !setup["factory_options"].D? ==> r == Fail(AttributeErr)
    {
      Translation.FactoryOption(setup, "boost_config", N(0.0))
    }

    /** `boost_available`: the boost configuration is non-zero. */
    function BoostAvailable(): (r: Result<bool>)
      reads this`setup
      ensures "factory_options" !in setup ==> r == Ok(false)
      ensures r.Ok? <==> BoostConfig().Ok?
      ensures BoostConfig().Ok? ==> r == Ok(Truthy(BoostConfig().value))
      ensures BoostConfig().Fail? ==> r == Fail(BoostConfig().error)
    {
      var config :- BoostConfig();
      Ok(Truthy(config))
    }

    /** `heater_node`: the node type is one that gets a climate entity. */
    predicate HeaterNode()
      ensures HeaterNode() <==> nodeType != Pmo
    {
      assert HeaterNodeTypes == {Acm, Htr, HtrMod} && (nodeType.Acm? || nodeType.Htr? || nodeType.HtrMod? || nodeType.Pmo?);
      nodeType in HeaterNodeTypes
    }

    /** `update_device_away_status`: sets the owning device's away flag. */
    method UpdateDeviceAwayStatus(away: bool)
      modifies device`away, device`signals
      ensures device.away == away
      ensures device.signals == old(device.signals) +
        (if old(device.away) != away then AwaySignals(device.order, away) else [])
    {
      device.SetAwayStatus(away);
    }
  }

  class Device {
    var away: bool
    var powerLimit: int
    var connected: Option<bool>
    /** The node keys in the order the nodes were added. */
    var order: seq<NodeKey>
    var nodes: map<NodeKey, Node>
    var signals: seq<Signal>

    /** Every node is filed once, under its own type and address, and
        belongs to this device. */
    ghost predicate Valid()
      reads this
    {
      && (forall i, j :: 0 <= i < j < |order| ==> order[i] != order[j])
      && (forall k :: k in nodes <==> k in order)
      && (forall k :: k in nodes ==> nodes[k].device == this && nodes[k].nodeType == k.0 && nodes[k].addr == k.1)
    }

    constructor ()
      ensures Valid()
      ensures !away && powerLimit == 0 && connected == None
      ensures nodes == map[] && order == [] && signals == []
    {
      away := false;
      powerLimit := 0;
      connected := None;
      order := [];
      nodes := map[];
      signals := [];
    }

    /** `_nodes[(node.node_type, node.addr)] = node`, as the device fills
        its node map: a new key is appended, an existing key is refiled in
        place. */
    method AddNode(n: Node)
      requires Valid() && n.device == this
      modifies this`nodes, this`order
      ensures Valid()
      ensures nodes == old(nodes)[(n.nodeType, n.addr) := n]
      ensures order == if (n.nodeType, n.addr) in old(nodes) then old(order) else old(order) + [(n.nodeType, n.addr)]
    {
      var k := (n.nodeType, n.addr);
      if k !in nodes {
        order := order + [k];
      }
      nodes := nodes[k := n];
    }

    /** `get_nodes`: the cached node objects themselves, in the order they
        were added. */
    function NodeList(): (r: seq<Node>)
      reads this
      requires Valid()
      ensures |r| == |order|
      ensures forall i :: 0 <= i < |order| ==> order[i] in nodes && r[i] == nodes[order[i]]
      ensures forall i :: 0 <= i < |order| ==> r[i].nodeType == order[i].0 && r[i].addr == order[i].1
    {
      seq(|order|, i requires 0 <= i < |order| && order[i] in nodes reads this => nodes[order[i]])
    }

    /** `_connected`: records the connection state and always notifies. */
    method Connected(c: bool)
      modifies this`connected, this`signals
      ensures connected == Some(c)
      ensures signals == old(signals) + [ConnectedSignal(c)]
    {
      connected := Some(c);
      signals := signals + [ConnectedSignal(c)];
    }

    /** `_away_status_update`: a changed away flag is stored and announced
        to every node, in node order; an unchanged one does nothing. */
    method AwayStatusUpdate(a: bool)
      modifies this`away, this`signals
      ensures away == a
      ensures signals == old(signals) + (if old(away) != a then AwaySignals(order, a) else [])
    {
      if away != a {
        away := a;
        var i := 0;
        while i < |order|
          invariant 0 <= i <= |order| && away == a
          invariant signals == old(signals) + AwaySignals(order[..i], a)
        {
          assert order[..i + 1][..i] == order[..i];
          signals := signals + [AwaySignal(order[i].1, a)];
          i := i + 1;
        }
        assert order[..|order|] == order;
      }
    }

    /** `_power_limit_update`: a changed limit is stored and announced; an
        unchanged one does nothing. */
    method PowerLimitUpdate(limit: int)
      modifies this`powerLimit, this`signals
      ensures powerLimit == limit
      ensures signals == old(signals) + (if old(powerLimit) != limit then [PowerLimitSignal(limit)] else [])
    {
      if powerLimit != limit {
        powerLimit := limit;
        signals := signals + [PowerLimitSignal(limit)];
      }
    }

    /** `_node_status_update`: power-monitor updates are ignored; an update
        for a known node that differs from its cached status is merged into
        it and announced; a missing update or an unknown node is logged and
        changes nothing. */
    method NodeStatusUpdate(t: NodeType, addr: int, update: Option<Dict>)
      requires Valid()
      modifies this`signals, if (t, addr) in nodes then {nodes[(t, addr)]} else {}
      ensures Valid() && nodes == old(nodes)
      ensures forall k :: k in nodes && k != (t, addr) ==> unchanged(nodes[k])
      ensures t == Pmo || update.None? || (t, addr) !in nodes ==>
        signals == old(signals) && forall k :: k in nodes ==> unchanged(nodes[k])
      ensures t != Pmo && update.Some? && (t, addr) in nodes ==>
        var n := nodes[(t, addr)];
        && n.setup == old(n.setup) && n.samples == old(n.samples)
        && (old(n.status) != update.value ==>
              n.status == Merge(old(n.status), update.value)
              && signals == old(signals) + [StatusSignal(addr, update.value)])
        && (old(n.status) == update.value ==> n.status == old(n.status) && signals == old(signals))
    {
      if t == Pmo {
        return;
      }
      if update.Some? && (t, addr) in nodes {
        var n := nodes[(t, addr)];
        if n.status != update.value {
          n.UpdateStatus(update.value);
          signals := signals + [StatusSignal(addr, update.value)];
        }
      }
    }

    /** `_node_setup_update`: a setup for a known node that differs from its
        cached setup replaces it and is announced; an unknown node is logged
        and changes nothing. */
    method NodeSetupUpdate(t: NodeType, addr: int, update: Dict)
      requires Valid()
      modifies this`signals, if (t, addr) in nodes then {nodes[(t, addr)]} else {}
      ensures Valid() && nodes == old(nodes)
      ensures forall k :: k in nodes && k != (t, addr) ==> unchanged(nodes[k])
      ensures (t, addr) !in nodes ==> signals == old(signals)
      ensures (t, addr) in nodes ==>
        var n := nodes[(t, addr)];
        && n.status == old(n.status) && n.samples == old(n.samples)
        && n.setup == update
        && signals == old(signals) + (if old(n.setup) != update then [SetupSignal(addr, update)] else [])
    {
      if (t, addr) in nodes {
        var n := nodes[(t, addr)];
        if n.setup != update {
          n.UpdateSetup(update);
          signals := signals + [SetupSignal(addr, update)];
        }
      }
    }

    /** `set_away_status`: after the vendor write, goes through the same
        path as a pushed away update. */
    method SetAwayStatus(a: bool)
      modifies this`away, this`signals
      ensures away == a
      ensures signals == old(signals) + (if old(away) != a then AwaySignals(order, a) else [])
    {
      AwayStatusUpdate(a);
    }

    /** `set_power_limit`: after the vendor write, stores the limit without
        a notification. */
    method SetPowerLimit(limit: int)
      modifies this`powerLimit
      ensures powerLimit == limit
    {
      powerLimit := limit;
    }
  }
}
