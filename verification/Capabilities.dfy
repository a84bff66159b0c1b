/** What a cluster can be asked: the minimum over its brokers, and the phases
    that minimum leaves on. */
module Capabilities {
  const MAX_INT16 := 0x7FFF

  /** A broker's probe answer: the highest version it offers, per API key. */
  datatype Broker = Broker(node: int, keys: map<int, int>)

  /** The lowest such version over all brokers, and the broker that offers it; or
      a broker that does not offer the key at all. */
  datatype Floor = Floor(node: int, version: int, present: bool)

  const LIST_OFFSETS := 2
  const METADATA := 3
  const LIST_GROUPS := 16
  const OFFSET_FOR_LEADER_EPOCH := 23
  const DESCRIBE_CONFIGS := 32
  const DESCRIBE_LOG_DIRS := 35
  const LIST_REASSIGNMENTS := 46
  const CONSUMER_GROUP_DESCRIBE := 69
  const SHARE_GROUP_DESCRIBE := 77

  const PROBED: seq<int> :=
    [LIST_OFFSETS, METADATA, LIST_GROUPS, OFFSET_FOR_LEADER_EPOCH, DESCRIBE_LOG_DIRS, LIST_REASSIGNMENTS,
     DESCRIBE_CONFIGS, SHARE_GROUP_DESCRIBE, CONSUMER_GROUP_DESCRIBE]

  /** Versions are 16-bit on the wire. */
  predicate Narrow(brokers: seq<Broker>) {
    forall i, k :: 0 <= i < |brokers| && k in brokers[i].keys ==> brokers[i].keys[k] <= MAX_INT16
  }

  predicate Offers(b: Broker, key: int, version: int) {
    key in b.keys && b.keys[key] >= version
  }

  /** brokers[i] is the first of those that offer key least. */
  predicate FirstLeast(brokers: seq<Broker>, key: int, i: nat) {
    && i < |brokers| && key in brokers[i].keys
    && (forall j :: 0 <= j < |brokers| ==> key in brokers[j].keys && brokers[i].keys[key] <= brokers[j].keys[key])
    && (forall j :: 0 <= j < i ==> brokers[i].keys[key] < brokers[j].keys[key])
  }

  predicate FirstWithout(brokers: seq<Broker>, key: int, i: nat) {
    i < |brokers| && key !in brokers[i].keys && forall j :: 0 <= j < i ==> key in brokers[j].keys
  }

  /** What a floor says. The broker it names is the first one in node order, as
      long as some offered version is below the largest 16-bit one. */
  ghost predicate IsFloor(brokers: seq<Broker>, key: int, f: Floor) {
    && (f.present <==> brokers != [] && forall i :: 0 <= i < |brokers| ==> key in brokers[i].keys)
    && (!f.present && brokers != [] ==> exists i: nat :: FirstWithout(brokers, key, i) && f.node == brokers[i].node)
    && f.version <= MAX_INT16
    && (f.present ==> forall i :: 0 <= i < |brokers| ==> f.version <= brokers[i].keys[key])
    && (f.present && f.version < MAX_INT16 ==>
          exists i: nat :: FirstLeast(brokers, key, i) && f.node == brokers[i].node && f.version == brokers[i].keys[key])
  }

  /** One key's floor, over brokers in node order. */
  method FloorOf(brokers: seq<Broker>, key: int) returns (f: Floor)
    requires Narrow(brokers)
    ensures IsFloor(brokers, key, f)
  {
    f := Floor(0, MAX_INT16, |brokers| > 0);
    ghost var least := 0;
    for i := 0 to |brokers|
      invariant (f.present <==> |brokers| > 0) && f.version <= MAX_INT16
      invariant forall j :: 0 <= j < i ==> key in brokers[j].keys && f.version <= brokers[j].keys[key]
      invariant f.version < MAX_INT16 ==>
        least < i && f.node == brokers[least].node && f.version == brokers[least].keys[key]
        && forall j :: 0 <= j < least ==> f.version < brokers[j].keys[key]
    {
      var b := brokers[i];
      if key !in b.keys {
        f := Floor(b.node, 0, false);
        assert FirstWithout(brokers, key, i);
        return;
      }
      if b.keys[key] < f.version {
        f := Floor(b.node, b.keys[key], true);
        least := i;
      }
    }
    if f.version < MAX_INT16 {
      assert FirstLeast(brokers, key, least);
    }
  }

  ghost predicate Folded(brokers: seq<Broker>, floors: map<int, Floor>) {
    && (forall k :: k in floors <==> k in PROBED)
    && forall k :: k in floors ==> IsFloor(brokers, k, floors[k])
  }

  method Fold(brokers: seq<Broker>) returns (floors: map<int, Floor>)
    requires Narrow(brokers)
    ensures Folded(brokers, floors)
  {
    hide IsFloor, Narrow;
    floors := map[];
    for n := 0 to |PROBED|
      invariant forall k :: k in floors <==> k in PROBED[..n]
      invariant forall k :: k in floors ==> IsFloor(brokers, k, floors[k])
    {
      var f := FloorOf(brokers, PROBED[n]);
      floors := floors[PROBED[n] := f];
    }
    assert PROBED[..|PROBED|] == PROBED;
  }

  /** An unprobed key reads as absent. */
  predicate AtLeast(floors: map<int, Floor>, key: int, version: int) {
    key in floors && floors[key].present && floors[key].version >= version
  }

  predicate AllOffer(brokers: seq<Broker>, key: int, version: int) {
    brokers != [] && forall i :: 0 <= i < |brokers| ==> Offers(brokers[i], key, version)
  }

  /** A capability holds exactly when there is a broker and every broker offers
      it. */
  lemma AtLeastMeansAll(brokers: seq<Broker>, floors: map<int, Floor>, key: int, version: int)
    requires Folded(brokers, floors) && key in PROBED && version <= MAX_INT16
    ensures AtLeast(floors, key, version) <==> AllOffer(brokers, key, version)
  {
    hide PROBED;
    var f := floors[key];
    assert IsFloor(brokers, key, f);
    if AllOffer(brokers, key, version) {
      assert forall i :: 0 <= i < |brokers| ==> Offers(brokers[i], key, version);
      if f.version < MAX_INT16 {
        var i: nat :| FirstLeast(brokers, key, i) && f.version == brokers[i].keys[key];
        assert Offers(brokers[i], key, version);
      }
    }
  }

  // ---------------------------------------------------------------------------
  // Gates
  // ---------------------------------------------------------------------------

  /** The optional phases a cluster may be too old for, and one that no cluster
      is. */
  datatype Phase =
    | ConsumerGroups | LastStableOffset | ThroughputWindow | Reassignments | MaxTimestamp
    | TieredOffsets | LatestTiered | ShareGroups | Configs | EpochProbes
    | LogDirs

  /** A gated option with the key and version it needs on every broker. */
  datatype Gate = Gate(phase: Phase, key: int, version: int)

  const GATES: seq<Gate> := [
    Gate(ConsumerGroups, CONSUMER_GROUP_DESCRIBE, 0),
    Gate(LastStableOffset, LIST_OFFSETS, 2),
    Gate(ThroughputWindow, LIST_OFFSETS, 1),
    Gate(Reassignments, LIST_REASSIGNMENTS, 0),
    Gate(MaxTimestamp, LIST_OFFSETS, 7),
    Gate(TieredOffsets, LIST_OFFSETS, 8),
    Gate(LatestTiered, LIST_OFFSETS, 9),
    Gate(ShareGroups, SHARE_GROUP_DESCRIBE, 0),
    Gate(Configs, DESCRIBE_CONFIGS, 1),
    Gate(EpochProbes, OFFSET_FOR_LEADER_EPOCH, 0)]

  /** Whether what o needs is offered by every broker. */
  ghost predicate Supported(brokers: seq<Broker>, o: Phase) {
    forall g :: g in GATES && g.phase == o ==> AllOffer(brokers, g.key, g.version)
  }

  lemma GatesProbed()
    ensures forall i :: 0 <= i < |GATES| ==> GATES[i].key in PROBED && GATES[i].version <= MAX_INT16
  {
    forall i | 0 <= i < |GATES| ensures GATES[i].key in PROBED {
      var key := GATES[i].key;
      assert key in [LIST_OFFSETS, LIST_REASSIGNMENTS, CONSUMER_GROUP_DESCRIBE, SHARE_GROUP_DESCRIBE, DESCRIBE_CONFIGS, OFFSET_FOR_LEADER_EPOCH];
      assert PROBED[0] == LIST_OFFSETS && PROBED[3] == OFFSET_FOR_LEADER_EPOCH && PROBED[5] == LIST_REASSIGNMENTS;
      assert PROBED[6] == DESCRIBE_CONFIGS && PROBED[7] == SHARE_GROUP_DESCRIBE && PROBED[8] == CONSUMER_GROUP_DESCRIBE;
    }
  }

  /** The collector's options, switched in place. */
  class Options {
    var on: map<Phase, bool>

    constructor (configured: map<Phase, bool>)
      ensures on == configured
    {
      on := configured;
    }

    /** Each gated option ends up on exactly when it was configured on and every
        broker offers what it needs; any other is left as it was. */
    method ApplyGates(ghost brokers: seq<Broker>, floors: map<int, Floor>)
      requires Folded(brokers, floors)
      requires forall o: Phase :: o in on
      modifies this
      ensures forall o: Phase :: o in on && (on[o] <==> old(on)[o] && Supported(brokers, o))
    {
      hide Folded, AllOffer, AtLeast, PROBED;
      GatesProbed();
      for n := 0 to |GATES|
        invariant forall o: Phase :: o in on
        invariant forall o: Phase ::
          on[o] <==> old(on)[o] && forall g :: g in GATES[..n] && g.phase == o ==> AllOffer(brokers, g.key, g.version)
      {
        var gate := GATES[n];
        AtLeastMeansAll(brokers, floors, gate.key, gate.version);
        assert GATES[..n + 1] == GATES[..n] + [gate];
        if on[gate.phase] && !AtLeast(floors, gate.key, gate.version) {
          on := on[gate.phase := false];
        }
      }
      assert GATES[..|GATES|] == GATES;
    }
  }

  /** More brokers never support more. */
  lemma AddingBrokersNeverEnables(few: seq<Broker>, many: seq<Broker>, o: Phase)
    requires few != [] && forall b :: b in few ==> b in many
    requires Supported(many, o)
    ensures Supported(few, o)
  {
    forall g | g in GATES && g.phase == o ensures AllOffer(few, g.key, g.version) {
      assert AllOffer(many, g.key, g.version);
      forall i | 0 <= i < |few| ensures Offers(few[i], g.key, g.version) {
        assert few[i] in many;
        var j :| 0 <= j < |many| && many[j] == few[i];
        assert Offers(many[j], g.key, g.version);
      }
    }
  }

  /** With no broker nothing gated is supported. */
  lemma NoBrokerNothingSupported(o: Phase)
    ensures Supported([], o) <==> o == LogDirs
  {
    if o != LogDirs {
      var g := GateOf(o);
      assert !AllOffer([], g.key, g.version);
    }
  }

  lemma GateOf(o: Phase) returns (g: Gate)
    requires o != LogDirs
    ensures g in GATES && g.phase == o
  {
    var i := match o
      case ConsumerGroups => 0
      case LastStableOffset => 1
      case ThroughputWindow => 2
      case Reassignments => 3
      case MaxTimestamp => 4
      case TieredOffsets => 5
      case LatestTiered => 6
      case ShareGroups => 7
      case Configs => 8
      case EpochProbes => 9;
    g := GATES[i];
  }

  lemma OneGate(brokers: seq<Broker>, i: nat)
    requires i < |GATES|
    ensures Supported(brokers, GATES[i].phase) <==> AllOffer(brokers, GATES[i].key, GATES[i].version)
  {
    hide AllOffer;
    assert GATES[i] in GATES;
    forall g | g in GATES && g.phase == GATES[i].phase ensures g == GATES[i] {
      var j :| 0 <= j < |GATES| && GATES[j] == g;
    }
  }

  /** What each gated phase takes of every broker, by API key and version. */
  lemma WhatPhasesNeed(brokers: seq<Broker>)
    ensures Supported(brokers, ConsumerGroups) <==> AllOffer(brokers, 69, 0)
    ensures Supported(brokers, LastStableOffset) <==> AllOffer(brokers, 2, 2)
    ensures Supported(brokers, ThroughputWindow) <==> AllOffer(brokers, 2, 1)
    ensures Supported(brokers, Reassignments) <==> AllOffer(brokers, 46, 0)
    ensures Supported(brokers, MaxTimestamp) <==> AllOffer(brokers, 2, 7)
    ensures Supported(brokers, TieredOffsets) <==> AllOffer(brokers, 2, 8)
    ensures Supported(brokers, LatestTiered) <==> AllOffer(brokers, 2, 9)
    ensures Supported(brokers, ShareGroups) <==> AllOffer(brokers, 77, 0)
    ensures Supported(brokers, Configs) <==> AllOffer(brokers, 32, 1)
    ensures Supported(brokers, EpochProbes) <==> AllOffer(brokers, 23, 0)
  {
    hide AllOffer, Supported;
    OneGate(brokers, 0); OneGate(brokers, 1); OneGate(brokers, 2); OneGate(brokers, 3); OneGate(brokers, 4);
    OneGate(brokers, 5); OneGate(brokers, 6); OneGate(brokers, 7); OneGate(brokers, 8); OneGate(brokers, 9);
  }
}
