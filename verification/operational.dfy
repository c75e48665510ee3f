/** The operational state store of datasim.py (`BUS_OPERATIONAL_STATUS`):
    one record per bus, a deterministic initial fleet of fifteen buses and
    a partial-field update (`update_bus_operational_status`). */
module Operational {
  import opened Common
  import opened Text

  /** Number of buses the store is seeded with (`range(1, 16)`). */
  const FleetSize: nat := 15

  /** The crowdedness tiers the seeding draws from. */
  predicate IsTier(t: string) {
    t == "LIGHT" || t == "MODERATE" || t == "HEAVY"
  }

  datatype OpState = OpState(
    isRunning: bool,
    statusMessage: string,
    crowdedness: string,
    routeId: string)

  /** `f"Bus-{i}"` */
  function BusId(i: nat): string {
    "Bus-" + NatToString(i)
  }

  lemma BusIdInjective(i: nat, j: nat)
    requires BusId(i) == BusId(j)
    ensures i == j
  {
    PrefixedInjective("Bus-", i, j);
  }

  lemma BusIdEquality(i: nat, j: nat)
    ensures BusId(i) == BusId(j) <==> i == j
  {
    if BusId(i) == BusId(j) {
      BusIdInjective(i, j);
    }
  }

  /** `f"Route-{k}"` */
  function RouteKey(k: nat): string {
    "Route-" + NatToString(k)
  }

  lemma RouteKeysOfSeeds()
    ensures RouteKey(1) == "Route-1" && RouteKey(2) == "Route-2"
  {
  }

  /** The seeded record of `Bus-i`, with its crowdedness tier drawn at
      random (`tier`). */
  function InitialState(i: nat, tier: string): OpState {
    OpState(
      i % 3 != 0,
      if i % 3 != 0 then "On Route" else "Off Duty",
      tier,
      RouteKey(i % 2 + 1))
  }

  /** The dictionary comprehension that seeds `BUS_OPERATIONAL_STATUS`,
      built in key order: Bus-1..Bus-n, where `tiers[i - 1]` is the tier
      drawn for `Bus-i`. */
  function InitialStatesUpTo(tiers: seq<string>, n: nat): map<string, OpState>
    requires n <= |tiers|
  {
    if n == 0 then map[]
    else InitialStatesUpTo(tiers, n - 1)[BusId(n) := InitialState(n, tiers[n - 1])]
  }

  function InitialStates(tiers: seq<string>): map<string, OpState>
    requires |tiers| == FleetSize
    requires forall k :: 0 <= k < |tiers| ==> IsTier(tiers[k])
  {
    InitialStatesUpTo(tiers, FleetSize)
  }

  /** `Bus-i` is among the first n seeded keys iff 1 <= i <= n, with the
      record seeded from its own tier. */
  lemma {:induction false} InitialStatesUpToAt(tiers: seq<string>, n: nat, i: nat)
    requires n <= |tiers|
    ensures BusId(i) in InitialStatesUpTo(tiers, n) <==> 1 <= i <= n
    ensures 1 <= i <= n ==> InitialStatesUpTo(tiers, n)[BusId(i)] == InitialState(i, tiers[i - 1])
  {
    if n > 0 {
      if i != n {
        InitialStatesUpToAt(tiers, n - 1, i);
        BusIdEquality(i, n);
        UpdateOtherKey(InitialStatesUpTo(tiers, n - 1), BusId(n), InitialState(n, tiers[n - 1]), BusId(i));
      }
    }
  }

  /** Bus-1..Bus-n are Bus-1..Bus-(n-1) and Bus-n. */
  lemma BusIdRangeStep(n: nat)
    requires n >= 1
    ensures (set i: nat | 1 <= i <= n :: BusId(i)) == (set i: nat | 1 <= i <= n - 1 :: BusId(i)) + {BusId(n)}
  {
    var whole, prev := set i: nat | 1 <= i <= n :: BusId(i), set i: nat | 1 <= i <= n - 1 :: BusId(i);
    forall b | b in whole ensures b in prev + {BusId(n)} {
      var j: nat :| 1 <= j <= n && BusId(j) == b;
      if j < n {
        assert BusId(j) in prev;
      }
    }
    forall b | b in prev ensures b in whole {
      var j: nat :| 1 <= j <= n - 1 && BusId(j) == b;
      assert BusId(j) in whole;
    }
    assert BusId(n) in whole;
  }

  lemma {:induction false} InitialStatesUpToKeys(tiers: seq<string>, n: nat)
    requires n <= |tiers|
    ensures InitialStatesUpTo(tiers, n).Keys == set i: nat | 1 <= i <= n :: BusId(i)
  {
    if n > 0 {
      InitialStatesUpToKeys(tiers, n - 1);
      BusIdRangeStep(n);
      UpdateKeys(InitialStatesUpTo(tiers, n - 1), BusId(n), InitialState(n, tiers[n - 1]));
    } else {
      assert (set i: nat | 1 <= i <= n :: BusId(i)) == {};
    }
  }

  lemma InitialStatesLookup(tiers: seq<string>, i: nat)
    requires |tiers| == FleetSize
    requires forall k :: 0 <= k < |tiers| ==> IsTier(tiers[k])
    ensures BusId(i) in InitialStates(tiers) <==> 1 <= i <= FleetSize
    ensures 1 <= i <= FleetSize ==> InitialStates(tiers)[BusId(i)] == InitialState(i, tiers[i - 1])
  {
    InitialStatesUpToAt(tiers, FleetSize, i);
  }

  lemma InitialStateFields(i: nat, tier: string)
    ensures var s := InitialState(i, tier);
      && s.isRunning == (i % 3 != 0)
      && s.statusMessage == (if i % 3 != 0 then "On Route" else "Off Duty")
      && s.routeId == (if i % 2 == 0 then "Route-1" else "Route-2")
      && s.crowdedness == tier
  {
    RouteKeysOfSeeds();
    if i % 2 == 0 {
      assert InitialState(i, tier).routeId == RouteKey(1);
    } else {
      assert InitialState(i, tier).routeId == RouteKey(2);
    }
  }

  /** Initial state: exactly Bus-1..Bus-15 are stored; `Bus-i` runs iff
      `i % 3 != 0`, with the matching message, and is assigned Route-1 for
      even `i` and Route-2 for odd `i`. */
  lemma InitialStatesAt(tiers: seq<string>, i: nat)
    requires |tiers| == FleetSize
    requires forall k :: 0 <= k < |tiers| ==> IsTier(tiers[k])
    ensures BusId(i) in InitialStates(tiers) <==> 1 <= i <= FleetSize
    ensures 1 <= i <= FleetSize ==>
      var s := InitialStates(tiers)[BusId(i)];
      && s.isRunning == (i % 3 != 0)
      && s.statusMessage == (if i % 3 != 0 then "On Route" else "Off Duty")
      && s.routeId == (if i % 2 == 0 then "Route-1" else "Route-2")
      && s.crowdedness == tiers[i - 1]
      && IsTier(s.crowdedness)
  {
    InitialStatesLookup(tiers, i);
    if 1 <= i <= FleetSize {
      InitialStateFields(i, tiers[i - 1]);
    }
  }

  /** Every stored key is some `Bus-i`, and no seeded bus is unassigned. */
  lemma InitialStatesKeys(tiers: seq<string>)
    requires |tiers| == FleetSize
    requires forall k :: 0 <= k < |tiers| ==> IsTier(tiers[k])
    ensures InitialStates(tiers).Keys == set i: nat | 1 <= i <= FleetSize :: BusId(i)
    ensures forall b :: b in InitialStates(tiers) ==> InitialStates(tiers)[b].routeId != "N/A"
  {
    RouteKeysOfSeeds();
    InitialStatesUpToKeys(tiers, FleetSize);
    var m := InitialStates(tiers);
    forall b | b in m ensures m[b].routeId != "N/A" {
      var i: nat :| 1 <= i <= FleetSize && BusId(i) == b;
      InitialStatesAt(tiers, i);
    }
  }

  /** The effect of `update_bus_operational_status` on one record: fields
      given as `Some` are overwritten, the others kept; an "N/A" route is
      replaced by `Route-{routePick}` when the update turns the bus on. */
  function Patch(s: OpState, isRunning: Option<bool>, message: Option<string>,
                 tier: Option<string>, routePick: nat): (r: OpState)
    requires routePick == 1 || routePick == 2
    ensures isRunning.None? ==> r.isRunning == s.isRunning
    ensures isRunning.Some? ==> r.isRunning == isRunning.value
    ensures message.None? ==> r.statusMessage == s.statusMessage
    ensures message.Some? ==> r.statusMessage == message.value
    ensures tier.None? ==> r.crowdedness == s.crowdedness
    ensures tier.Some? ==> r.crowdedness == tier.value
    ensures s.routeId == "N/A" && isRunning == Some(true) ==>
              r.routeId == "Route-1" || r.routeId == "Route-2"
    ensures !(s.routeId == "N/A" && isRunning == Some(true)) ==> r.routeId == s.routeId
  {
    var running := if isRunning.Some? then isRunning.value else s.isRunning;
    var msg := if message.Some? then message.value else s.statusMessage;
    var crowd := if tier.Some? then tier.value else s.crowdedness;
    var route := if s.routeId == "N/A" && isRunning == Some(true) then RouteKey(routePick) else s.routeId;
    OpState(running, msg, crowd, route)
  }

  /** Applying the same update twice is applying it once. */
  lemma PatchIdempotent(s: OpState, isRunning: Option<bool>, message: Option<string>,
                        tier: Option<string>, routePick: nat)
    requires routePick == 1 || routePick == 2
    ensures var once := Patch(s, isRunning, message, tier, routePick);
            Patch(once, isRunning, message, tier, routePick) == once
  {
    RouteKeysOfSeeds();
  }

  /** An update that gives no field leaves the record as it was. */
  lemma EmptyPatchIsIdentity(s: OpState, routePick: nat)
    requires routePick == 1 || routePick == 2
    ensures Patch(s, None, None, None, routePick) == s
  {
  }

  /** The process-wide store. */
  class Store {
    var states: map<string, OpState>

    /** Module import: the seeded fleet. */
    constructor (tiers: seq<string>)
      requires |tiers| == FleetSize
      requires forall k :: 0 <= k < |tiers| ==> IsTier(tiers[k])
      ensures states == InitialStates(tiers)
    {
      states := InitialStates(tiers);
    }

    /** `update_bus_operational_status`: False and no change for an unknown
        (or missing) id; otherwise True, and only that bus's record is
        patched. `routePick` is the `random.choice([1, 2])` draw. */
    method Update(busId: Option<string>, isRunning: Option<bool>, message: Option<string>,
                  tier: Option<string>, routePick: nat) returns (ok: bool)
      requires routePick == 1 || routePick == 2
      modifies this
      ensures ok <==> busId.Some? && busId.value in old(states)
      ensures !ok ==> states == old(states)
      ensures ok ==> states == old(states)[busId.value := Patch(old(states)[busId.value], isRunning, message, tier, routePick)]
    {
      if busId.Some? && busId.value in states {
        var id := busId.value;
        var state := states[id];
        if isRunning.Some? { state := state.(isRunning := isRunning.value); }
        if message.Some? { state := state.(statusMessage := message.value); }
        if tier.Some? { state := state.(crowdedness := tier.value); }
        if state.routeId == "N/A" && isRunning == Some(true) {
          state := state.(routeId := RouteKey(routePick));
        }
        states := states[id := state];
        ok := true;
      } else {
        ok := false;
      }
    }
  }
}
