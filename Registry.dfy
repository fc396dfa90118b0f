/**
 * The registry of secondary displays as a value: a map from display number to
 * its slot. Connect and disconnect act on one key; reconciling with a player
 * roster connects or disconnects every key in some enumeration order.
 */
module Registry {
  import opened Optional
  import opened DisplaySlot

  type Slots = map<int, Display>

  /** The keys created at startup: one per secondary display, `2..displayCount`. */
  function DisplayKeys(displayCount: int): (keys: set<int>)
    ensures forall n :: n in keys <==> 2 <= n <= displayCount
    decreases displayCount
  {
    if displayCount < 2 then {} else DisplayKeys(displayCount - 1) + {displayCount}
  }

  predicate WellFormedSlots(m: Slots) {
    forall n :: n in m ==> WellFormed(m[n], n)
  }

  /** Every engine object held by a slot has an id strictly between `lo` and `hi`. */
  predicate IdsWithin(m: Slots, lo: int, hi: int) {
    forall n :: n in m ==> SlotIdsWithin(m[n], lo, hi)
  }

  /** The displays whose UI and camera are currently active. */
  function ShownKeys(m: Slots): set<int> {
    set n | n in m && Shown(m[n])
  }

  /** `ConnectDisplayTo` on the registry: a no-op for a display number that is not a key. */
  function ConnectIn(m: Slots, displayNumber: int, inGameplay: bool, next: nat): (r: (Slots, nat))
    requires WellFormedSlots(m)
    ensures WellFormedSlots(r.0) && r.0.Keys == m.Keys && next <= r.1
    ensures displayNumber !in m ==> r == (m, next)
    ensures displayNumber in m ==> Shown(r.0[displayNumber])
    ensures forall n :: n in m && n != displayNumber ==> r.0[n] == m[n]
    ensures forall lo :: lo < next && IdsWithin(m, lo, next) ==> IdsWithin(r.0, lo, r.1)
  {
    if displayNumber !in m then (m, next)
    else
      var c := Connect(m[displayNumber], displayNumber, inGameplay, next);
      (m[displayNumber := c.slot], c.next)
  }

  /**
   * `DisconnectDisplayTo` on the registry: a no-op for a display number that
   * is not a key and for a key whose display object is still null.
   */
  function DisconnectIn(m: Slots, displayNumber: int): (r: Slots)
    requires WellFormedSlots(m)
    ensures WellFormedSlots(r) && r.Keys == m.Keys
    ensures displayNumber !in m || !Allocated(m[displayNumber]) ==> r == m
    ensures displayNumber in m && Allocated(m[displayNumber]) ==>
      Hidden(r[displayNumber]) && SameHandles(r[displayNumber], m[displayNumber])
    ensures forall n :: n in m && n != displayNumber ==> r[n] == m[n]
    ensures forall lo, hi :: IdsWithin(m, lo, hi) ==> IdsWithin(r, lo, hi)
  {
    if displayNumber !in m || m[displayNumber].displayObject.None? then m
    else m[displayNumber := Disconnect(m[displayNumber])]
  }

  /** One iteration of the reset loop: connect the display if some player is on it, else disconnect it. */
  function ReconcileStep(m: Slots, displayNumber: int, roster: seq<int>, inGameplay: bool, next: nat): (r: (Slots, nat))
    requires WellFormedSlots(m)
    ensures WellFormedSlots(r.0) && r.0.Keys == m.Keys && next <= r.1
    ensures displayNumber in m && displayNumber in roster ==> Shown(r.0[displayNumber])
    ensures displayNumber in m && displayNumber !in roster ==> !Shown(r.0[displayNumber])
    ensures forall n :: n in m && n != displayNumber ==> r.0[n] == m[n]
    ensures forall lo :: lo < next && IdsWithin(m, lo, next) ==> IdsWithin(r.0, lo, r.1)
  {
    if displayNumber in roster then ConnectIn(m, displayNumber, inGameplay, next)
    else (DisconnectIn(m, displayNumber), next)
  }

  /** The reset loop run over the display numbers of `order`, first to last. */
  function ReconcileAll(m: Slots, order: seq<int>, roster: seq<int>, inGameplay: bool, next: nat): (r: (Slots, nat))
    requires WellFormedSlots(m)
    ensures WellFormedSlots(r.0) && r.0.Keys == m.Keys && next <= r.1
    ensures forall lo :: lo < next && IdsWithin(m, lo, next) ==> IdsWithin(r.0, lo, r.1)
    decreases |order|
  {
    if order == [] then (m, next)
    else
      var (m', next') := ReconcileAll(m, order[..|order| - 1], roster, inGameplay, next);
      ReconcileStep(m', order[|order| - 1], roster, inGameplay, next')
  }

  /** No display number occurs twice. */
  predicate Distinct(order: seq<int>) {
    forall i, j :: 0 <= i < j < |order| ==> order[i] != order[j]
  }

  /**
   * What reconciling over a repetition-free order does to each key: keys not
   * visited are unchanged; a visited key with a player on it is shown, on the
   * objects it already had if it was allocated; a visited key with no player
   * is hidden on the same objects if allocated, and left untouched otherwise.
   */
  lemma {:induction false} ReconcileAllEffect(m: Slots, order: seq<int>, roster: seq<int>, inGameplay: bool, next: nat)
    requires WellFormedSlots(m) && Distinct(order)
    ensures var r := ReconcileAll(m, order, roster, inGameplay, next).0;
      && (forall n :: n in m && n !in order ==> r[n] == m[n])
      && (forall n :: n in m && n in order && n in roster ==>
            Shown(r[n]) && (Allocated(m[n]) ==> SameHandles(r[n], m[n])))
      && (forall n :: n in m && n in order && n !in roster ==>
            if Allocated(m[n]) then Hidden(r[n]) && SameHandles(r[n], m[n]) else r[n] == m[n])
    decreases |order|
  {
    if order != [] {
      var prefix, last := order[..|order| - 1], order[|order| - 1];
      assert Distinct(prefix);
      ReconcileAllEffect(m, prefix, roster, inGameplay, next);
      assert last !in prefix;
      assert forall n :: n in order <==> n in prefix || n == last;
    }
  }

  /** A registry already agreeing with the roster: nothing for a reset to do. */
  predicate Settled(m: Slots, roster: seq<int>) {
    forall n :: n in m ==> if n in roster then Shown(m[n]) else !Allocated(m[n]) || Hidden(m[n])
  }

  /** Reconciling a settled registry, in any order, changes nothing and allocates nothing. */
  lemma {:induction false} ReconcileSettledIsNoOp(m: Slots, order: seq<int>, roster: seq<int>, inGameplay: bool, next: nat)
    requires WellFormedSlots(m) && Settled(m, roster)
    ensures ReconcileAll(m, order, roster, inGameplay, next) == (m, next)
    decreases |order|
  {
    if order != [] {
      var last := order[|order| - 1];
      ReconcileSettledIsNoOp(m, order[..|order| - 1], roster, inGameplay, next);
      if last in m {
        if last in roster {
          ConnectShownIsNoOp(m[last], last, inGameplay, next);
          assert m[last := m[last]] == m;
        } else if Allocated(m[last]) {
          DisconnectHiddenIsNoOp(m[last]);
          assert m[last := m[last]] == m;
        }
      }
    }
  }

  /** After reconciling over an order that visits every key once, the registry is settled. */
  lemma ReconcileSettles(m: Slots, order: seq<int>, roster: seq<int>, inGameplay: bool, next: nat)
    requires WellFormedSlots(m) && Distinct(order) && forall n :: n in m ==> n in order
    ensures Settled(ReconcileAll(m, order, roster, inGameplay, next).0, roster)
  {
    ReconcileAllEffect(m, order, roster, inGameplay, next);
  }

  /**
   * The shown displays after a full reset are exactly the keys some player is
   * on: the result depends on the roster only, not on the prior state.
   */
  lemma ReconcileShowsExactlyRoster(m: Slots, order: seq<int>, roster: seq<int>, inGameplay: bool, next: nat)
    requires WellFormedSlots(m) && Distinct(order) && forall n :: n in m ==> n in order
    ensures ShownKeys(ReconcileAll(m, order, roster, inGameplay, next).0) == set n | n in m && n in roster
  {
    var r := ReconcileAll(m, order, roster, inGameplay, next).0;
    ReconcileAllEffect(m, order, roster, inGameplay, next);
    forall n | n in r
      ensures Shown(r[n]) <==> n in roster
    {
      assert n in m && n in order;
    }
  }

  /**
   * Two full resets with the same roster, from any two registries over the same
   * displays, in any two orders, show the same displays.
   */
  lemma ReconcileConverges(m1: Slots, order1: seq<int>, next1: nat, inGameplay1: bool,
                           m2: Slots, order2: seq<int>, next2: nat, inGameplay2: bool, roster: seq<int>)
    requires WellFormedSlots(m1) && Distinct(order1) && forall n :: n in m1 ==> n in order1
    requires WellFormedSlots(m2) && Distinct(order2) && forall n :: n in m2 ==> n in order2
    requires m1.Keys == m2.Keys
    ensures ShownKeys(ReconcileAll(m1, order1, roster, inGameplay1, next1).0)
         == ShownKeys(ReconcileAll(m2, order2, roster, inGameplay2, next2).0)
  {
    ReconcileShowsExactlyRoster(m1, order1, roster, inGameplay1, next1);
    ReconcileShowsExactlyRoster(m2, order2, roster, inGameplay2, next2);
  }

  /** A second full reset with the same roster, in any order, leaves the state of the first. */
  lemma ReconcileIdempotent(m: Slots, order: seq<int>, order': seq<int>, roster: seq<int>,
                            inGameplay: bool, inGameplay': bool, next: nat)
    requires WellFormedSlots(m) && Distinct(order) && forall n :: n in m ==> n in order
    ensures var (m1, next1) := ReconcileAll(m, order, roster, inGameplay, next);
      ReconcileAll(m1, order', roster, inGameplay', next1) == (m1, next1)
  {
    var (m1, next1) := ReconcileAll(m, order, roster, inGameplay, next);
    ReconcileSettles(m, order, roster, inGameplay, next);
    ReconcileSettledIsNoOp(m1, order', roster, inGameplay', next1);
  }
}
