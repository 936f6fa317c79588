/**
 * WorkManager: a colony's registry of work orders, keyed by id, with the
 * counter that hands out fresh ids. Orders are values here; what the source
 * changes in place on an order object (its id, its claim) is changed on the
 * copy stored in the map.
 *
 * The subclass behaviour the registry calls into (`isValid`,
 * `attemptToFulfill`, `createFromNBT`) is outside this model and arrives as
 * parameters.
 */
module WorkOrders {
  import opened Optional

  type CitizenId = int

  /** The concrete class of a work order; the typed queries filter on it. */
  type OrderKind = string

  /** The classes a `Class<W>` argument accepts (those assignable to W). */
  type KindFilter = set<OrderKind>

  datatype WorkOrder = WorkOrder(id: int, kind: OrderKind, claimedBy: Option<CitizenId>) {
    predicate IsClaimed() { claimedBy.Some? }
    predicate IsClaimedBy(citizen: CitizenId) { claimedBy == Some(citizen) }
    function ClearClaimedBy(): WorkOrder { this.(claimedBy := None) }
  }

  datatype Phase = START | END

  /** Fulfilment is attempted once a second, every 20 ticks. */
  const WORK_ORDER_FULFILL_INCREMENT: int := 20

  /** Every order is stored under its own id. */
  ghost predicate Keyed(orders: map<int, WorkOrder>)
  {
    forall k :: k in orders ==> orders[k].id == k
  }

  /** The registry's two fields, as a value. */
  datatype Registry = Registry(orders: map<int, WorkOrder>, top: int)

  /** No stored id is above the counter, so the next fresh id is unused. */
  ghost predicate BelowTop(r: Registry)
  {
    forall k :: k in r.orders ==> k <= r.top
  }

  /** The order as addWorkOrder stores it: id 0 means "give me the next id". */
  function AssignId(r: Registry, o: WorkOrder): (a: WorkOrder)
    ensures a.kind == o.kind && a.claimedBy == o.claimedBy
    ensures o.id != 0 ==> a == o
    ensures o.id == 0 ==> a.id == r.top + 1
  {
    if o.id == 0 then o.(id := r.top + 1) else o
  }

  /** addWorkOrder. */
  function Add(r: Registry, o: WorkOrder): (r': Registry)
    ensures r'.top >= r.top
    ensures o.id == 0 ==> r'.top == r.top + 1 && r'.top in r'.orders && r'.orders[r'.top] == o.(id := r'.top)
    ensures o.id != 0 ==> r'.top == r.top && o.id in r'.orders && r'.orders[o.id] == o
    ensures r'.orders.Keys == r.orders.Keys + {AssignId(r, o).id}
    ensures forall k :: k in r.orders && k != AssignId(r, o).id ==> r'.orders[k] == r.orders[k]
    ensures Keyed(r.orders) ==> Keyed(r'.orders)
  {
    var a := AssignId(r, o);
    Registry(r.orders[a.id := a], if o.id == 0 then r.top + 1 else r.top)
  }

  /** removeWorkOrder. */
  function Remove(r: Registry, id: int): (r': Registry)
    ensures id !in r'.orders && r'.top == r.top
    ensures r'.orders.Keys == r.orders.Keys - {id}
    ensures forall k :: k in r'.orders ==> r'.orders[k] == r.orders[k]
  {
    Registry(r.orders - {id}, r.top)
  }

  /** Adding a run of orders one after another, with the id each one was stored under. */
  function AddAll(r: Registry, os: seq<WorkOrder>): (res: (Registry, seq<int>))
    ensures |res.1| == |os|
    decreases |os|
  {
    if |os| == 0 then (r, [])
    else
      var rest := AddAll(Add(r, os[0]), os[1..]);
      (rest.0, [AssignId(r, os[0]).id] + rest.1)
  }

  /** A run of id-0 adds receives top+1, top+2, ... and advances the counter by its length. */
  lemma {:induction false} FreshRunIds(r: Registry, os: seq<WorkOrder>)
    requires forall i :: 0 <= i < |os| ==> os[i].id == 0
    ensures forall i :: 0 <= i < |os| ==> AddAll(r, os).1[i] == r.top + 1 + i
    ensures AddAll(r, os).0.top == r.top + |os|
    decreases |os|
  {
    if |os| > 0 {
      var r1 := Add(r, os[0]);
      FreshRunIds(r1, os[1..]);
      var ids := AddAll(r, os).1;
      forall i | 0 <= i < |os| ensures ids[i] == r.top + 1 + i {
        if i > 0 {
          assert ids[i] == AddAll(r1, os[1..]).1[i - 1];
        }
      }
    }
  }

  /** Hence the ids of such a run are distinct and strictly increasing. */
  lemma FreshRunIdsIncrease(r: Registry, os: seq<WorkOrder>)
    requires forall i :: 0 <= i < |os| ==> os[i].id == 0
    ensures forall i, j :: 0 <= i < j < |os| ==> AddAll(r, os).1[i] < AddAll(r, os).1[j]
  {
    FreshRunIds(r, os);
  }

  /** The counter never goes down, whatever is added. */
  lemma {:induction false} AddAllNeverLowersTop(r: Registry, os: seq<WorkOrder>)
    ensures AddAll(r, os).0.top >= r.top
    decreases |os|
  {
    if |os| > 0 {
      AddAllNeverLowersTop(Add(r, os[0]), os[1..]);
    }
  }

  /**
   * While no stored id is above the counter, a fresh id is above every stored
   * id, so an id-0 add never replaces an order, even after removals; and the
   * property is kept by such adds, by removals and by adds of ids up to the
   * counter.
   */
  lemma FreshIdIsUnused(r: Registry, o: WorkOrder, removed: int)
    requires BelowTop(r)
    ensures o.id == 0 ==> forall k :: k in r.orders ==> k < AssignId(r, o).id
    ensures o.id == 0 ==> AssignId(r, o).id !in Remove(r, removed).orders
    ensures o.id <= r.top ==> BelowTop(Add(r, o))
    ensures BelowTop(Remove(r, removed))
  {
  }

  /**
   * The counter is not raised by an add with a preset id: after storing a
   * preset id 1 in an empty registry, the next id-0 add is given id 1 too and
   * replaces that order.
   */
  lemma PresetIdAboveTopIsReused(a: WorkOrder, b: WorkOrder)
    requires a.id == 1 && b.id == 0 && a.kind != b.kind
    ensures var r1 := Add(Registry(map[], 0), a);
      && r1.top == 0
      && AssignId(r1, b).id == a.id
      && Add(r1, b).orders[1] != a
  {
  }

  /** clearWorkForCitizen on the stored orders. */
  function ClearClaims(orders: map<int, WorkOrder>, citizen: CitizenId): (cleared: map<int, WorkOrder>)
    ensures cleared.Keys == orders.Keys
    ensures forall k :: k in cleared ==> !cleared[k].IsClaimedBy(citizen)
    ensures forall k :: k in orders && !orders[k].IsClaimedBy(citizen) ==> cleared[k] == orders[k]
    ensures forall k :: k in orders && orders[k].IsClaimedBy(citizen) ==> cleared[k] == orders[k].ClearClaimedBy()
    ensures Keyed(orders) ==> Keyed(cleared)
  {
    map k | k in orders :: if orders[k].IsClaimedBy(citizen) then orders[k].ClearClaimedBy() else orders[k]
  }

  /** A claim may only name a citizen the colony can resolve. */
  predicate ClaimResolvable(o: WorkOrder, citizens: set<CitizenId>)
  {
    o.IsClaimed() ==> o.claimedBy.value in citizens
  }

  /** The failsafe of readFromNBT: a claim by an unknown citizen is dropped. */
  function RepairClaim(o: WorkOrder, citizens: set<CitizenId>): (fixed: WorkOrder)
    ensures ClaimResolvable(fixed, citizens)
    ensures fixed.id == o.id && fixed.kind == o.kind
    ensures ClaimResolvable(o, citizens) ==> fixed == o
  {
    if o.IsClaimed() && o.claimedBy.value !in citizens then o.ClearClaimedBy() else o
  }

  /** One iteration of the readFromNBT loop. */
  function LoadOne(r: Registry, loaded: Option<WorkOrder>, citizens: set<CitizenId>): Registry
  {
    if loaded.None? then r
    else
      var a := AssignId(r, loaded.value);
      var r1 := Add(r, loaded.value);
      Registry(r1.orders[a.id := RepairClaim(a, citizens)], if r1.top >= a.id then r1.top else a.id)
  }

  /** readFromNBT: every order the list yields, in order. */
  function LoadAll(r: Registry, list: seq<Option<WorkOrder>>, citizens: set<CitizenId>): Registry
    decreases |list|
  {
    if |list| == 0 then r else LoadAll(LoadOne(r, list[0], citizens), list[1..], citizens)
  }

  /**
   * After loading, every order is either one that was there before and was
   * not touched, or a loaded one whose id is at most the counter and whose
   * claim, if any, names a known citizen. Nothing is dropped, the counter
   * does not decrease, and every preset id in the list is present.
   */
  lemma {:induction false} LoadAllRepairs(r: Registry, list: seq<Option<WorkOrder>>, citizens: set<CitizenId>)
    ensures var r' := LoadAll(r, list, citizens);
      && r.orders.Keys <= r'.orders.Keys
      && r'.top >= r.top
      && (forall k :: k in r'.orders ==>
            (k in r.orders && r'.orders[k] == r.orders[k])
            || (k <= r'.top && ClaimResolvable(r'.orders[k], citizens)))
      && (forall i :: 0 <= i < |list| && list[i].Some? && list[i].value.id != 0 ==> list[i].value.id in r'.orders)
      && (Keyed(r.orders) ==> Keyed(r'.orders))
    decreases |list|
  {
    if |list| > 0 {
      var r1 := LoadOne(r, list[0], citizens);
      LoadAllRepairs(r1, list[1..], citizens);
      var r' := LoadAll(r, list, citizens);
      assert r' == LoadAll(r1, list[1..], citizens);
      forall i | 0 <= i < |list| && list[i].Some? && list[i].value.id != 0
        ensures list[i].value.id in r'.orders
      {
        if i > 0 {
          assert list[1..][i - 1] == list[i];
        }
      }
    }
  }

  class WorkManager {
    var workOrders: map<int, WorkOrder>
    var topWorkOrderId: int

    ghost predicate Valid()
      reads this
    {
      Keyed(workOrders) && topWorkOrderId >= 0 && 0 !in workOrders
    }

    function State(): Registry
      reads this
    {
      Registry(workOrders, topWorkOrderId)
    }

    constructor ()
      ensures Valid() && workOrders == map[] && topWorkOrderId == 0
    {
      workOrders := map[];
      topWorkOrderId := 0;
    }

    /** addWorkOrder; the order comes back with the id it was stored under. */
    method AddWorkOrder(order: WorkOrder) returns (added: WorkOrder)
      requires Valid()
      modifies this
      ensures Valid()
      ensures State() == Add(old(State()), order)
      ensures added == AssignId(old(State()), order)
    {
      added := order;
      if order.id == 0 {
        topWorkOrderId := topWorkOrderId + 1;
        added := order.(id := topWorkOrderId);
      }
      workOrders := workOrders[added.id := added];
    }

    /** removeWorkOrder(int). */
    method RemoveWorkOrder(orderId: int)
      requires Valid()
      modifies this
      ensures Valid()
      ensures State() == Remove(old(State()), orderId)
    {
      workOrders := workOrders - {orderId};
    }

    /** removeWorkOrder(AbstractWorkOrder): removes by the order's id. */
    method RemoveOrder(order: WorkOrder)
      requires Valid()
      modifies this
      ensures Valid()
      ensures State() == Remove(old(State()), order.id)
    {
      RemoveWorkOrder(order.id);
    }

    /** getWorkOrder(int): the order stored under the id, or null. */
    function GetWorkOrder(id: int): (found: Option<WorkOrder>)
      reads this
      ensures found.Some? <==> id in workOrders
      ensures found.Some? ==> found.value == workOrders[id]
      ensures Keyed(workOrders) && found.Some? ==> found.value.id == id
    {
      if id in workOrders then Some(workOrders[id]) else None
    }

    /** getWorkOrder(int, Class): null when absent or when the cast fails. */
    function GetWorkOrderOfType(id: int, types: KindFilter): (found: Option<WorkOrder>)
      reads this
      ensures found.Some? <==> id in workOrders && workOrders[id].kind in types
      ensures found.Some? ==> found.value == workOrders[id]
    {
      if id in workOrders && workOrders[id].kind in types then Some(workOrders[id]) else None
    }

    /** getWorkOrdersOfType: every stored order of an accepted class. */
    function GetWorkOrdersOfType(types: KindFilter): (matching: set<WorkOrder>)
      reads this
      ensures forall k :: k in workOrders && workOrders[k].kind in types ==> workOrders[k] in matching
      ensures forall o :: o in matching ==> o.kind in types && exists k :: k in workOrders && workOrders[k] == o
    {
      set k | k in workOrders && workOrders[k].kind in types :: workOrders[k]
    }

    /**
     * getUnassignedWorkOrder: some unclaimed order of an accepted class, and
     * null only when there is none. Which one is found depends on the hash
     * map's iteration order, so only membership is promised.
     */
    method GetUnassignedWorkOrder(types: KindFilter) returns (found: Option<WorkOrder>)
      ensures found.Some? ==> found.value in workOrders.Values && !found.value.IsClaimed() && found.value.kind in types
      ensures found.None? ==> forall k :: k in workOrders ==> workOrders[k].IsClaimed() || workOrders[k].kind !in types
    {
      var keys := workOrders.Keys;
      while exists j :: j in keys
        invariant keys <= workOrders.Keys
        invariant forall k :: k in workOrders && k !in keys ==> workOrders[k].IsClaimed() || workOrders[k].kind !in types
        decreases keys
      {
        var k :| k in keys;
        var o := workOrders[k];
        if !o.IsClaimed() && o.kind in types {
          return Some(o);
        }
        keys := keys - {k};
      }
      return None;
    }

    /** clearWorkForCitizen: drops every claim the citizen holds. */
    method ClearWorkForCitizen(citizen: CitizenId)
      requires Valid()
      modifies this
      ensures Valid()
      ensures workOrders == ClearClaims(old(workOrders), citizen)
      ensures topWorkOrderId == old(topWorkOrderId)
    {
      ghost var before := workOrders;
      var keys := workOrders.Keys;
      while exists j :: j in keys
        invariant keys <= workOrders.Keys && workOrders.Keys == before.Keys
        invariant topWorkOrderId == old(topWorkOrderId)
        invariant forall k :: k in keys ==> workOrders[k] == before[k]
        invariant forall k :: k in workOrders && k !in keys ==> workOrders[k] == ClearClaims(before, citizen)[k]
        invariant Valid()
        decreases keys
      {
        var k :| k in keys;
        if workOrders[k].IsClaimedBy(citizen) {
          workOrders := workOrders[k := workOrders[k].ClearClaimedBy()];
        }
        keys := keys - {k};
      }
      ghost var cleared := ClearClaims(before, citizen);
      assert workOrders.Keys == cleared.Keys;
      assert forall k :: k in workOrders ==> workOrders[k] == cleared[k];
    }

    /**
     * readFromNBT: adds each order the list yields (null entries are the
     * orders createFromNBT could not build), repairs claims by citizens the
     * colony cannot resolve, and raises the counter to every loaded id.
     * `citizens` is the set of ids `colony.getCitizen` resolves.
     */
    method ReadFromNBT(list: seq<Option<WorkOrder>>, citizens: set<CitizenId>)
      requires Valid()
      modifies this
      ensures Valid()
      ensures State() == LoadAll(old(State()), list, citizens)
    {
      var i := 0;
      while i < |list|
        invariant 0 <= i <= |list|
        invariant Valid()
        invariant LoadAll(old(State()), list, citizens) == LoadAll(State(), list[i..], citizens)
      {
        assert list[i..][1..] == list[i + 1..];
        ghost var r := State();
        if list[i].Some? {
          var o := AddWorkOrder(list[i].value);
          if o.IsClaimed() && o.claimedBy.value !in citizens {
            workOrders := workOrders[o.id := o.ClearClaimedBy()];
          }
          topWorkOrderId := if topWorkOrderId >= o.id then topWorkOrderId else o.id;
        }
        assert State() == LoadOne(r, list[i], citizens);
        i := i + 1;
      }
    }

    /**
     * onWorldTick: at the END phase, drops every invalid order, then, on a
     * tick that is a multiple of 20, lets each unclaimed order try to be
     * fulfilled. `isValid` stands for `isValid(colony)`; `claimant` is the
     * claim `attemptToFulfill(colony)` leaves on an unclaimed order.
     */
    method OnWorldTick(phase: Phase, worldTime: int, isValid: WorkOrder -> bool, claimant: WorkOrder -> Option<CitizenId>)
      requires Valid()
      modifies this
      ensures Valid()
      ensures topWorkOrderId == old(topWorkOrderId)
      ensures phase != END ==> workOrders == old(workOrders)
      ensures phase == END ==> workOrders.Keys == set k | k in old(workOrders) && isValid(old(workOrders)[k])
      ensures phase == END ==> forall k :: k in workOrders ==>
        workOrders[k] == if worldTime % WORK_ORDER_FULFILL_INCREMENT == 0 && !old(workOrders)[k].IsClaimed()
                         then old(workOrders)[k].(claimedBy := claimant(old(workOrders)[k]))
                         else old(workOrders)[k]
    {
      if phase != END {
        return;
      }
      ghost var before := workOrders;
      var keys := workOrders.Keys;
      while exists j :: j in keys
        invariant keys <= before.Keys
        invariant topWorkOrderId == old(topWorkOrderId)
        invariant forall k :: k in workOrders <==> k in before && (k in keys || isValid(before[k]))
        invariant forall k :: k in workOrders ==> workOrders[k] == before[k]
        invariant Valid()
        decreases keys
      {
        var k :| k in keys;
        if !isValid(workOrders[k]) {
          workOrders := workOrders - {k};
        }
        keys := keys - {k};
      }
      ghost var kept := set k | k in before && isValid(before[k]);
      assert forall k :: k in workOrders.Keys <==> k in kept;
      assert workOrders.Keys == kept;
      if worldTime % WORK_ORDER_FULFILL_INCREMENT == 0 {
        ghost var swept := workOrders;
        keys := workOrders.Keys;
        while exists j :: j in keys
          invariant keys <= workOrders.Keys && workOrders.Keys == swept.Keys
          invariant topWorkOrderId == old(topWorkOrderId)
          invariant forall k :: k in keys ==> workOrders[k] == swept[k]
          invariant forall k :: k in workOrders && k !in keys ==>
            workOrders[k] == if !swept[k].IsClaimed() then swept[k].(claimedBy := claimant(swept[k])) else swept[k]
          invariant Valid()
          decreases keys
        {
          var k :| k in keys;
          var o := workOrders[k];
          if !o.IsClaimed() {
            workOrders := workOrders[k := o.(claimedBy := claimant(o))];
          }
          keys := keys - {k};
        }
      }
    }
  }
}
