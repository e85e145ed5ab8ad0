/**
 * The player's inventory of src/systems/inventoryManager.js and the
 * collectibles of src/components/collectibles/collectible.js.
 *
 * The inventory is a dictionary from resource type to amount with a capacity
 * on the total amount.  A JavaScript object enumerates its string keys in
 * insertion order, except that keys which look like array indices come first,
 * in ascending numeric order.  The model treats every resource type as an
 * ordinary name: the dictionary is a map plus the sequence of its keys in the
 * order they were first stored.  Amounts are integers.
 */
module Inventory {

  /** `new Collectible(type, amount)`; `getType` and `getAmount` are its fields. */
  datatype Collectible = Collectible(kind: string, amount: int)

  const DefaultCapacity: int := 1000

  predicate Distinct(keys: seq<string>) {
    forall i, j :: 0 <= i < j < |keys| ==> keys[i] != keys[j]
  }

  /**
   * `Object.values(counts).reduce((acc, val) => acc + val, 0)`, the values
   * taken in key order.  With every count non-negative, so is the total.
   */
  function Sum(keys: seq<string>, counts: map<string, int>): (total: int)
    requires forall k :: k in keys ==> k in counts
    ensures (forall k :: k in keys ==> counts[k] >= 0) ==> total >= 0
  {
    if keys == [] then 0 else Sum(keys[..|keys| - 1], counts) + counts[keys[|keys| - 1]]
  }

  /** Storing a new key adds its value to the total. */
  lemma SumAppend(keys: seq<string>, counts: map<string, int>, k: string)
    requires forall key :: key in keys ==> key in counts
    requires k in counts
    ensures Sum(keys + [k], counts) == Sum(keys, counts) + counts[k]
  {
    assert (keys + [k])[..|keys|] == keys;
  }

  /** Changing the count of a key that is not enumerated leaves the total alone. */
  lemma {:induction false} SumOutside(keys: seq<string>, counts: map<string, int>, k: string, v: int)
    requires forall key :: key in keys ==> key in counts
    requires k !in keys
    ensures Sum(keys, counts[k := v]) == Sum(keys, counts)
  {
    if keys != [] {
      SumOutside(keys[..|keys| - 1], counts, k, v);
    }
  }

  /** Changing the count of one enumerated key changes the total by the difference. */
  lemma {:induction false} SumUpdate(keys: seq<string>, counts: map<string, int>, k: string, v: int)
    requires forall key :: key in keys ==> key in counts
    requires Distinct(keys) && k in keys
    ensures Sum(keys, counts[k := v]) == Sum(keys, counts) - counts[k] + v
  {
    var init, last := keys[..|keys| - 1], keys[|keys| - 1];
    if last == k {
      assert k !in init;
      SumOutside(init, counts, k, v);
    } else {
      SumUpdate(init, counts, k, v);
    }
  }

  class InventoryManager {
    const capacity: int
    /** The keys of `resources`, in the order they were first stored. */
    var order: seq<string>
    var resources: map<string, int>

    ghost predicate Valid()
      reads this
    {
      Distinct(order) && forall k :: k in order <==> k in resources
    }

    /** An empty inventory; the source's default capacity is `DefaultCapacity`. */
    constructor(capacity: int)
      ensures Valid() && this.capacity == capacity
      ensures resources == map[] && GetTotalResources() == 0
    {
      this.capacity := capacity;
      order := [];
      resources := map[];
    }

    /** The amount stored for `kind`, 0 when there is no entry. */
    function Count(kind: string): (c: int)
      reads this
      ensures kind in resources ==> c == resources[kind]
      ensures c != 0 ==> kind in resources
    {
      if kind in resources then resources[kind] else 0
    }

    /**
     * `getTotalResources`: the sum of the stored amounts; 0 for an empty
     * inventory, and never negative while no amount is.
     */
    function GetTotalResources(): (total: int)
      reads this
      requires Valid()
      ensures resources == map[] ==> total == 0
      ensures (forall k :: k in resources ==> resources[k] >= 0) ==> total >= 0
    {
      Sum(order, resources)
    }

    /** `resources[kind] = value`: a new key goes to the end of the enumeration order. */
    method Store(kind: string, value: int)
      requires Valid()
      modifies this
      ensures Valid()
      ensures order == if kind in old(resources) then old(order) else old(order) + [kind]
      ensures resources == old(resources)[kind := value]
      ensures GetTotalResources() == old(GetTotalResources()) - old(Count(kind)) + value
    {
      if kind in resources {
        SumUpdate(order, resources, kind, value);
      } else {
        SumOutside(order, resources, kind, value);
        SumAppend(order, resources[kind := value], kind);
        order := order + [kind];
      }
      resources := resources[kind := value];
    }

    /** The falsy test of `addResource`: a type without an entry, or with a zero one, is set to 0. */
    method Touch(kind: string)
      requires Valid()
      modifies this
      ensures Valid()
      ensures order == if kind in old(resources) then old(order) else old(order) + [kind]
      ensures resources == old(resources)[kind := old(Count(kind))]
      ensures GetTotalResources() == old(GetTotalResources())
    {
      if kind !in resources || resources[kind] == 0 {
        Store(kind, 0);
      }
    }

    /**
     * `addResource`: a type without a (non-zero) entry first gets a 0 entry,
     * kept even when the collectible does not fit; the amount is added when
     * the total stays within the capacity.
     */
    method AddResource(collectible: Collectible) returns (added: bool)
      requires Valid()
      modifies this
      ensures Valid()
      ensures order == if collectible.kind in old(resources) then old(order) else old(order) + [collectible.kind]
      ensures added <==> old(GetTotalResources()) + collectible.amount <= capacity
      ensures forall t :: t in resources <==> t in old(resources) || t == collectible.kind
      ensures resources[collectible.kind] == old(Count(collectible.kind)) + (if added then collectible.amount else 0)
      ensures forall t :: t in old(resources) && t != collectible.kind ==> resources[t] == old(resources)[t]
      ensures GetTotalResources() == old(GetTotalResources()) + (if added then collectible.amount else 0)
      ensures old(GetTotalResources()) <= capacity ==> GetTotalResources() <= capacity
    {
      Touch(collectible.kind);

      var totalAmount := GetTotalResources() + collectible.amount;
      if totalAmount > capacity {
        return false;
      }

      Store(collectible.kind, resources[collectible.kind] + collectible.amount);
      added := true;
    }

    /**
     * `removeResource`: refused when the type has no entry or a zero entry,
     * refused when fewer than `amount` are stored, otherwise subtracted.
     */
    method RemoveResource(kind: string, amount: int) returns (removed: bool)
      requires Valid()
      modifies this
      ensures Valid() && order == old(order)
      ensures removed <==> kind in old(resources) && old(resources)[kind] != 0 && old(resources)[kind] >= amount
      ensures removed ==> resources == old(resources)[kind := old(resources)[kind] - amount]
      ensures !removed ==> resources == old(resources)
      ensures GetTotalResources() == old(GetTotalResources()) - (if removed then amount else 0)
      ensures amount >= 0 ==> GetTotalResources() <= old(GetTotalResources())
    {
      if kind !in resources || resources[kind] == 0 {
        return false;
      }

      if resources[kind] < amount {
        return false;
      }

      Store(kind, resources[kind] - amount);
      removed := true;
    }
  }
}
