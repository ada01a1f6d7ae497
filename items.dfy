/**
 * Item identities and the item-id sets read from the client's containers.
 * Items are named rather than numbered: the numeric ids belong to the
 * client's item table.
 */
module Items {
  import opened Wrappers

  /** The four cosmetic/charge variants every void garment comes in (no suffix, _L, _OR, _LOR). */
  datatype Variant = Plain | Locked | Ornament | LockedOrnament

  /** The pieces of the void knight set the plugin looks for. */
  datatype Garment = Gloves | Top | Robe | EliteTop | EliteRobe | MeleeHelm | RangerHelm | MageHelm

  datatype Item =
    | Void(garment: Garment, variant: Variant)
    | CelestialRing
    | CelestialRingUncharged
    | CelestialSignet
    | CelestialSignetUncharged
    | CrystalSaw
    | OtherItem(id: int)  // any item the plugin does not name

  /**
   * The items a container holds, as a set; a missing container (`null`)
   * holds nothing.
   */
  function Held(container: Option<seq<Item>>): (ids: set<Item>)
    ensures forall x :: x in ids <==> container.Some? && x in container.value
  {
    if container.None? then {} else set x | x in container.value
  }

  /** The plugin's computation of a container's item ids: add each slot's item to a set. */
  method ItemIds(container: Option<seq<Item>>) returns (ids: set<Item>)
    ensures ids == Held(container)
  {
    ids := {};
    if container.Some? {
      var items := container.value;
      for i := 0 to |items|
        invariant forall x :: x in ids <==> x in items[..i]
      {
        assert items[..i + 1] == items[..i] + [items[i]];
        ids := ids + {items[i]};
      }
      assert items[..|items|] == items;
    }
  }
}
