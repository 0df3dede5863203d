/** The default rule set's equip rules: finding a slot an item can go into
    (`canEquip`) and putting an item into a named slot (`onEquip`). An
    entity's slots are a table from slot name to the items it holds; an
    item template lists the slots it may occupy, in order of preference. */
module ActionManager {
  import opened Wrappers

  datatype Item = Item(name: string, possibleSlots: seq<string>)

  /** The part of an RPEntity the rules touch: its named slots. */
  class RPEntity {
    var slots: map<string, seq<Item>>

    constructor (slots: map<string, seq<Item>>)
      ensures this.slots == slots
    {
      this.slots := slots;
    }

    predicate HasSlot(name: string)
      reads this
    {
      name in slots
    }
  }

  /** A slot the entity has and that holds nothing. */
  predicate Free(slots: map<string, seq<Item>>, name: string) {
    name in slots && |slots[name]| == 0
  }

  /** The loop of `canEquip`: the first name in `candidates` that is a free
      slot, or `None` when there is none. */
  function FirstFreeSlot(candidates: seq<string>, slots: map<string, seq<Item>>): (r: Option<string>)
    ensures r.None? <==> forall i :: 0 <= i < |candidates| ==> !Free(slots, candidates[i])
    ensures r.Some? ==> exists i :: 0 <= i < |candidates| && candidates[i] == r.value && Free(slots, r.value)
                                    && forall j :: 0 <= j < i ==> !Free(slots, candidates[j])
  {
    if candidates == [] then None
    else if Free(slots, candidates[0]) then Some(candidates[0])
    else
      var r := FirstFreeSlot(candidates[1..], slots);
      if r.Some? then
        var i :| 0 <= i < |candidates[1..]| && candidates[1..][i] == r.value && Free(slots, r.value)
                 && forall j :: 0 <= j < i ==> !Free(slots, candidates[1..][j]);
        assert candidates[i + 1] == r.value;
        assert forall j :: 0 <= j < i + 1 ==> !Free(slots, candidates[j]) by {
          forall j | 0 <= j < i + 1 ensures !Free(slots, candidates[j]) {
            if j > 0 { assert candidates[j] == candidates[1..][j - 1]; }
          }
        }
        r
      else
        assert forall i :: 0 <= i < |candidates| ==> !Free(slots, candidates[i]) by {
          forall i | 0 <= i < |candidates| ensures !Free(slots, candidates[i]) {
            if i > 0 { assert candidates[i] == candidates[1..][i - 1]; }
          }
        }
        r
  }

  /** `canEquip`: the first of the item's possible slots, in the item's order,
      that the entity has and that is empty; `None` (Java's null) when no
      possible slot is both present and empty. It only reads the entity. */
  function CanEquip(entity: RPEntity, item: Item): (r: Option<string>)
    reads entity
    ensures r.Some? ==> r.value in item.possibleSlots && entity.HasSlot(r.value)
                        && |entity.slots[r.value]| == 0
    ensures r.Some? ==> exists i :: 0 <= i < |item.possibleSlots| && item.possibleSlots[i] == r.value
                                    && forall j :: 0 <= j < i ==> !Free(entity.slots, item.possibleSlots[j])
    ensures r.None? <==> forall s :: s in item.possibleSlots ==> !Free(entity.slots, s)
  {
    var r := FirstFreeSlot(item.possibleSlots, entity.slots);
    assert r.None? <==> forall s :: s in item.possibleSlots ==> !Free(entity.slots, s) by {
      if r.None? {
        forall s | s in item.possibleSlots ensures !Free(entity.slots, s) {
          var i :| 0 <= i < |item.possibleSlots| && item.possibleSlots[i] == s;
        }
      }
    }
    r
  }

  /** The slot table after `onEquip`: `None` when the entity lacks the slot,
      otherwise the same table with the item appended to that slot. */
  function Equipped(slots: map<string, seq<Item>>, slotName: string, item: Item): Option<map<string, seq<Item>>> {
    if slotName in slots then Some(slots[slotName := slots[slotName] + [item]]) else None
  }

  /** `onEquip`: fails, changing nothing, when the entity has no slot of that
      name; otherwise adds the item to that slot and reports success. The
      item's possible slots are not consulted. */
  method OnEquip(entity: RPEntity, slotName: string, item: Item) returns (ok: bool)
    modifies entity
    ensures ok <==> slotName in old(entity.slots)
    ensures ok ==> Some(entity.slots) == Equipped(old(entity.slots), slotName, item)
    ensures !ok ==> entity.slots == old(entity.slots)
  {
    if !entity.HasSlot(slotName) {
      return false;
    }
    entity.slots := entity.slots[slotName := entity.slots[slotName] + [item]];
    return true;
  }

  /** What a successful equip changes: the named slot gains exactly the item
      at its end; every other slot, and the set of slot names, stay as they
      were. A missing slot gives no new table at all. */
  lemma EquippedChangesOneSlot(slots: map<string, seq<Item>>, slotName: string, item: Item)
    ensures Equipped(slots, slotName, item).None? <==> slotName !in slots
    ensures Equipped(slots, slotName, item).Some? ==>
              var after := Equipped(slots, slotName, item).value;
              && after.Keys == slots.Keys
              && after[slotName] == slots[slotName] + [item]
              && |after[slotName]| == |slots[slotName]| + 1
              && forall s :: s in slots && s != slotName ==> after[s] == slots[s]
  {
  }

  /** `onEquip` ignores the item's possible slots: an item is accepted in any
      slot the entity has, whether or not the item lists it. */
  lemma EquipIgnoresPossibleSlots(slots: map<string, seq<Item>>, slotName: string, item: Item)
    requires slotName in slots && slotName !in item.possibleSlots
    ensures Equipped(slots, slotName, item).Some?
    ensures slotName in Equipped(slots, slotName, item).value
            && item in Equipped(slots, slotName, item).value[slotName]
  {
  }

  /** After the slot `canEquip` chose has been filled, `canEquip` for the same
      slot list no longer offers it: it moves on to a later free slot or
      finds none. */
  lemma {:induction false} FilledSlotNotOfferedAgain(candidates: seq<string>, slots: map<string, seq<Item>>, item: Item)
    requires FirstFreeSlot(candidates, slots).Some?
    ensures var s := FirstFreeSlot(candidates, slots).value;
            FirstFreeSlot(candidates, Equipped(slots, s, item).value) != Some(s)
  {
    var s := FirstFreeSlot(candidates, slots).value;
    var after := Equipped(slots, s, item).value;
    assert !Free(after, s);
  }
}
