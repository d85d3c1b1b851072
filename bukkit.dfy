/**
 * The parts of the Bukkit item model that the skill codec touches, reduced to
 * what the codec can observe: namespaced keys, the persistent data container,
 * item metadata and item stacks.
 */
module Bukkit {
  import opened Wrappers

  /** `NamespacedKey(namespace, key)`, written `namespace:key`. */
  datatype NamespacedKey = NamespacedKey(namespace: string, key: string)

  /** A value held in a persistent data container, with its data type. */
  datatype DataValue =
    | StringData(text: string)       // stored as `PersistentDataType.STRING`
    | OtherData(dataType: string)    // any other data type, left opaque

  /**
   * The persistent data container of an `ItemMeta`. On servers that have
   * `NamespacedKey` but predate the container, every access to it fails with
   * `NoClassDefFoundError` or `NoSuchMethodError`: that host is `Unavailable`.
   * A host without `NamespacedKey` at all is not modelled.
   */
  datatype PersistentData =
    | Unavailable
    | Available(entries: map<NamespacedKey, DataValue>)

  /**
   * `ItemMeta`. `getItemMeta` hands out a copy, so metadata is a value:
   * display name, lore lines (each may be null) and the data container.
   */
  datatype ItemMeta = ItemMeta(
    displayName: Option<string>,
    lore: Option<seq<Option<string>>>,
    container: PersistentData)

  /**
   * `container.has(key, STRING)`, with the capability error of a host without
   * containers caught and read as "absent": false on such a host, for a
   * missing key and for a key that holds a value of another data type.
   */
  predicate HasString(container: PersistentData, key: NamespacedKey)
    ensures container.Unavailable? ==> !HasString(container, key)
    ensures container.Available? && key !in container.entries ==> !HasString(container, key)
    ensures container.Available? && key in container.entries && container.entries[key].OtherData? ==>
      !HasString(container, key)
    ensures HasString(container, key) ==> exists text :: container.entries[key] == StringData(text)
  {
    container.Available? && key in container.entries && container.entries[key].StringData?
  }

  /** `container.get(key, STRING)`, for a key that `HasString` holds of. */
  function GetString(container: PersistentData, key: NamespacedKey): (r: string)
    requires HasString(container, key)
    ensures container.entries[key] == StringData(r)
  {
    container.entries[key].text
  }

  /**
   * `container.set(key, STRING, value)` on an available container: `key` now
   * holds `value`, whatever it held before, and every other key is as it was.
   */
  function SetString(entries: map<NamespacedKey, DataValue>, key: NamespacedKey, value: string)
    : (r: map<NamespacedKey, DataValue>)
    ensures HasString(Available(r), key) && GetString(Available(r), key) == value
    ensures r.Keys == entries.Keys + {key}
    ensures forall k :: k in entries && k != key ==> r[k] == entries[k]
  {
    entries[key := StringData(value)]
  }

  /** The server's `Plugin` handle; the codec only compares it with null. */
  class Plugin {
    constructor ()
    {
    }
  }

  /** `ItemStack`: a material, an amount and (for most materials) metadata. */
  class ItemStack {
    var material: string
    var amount: int
    var meta: Option<ItemMeta>

    constructor (material: string, amount: int, meta: Option<ItemMeta>)
      ensures this.material == material && this.amount == amount && this.meta == meta
    {
      this.material := material;
      this.amount := amount;
      this.meta := meta;
    }

    /** `clone()`: a new stack equal to this one. */
    method Clone() returns (c: ItemStack)
      ensures fresh(c)
      ensures c.material == material && c.amount == amount && c.meta == meta
    {
      c := new ItemStack(material, amount, meta);
    }

    /** `setItemMeta(m)`: replaces the metadata and nothing else. */
    method SetItemMeta(m: Option<ItemMeta>)
      modifies this
      ensures meta == m
      ensures material == old(material) && amount == old(amount)
    {
      meta := m;
    }
  }
}
