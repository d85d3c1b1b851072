/**
 * The skill-id attribute codec of `MCEngineSkillApi`: `createItem` writes a
 * skill id into an item's persistent data container; `isSkillSet` and
 * `getItemSkillId` look for it there first and then in the legacy lore line
 * `\U{A7}7Skill: \U{A7}e<id>` (optionally followed by ` \U{A7}c[Legacy]`).
 */
module MCEngineSkillApi {
  import opened Wrappers
  import opened JavaText
  import opened Bukkit

  /** The key every operation uses; the namespace is fixed, not the plugin's. */
  const SKILL_ID_KEY: NamespacedKey := NamespacedKey("mcengine", "skill_id")

  /** Start of a legacy lore line that carries a skill id. */
  const LORE_PREFIX: string := "\U{A7}7Skill: \U{A7}e"

  /** Marker that may follow the id on a legacy lore line. */
  const LEGACY_SUFFIX: string := " \U{A7}c[Legacy]"

  const PLUGIN_NULL_MESSAGE: string := "Plugin cannot be null!"
  const ITEM_NULL_MESSAGE: string := "ItemStack cannot be null!"

  /** `IllegalArgumentException` with its message. */
  datatype ApiError = IllegalArgument(message: string)

  // ---------------------------------------------------------------------
  // Specification functions

  /**
   * A lore line that the legacy fallback accepts: a non-null line that is the
   * prefix followed by any text at all, the empty text included.
   */
  predicate IsSkillLine(line: Option<string>)
    ensures IsSkillLine(line) <==> line.Some? && exists rest :: line.value == LORE_PREFIX + rest
  {
    line.Some? && StartsWith(line.value, LORE_PREFIX)
  }

  /** Some lore line carries a skill id. */
  ghost predicate HasSkillLine(lore: seq<Option<string>>) {
    exists j :: 0 <= j < |lore| && IsSkillLine(lore[j])
  }

  /** The index of the first lore line that carries a skill id. */
  function FirstSkillLine(lore: seq<Option<string>>): (r: Option<nat>)
    ensures r.Some? ==> r.value < |lore| && IsSkillLine(lore[r.value])
    ensures r.Some? ==> forall j :: 0 <= j < r.value ==> !IsSkillLine(lore[j])
    ensures r.None? ==> forall j :: 0 <= j < |lore| ==> !IsSkillLine(lore[j])
  {
    if lore == [] then None
    else if IsSkillLine(lore[0]) then Some(0)
    else match FirstSkillLine(lore[1..])
      case None => None
      case Some(k) => assert lore[1..][k] == lore[k + 1]; Some(k + 1)
  }

  /** The first skill line is the one at `i` when no earlier line is one. */
  lemma FirstSkillLineIs(lore: seq<Option<string>>, i: nat)
    requires i < |lore| && IsSkillLine(lore[i])
    requires forall j :: 0 <= j < i ==> !IsSkillLine(lore[j])
    ensures FirstSkillLine(lore) == Some(i)
  {
  }

  /**
   * Drops the legacy marker and everything after it. What is left is a prefix
   * of `raw` without any occurrence of the marker; it is shorter than `raw`
   * exactly when `raw` contains the marker, which then starts where it ends,
   * at its first occurrence.
   */
  function CutAtLegacySuffix(raw: string): (r: string)
    ensures r <= raw
    ensures r == raw <==> !Contains(raw, LEGACY_SUFFIX)
    ensures r != raw ==> OccursAt(raw, LEGACY_SUFFIX, |r|)
    ensures r != raw ==> forall j: nat :: j < |r| ==> !OccursAt(raw, LEGACY_SUFFIX, j)
    ensures !Contains(r, LEGACY_SUFFIX)
  {
    var idx := IndexOf(raw, LEGACY_SUFFIX);
    if idx != -1 then
      var r := raw[..idx];
      PrefixKeepsAbsence(raw, idx, LEGACY_SUFFIX);
      r
    else raw
  }

  /** An occurrence in a prefix of `s` is an occurrence in `s` at the same index. */
  lemma PrefixKeepsAbsence(s: string, n: nat, t: string)
    requires n <= |s|
    requires forall j: nat :: j < n ==> !OccursAt(s, t, j)
    requires |t| > 0
    ensures !Contains(s[..n], t)
  {
    forall j: nat | OccursAt(s[..n], t, j)
      ensures false
    {
      assert s[..n][j..j + |t|] == s[j..j + |t|];
      assert OccursAt(s, t, j);
    }
  }

  /** An occurrence in an infix of `s` is an occurrence in `s`. */
  lemma InfixKeepsAbsence(s: string, lo: nat, hi: nat, t: string)
    requires lo <= hi <= |s|
    requires !Contains(s, t)
    ensures !Contains(s[lo..hi], t)
  {
    forall j: nat | OccursAt(s[lo..hi], t, j)
      ensures false
    {
      forall k | 0 <= k < |t|
        ensures s[lo + j..lo + j + |t|][k] == t[k]
      {
        assert s[lo..hi][j..j + |t|][k] == s[lo + j + k];
      }
      assert s[lo + j..lo + j + |t|] == t;
      assert OccursAt(s, t, lo + j);
    }
  }

  /**
   * The skill id a legacy lore line carries: the text after the prefix, cut at
   * the legacy marker, then trimmed. It never contains the marker and never
   * has blank ends; it may be empty.
   */
  function ParseSkillLine(line: string): (r: string)
    requires StartsWith(line, LORE_PREFIX)
    ensures IsTrimOf(r, CutAtLegacySuffix(line[|LORE_PREFIX|..]))
    ensures Tight(r)
    ensures !Contains(r, LEGACY_SUFFIX)
  {
    var raw := CutAtLegacySuffix(line[|LORE_PREFIX|..]);
    var r := Trim(raw);
    var i: nat :| TrimmedAt(raw, r, i);
    InfixKeepsAbsence(raw, i, i + |r|, LEGACY_SUFFIX);
    r
  }

  /** The id stored under `SKILL_ID_KEY` as a string, if any. */
  function StoredSkillId(container: PersistentData): (r: Option<string>)
    ensures r.Some? <==> HasString(container, SKILL_ID_KEY)
    ensures r.Some? ==> container.entries[SKILL_ID_KEY] == StringData(r.value)
  {
    if HasString(container, SKILL_ID_KEY) then Some(GetString(container, SKILL_ID_KEY)) else None
  }

  /** What `isSkillSet` reports for an item with metadata `meta`. */
  ghost predicate HasSkill(meta: ItemMeta) {
    HasString(meta.container, SKILL_ID_KEY) || (meta.lore.Some? && HasSkillLine(meta.lore.value))
  }

  /** What `getItemSkillId` returns for an item with metadata `meta`. */
  function SkillIdOf(meta: ItemMeta): Option<string> {
    if HasString(meta.container, SKILL_ID_KEY) then StoredSkillId(meta.container)
    else if meta.lore.Some? then
      match FirstSkillLine(meta.lore.value)
      case Some(k) => Some(ParseSkillLine(meta.lore.value[k].value))
      case None => None
    else None
  }

  /**
   * The metadata `createItem` leaves on its result. Only the `SKILL_ID_KEY`
   * entry can change, and only when there is metadata, an available
   * container and a non-empty id; otherwise the metadata is returned as is.
   */
  function WithSkillId(meta: Option<ItemMeta>, skillId: Option<string>): (r: Option<ItemMeta>)
    ensures r.Some? <==> meta.Some?
    ensures meta.None? || skillId.None? || skillId == Some("") ==> r == meta
    ensures meta.Some? && meta.value.container.Unavailable? ==> r == meta
    ensures r.Some? ==> r.value.displayName == meta.value.displayName
    ensures r.Some? ==> r.value.lore == meta.value.lore
    ensures r.Some? ==> r.value.container.Available? == meta.value.container.Available?
    ensures r.Some? && r.value.container.Available? ==>
      r.value.container.entries - {SKILL_ID_KEY} == meta.value.container.entries - {SKILL_ID_KEY}
    ensures meta.Some? && meta.value.container.Available? && skillId.Some? && skillId.value != "" ==>
      StoredSkillId(r.value.container) == skillId
  {
    match meta
    case None => None
    case Some(m) =>
      if skillId.None? || skillId.value == "" then meta
      else match m.container
        case Unavailable => meta
        case Available(entries) =>
          var written := SetString(entries, SKILL_ID_KEY, skillId.value);
          assert written - {SKILL_ID_KEY} == entries - {SKILL_ID_KEY};
          Some(m.(container := Available(written)))
  }

  // ---------------------------------------------------------------------
  // The three operations

  /**
   * `createItem(plugin, item, skillId)`. A null plugin, then a null item, is
   * rejected; otherwise the result is a fresh clone of `item` whose metadata
   * is `WithSkillId` of the original's, and `item` itself is left unchanged.
   */
  method CreateItem(plugin: Plugin?, item: ItemStack?, skillId: Option<string>)
    returns (r: Result<ItemStack, ApiError>)
    ensures plugin == null ==> r == Failure(IllegalArgument(PLUGIN_NULL_MESSAGE))
    ensures plugin != null && item == null ==> r == Failure(IllegalArgument(ITEM_NULL_MESSAGE))
    ensures plugin != null && item != null ==>
      && r.Success?
      && fresh(r.value)
      && r.value.material == item.material
      && r.value.amount == item.amount
      && r.value.meta == WithSkillId(item.meta, skillId)
    ensures item != null ==> unchanged(item)
  {
    if plugin == null {
      return Failure(IllegalArgument(PLUGIN_NULL_MESSAGE));
    }
    if item == null {
      return Failure(IllegalArgument(ITEM_NULL_MESSAGE));
    }
    var skillIdKey := SKILL_ID_KEY;
    var result := item.Clone();
    var meta := result.meta;
    if meta.Some? && skillId.Some? && skillId.value != "" {
      var m := meta.value;
      if m.container.Available? {
        m := m.(container := Available(SetString(m.container.entries, skillIdKey, skillId.value)));
      } // else a legacy server: the write is skipped
      result.SetItemMeta(Some(m));
    }
    return Success(result);
  }

  /**
   * `isSkillSet(plugin, item)`: false for a null plugin, a null item or an
   * item without metadata; otherwise whether the container holds the key or
   * some lore line carries a skill id.
   */
  method IsSkillSet(plugin: Plugin?, item: ItemStack?) returns (found: bool)
    ensures plugin == null || item == null || item.meta.None? ==> !found
    ensures plugin != null && item != null && item.meta.Some? ==> (found <==> HasSkill(item.meta.value))
  {
    if plugin == null || item == null {
      return false;
    }
    var meta := item.meta;
    if meta.None? {
      return false;
    }
    var skillIdKey := SKILL_ID_KEY;
    if HasString(meta.value.container, skillIdKey) {
      return true;
    }
    var lore := meta.value.lore;
    if lore.Some? {
      var lines := lore.value;
      var i := 0;
      while i < |lines|
        invariant 0 <= i <= |lines|
        invariant forall j :: 0 <= j < i ==> !IsSkillLine(lines[j])
      {
        var line := lines[i];
        if line.Some? && StartsWith(line.value, LORE_PREFIX) {
          return true;
        }
        i := i + 1;
      }
    }
    return false;
  }

  /**
   * `getItemSkillId(plugin, item)`: null (`None`) for a null plugin, a null
   * item or an item without metadata; otherwise `SkillIdOf` its metadata.
   */
  method GetItemSkillId(plugin: Plugin?, item: ItemStack?) returns (id: Option<string>)
    ensures plugin == null || item == null || item.meta.None? ==> id == None
    ensures plugin != null && item != null && item.meta.Some? ==> id == SkillIdOf(item.meta.value)
  {
    if plugin == null || item == null {
      return None;
    }
    var meta := item.meta;
    if meta.None? {
      return None;
    }
    var skillIdKey := SKILL_ID_KEY;
    if HasString(meta.value.container, skillIdKey) {
      return Some(GetString(meta.value.container, skillIdKey));
    }
    var lore := meta.value.lore;
    if lore.Some? {
      var lines := lore.value;
      var i := 0;
      while i < |lines|
        invariant 0 <= i <= |lines|
        invariant forall j :: 0 <= j < i ==> !IsSkillLine(lines[j])
      {
        var line := lines[i];
        if line.Some? && StartsWith(line.value, LORE_PREFIX) {
          FirstSkillLineIs(lines, i);
          return Some(ParseSkillLine(line.value));
        }
        i := i + 1;
      }
    }
    return None;
  }
}
