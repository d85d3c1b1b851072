/**
 * Properties of the skill-id codec: the write/read round trip, what a write
 * leaves alone, store-before-lore precedence, legacy lore parsing, and the
 * agreement of `isSkillSet` with `getItemSkillId`.
 */
module SkillProperties {
  import opened Wrappers
  import opened JavaText
  import opened Bukkit
  import opened MCEngineSkillApi

  // ---------------------------------------------------------------------
  // java.lang.String.trim

  /** `IsTrimOf` determines its first argument: `Trim` is the only trim. */
  lemma TrimUnique(s: string, r1: string, r2: string)
    requires IsTrimOf(r1, s) && IsTrimOf(r2, s)
    ensures r1 == r2
  {
  }

  /** A string with no blank at either end is its own trim. */
  lemma TrimOfTight(s: string)
    requires Tight(s)
    ensures Trim(s) == s
  {
    assert TrimmedAt(s, s, 0);
    TrimUnique(s, Trim(s), s);
  }

  /** Trimming twice is trimming once. */
  lemma TrimIdempotent(s: string)
    ensures Trim(Trim(s)) == Trim(s)
  {
    TrimOfTight(Trim(s));
  }

  // ---------------------------------------------------------------------
  // Legacy lore lines

  /**
   * The legacy lore line that carries `id`, with or without the legacy
   * marker after it: the form that the lore reader accepts.
   */
  function LegacyLine(id: string, marked: bool): string {
    LORE_PREFIX + id + (if marked then LEGACY_SUFFIX else "")
  }

  /**
   * The marker cannot start inside `id` when `id` does not contain it: an
   * occurrence that ran on into a following marker would need a space in the
   * marker after its first character.
   */
  lemma NoSuffixInsideId(id: string, marked: bool, j: nat)
    requires !Contains(id, LEGACY_SUFFIX) && j < |id|
    ensures !OccursAt(id + (if marked then LEGACY_SUFFIX else ""), LEGACY_SUFFIX, j)
  {
    var raw := id + (if marked then LEGACY_SUFFIX else "");
    var n := |LEGACY_SUFFIX|;
    if j + n <= |id| {
      assert raw[j..j + n] == id[j..j + n];
      assert !OccursAt(id, LEGACY_SUFFIX, j);
    } else if marked {
      assert raw[|id|] == ' ';
      assert forall k :: 0 < k < n ==> LEGACY_SUFFIX[k] != ' ';
      assert raw[j..j + n][|id| - j] == raw[|id|];
    }
  }

  /**
   * Reading a legacy line gives back the id written into it, marked or not,
   * for every id that has no blank at either end and does not contain the
   * marker.
   */
  lemma {:induction false} LegacyLineRoundTrip(id: string, marked: bool)
    requires Tight(id) && !Contains(id, LEGACY_SUFFIX)
    ensures StartsWith(LegacyLine(id, marked), LORE_PREFIX)
    ensures ParseSkillLine(LegacyLine(id, marked)) == id
  {
    var line := LegacyLine(id, marked);
    var tail := if marked then LEGACY_SUFFIX else "";
    assert line[..|LORE_PREFIX|] == LORE_PREFIX;
    var raw := line[|LORE_PREFIX|..];
    assert raw == id + tail;
    forall j: nat | j < |id|
      ensures !OccursAt(raw, LEGACY_SUFFIX, j)
    {
      NoSuffixInsideId(id, marked, j);
    }
    var idx := IndexOf(raw, LEGACY_SUFFIX);
    if marked {
      assert raw[|id|..|id| + |LEGACY_SUFFIX|] == LEGACY_SUFFIX;
      assert OccursAt(raw, LEGACY_SUFFIX, |id|);
      assert idx == |id|;
      assert raw[..idx] == id;
    } else {
      assert raw == id;
      assert idx == -1;
    }
    assert CutAtLegacySuffix(raw) == id;
    TrimOfTight(id);
  }

  /** A marked legacy line: `\U{A7}7Skill: \U{A7}efireball \U{A7}c[Legacy]` reads as `fireball`. */
  lemma MarkedLineExample()
    ensures ParseSkillLine("\U{A7}7Skill: \U{A7}efireball \U{A7}c[Legacy]") == "fireball"
  {
    assert LegacyLine("fireball", true) == "\U{A7}7Skill: \U{A7}efireball \U{A7}c[Legacy]";
    LegacyLineRoundTrip("fireball", true);
  }

  /** An unmarked legacy line: `\U{A7}7Skill: \U{A7}eheal` reads as `heal`. */
  lemma UnmarkedLineExample()
    ensures ParseSkillLine("\U{A7}7Skill: \U{A7}eheal") == "heal"
  {
    assert LegacyLine("heal", false) == "\U{A7}7Skill: \U{A7}eheal";
    LegacyLineRoundTrip("heal", false);
  }

  /**
   * When the first skill line is the bare prefix, the item counts as set and
   * its id is the empty string, not null.
   */
  lemma EmptyLegacyValue(meta: ItemMeta, i: nat)
    requires !HasString(meta.container, SKILL_ID_KEY)
    requires meta.lore.Some? && i < |meta.lore.value| && meta.lore.value[i] == Some(LORE_PREFIX)
    requires forall j :: 0 <= j < i ==> !IsSkillLine(meta.lore.value[j])
    ensures HasSkill(meta)
    ensures SkillIdOf(meta) == Some("")
  {
    assert LegacyLine("", false) == LORE_PREFIX;
    LegacyLineRoundTrip("", false);
    LoreFallback(meta, i);
  }

  // ---------------------------------------------------------------------
  // Detection and reading

  /** `isSkillSet` holds exactly when `getItemSkillId` is not null. */
  lemma DetectIffRead(meta: ItemMeta)
    ensures HasSkill(meta) <==> SkillIdOf(meta).Some?
  {
  }

  /**
   * A string under the key wins over any lore: in particular over a legacy
   * line that carries a different id.
   */
  lemma StorePrecedence(meta: ItemMeta, stored: string)
    requires meta.container.Available? && SKILL_ID_KEY in meta.container.entries
    requires meta.container.entries[SKILL_ID_KEY] == StringData(stored)
    ensures HasSkill(meta)
    ensures SkillIdOf(meta) == Some(stored)
  {
  }

  /** A store holding "a" beside a legacy line for "b" reads as "a". */
  lemma StorePrecedenceExample(other: map<NamespacedKey, DataValue>)
    ensures SkillIdOf(ItemMeta(None, Some([Some(LegacyLine("b", true))]),
                               Available(other[SKILL_ID_KEY := StringData("a")]))) == Some("a")
  {
  }

  /**
   * Without a string under the key (no container, a missing key, or a value
   * of another type), the id comes from the first skill line of the lore.
   */
  lemma LoreFallback(meta: ItemMeta, i: nat)
    requires !HasString(meta.container, SKILL_ID_KEY)
    requires meta.lore.Some? && i < |meta.lore.value| && IsSkillLine(meta.lore.value[i])
    requires forall j :: 0 <= j < i ==> !IsSkillLine(meta.lore.value[j])
    ensures SkillIdOf(meta) == Some(ParseSkillLine(meta.lore.value[i].value))
  {
    FirstSkillLineIs(meta.lore.value, i);
  }

  /** Only the first skill line counts, even when a later one carries another id. */
  lemma FirstLineWinsExample()
    ensures SkillIdOf(ItemMeta(None,
      Some([None, Some("Damage: 5"), Some(LegacyLine("heal", false)), Some(LegacyLine("fireball", true))]),
      Unavailable)) == Some("heal")
  {
    var lore := [None, Some("Damage: 5"), Some(LegacyLine("heal", false)), Some(LegacyLine("fireball", true))];
    assert !StartsWith("Damage: 5", LORE_PREFIX) by {
      assert "Damage: 5"[0] != LORE_PREFIX[0];
    }
    LegacyLineRoundTrip("heal", false);
    FirstSkillLineIs(lore, 2);
  }

  /** No string under the key and no skill line: not set, and no id. */
  lemma NotFound(meta: ItemMeta)
    requires !HasString(meta.container, SKILL_ID_KEY)
    requires meta.lore.None? || forall j :: 0 <= j < |meta.lore.value| ==> !IsSkillLine(meta.lore.value[j])
    ensures !HasSkill(meta)
    ensures SkillIdOf(meta) == None
  {
  }

  // ---------------------------------------------------------------------
  // Writing

  /** With an available container and a non-empty id, the write reads back. */
  lemma RoundTrip(meta: ItemMeta, skillId: string)
    requires meta.container.Available? && skillId != ""
    ensures WithSkillId(Some(meta), Some(skillId)).Some?
    ensures HasSkill(WithSkillId(Some(meta), Some(skillId)).value)
    ensures SkillIdOf(WithSkillId(Some(meta), Some(skillId)).value) == Some(skillId)
  {
  }

  /** A null or empty id, or a container that is unavailable, changes nothing observable. */
  lemma WriteNoOp(meta: ItemMeta, skillId: Option<string>)
    requires skillId.None? || skillId == Some("") || meta.container.Unavailable?
    ensures WithSkillId(Some(meta), skillId) == Some(meta)
    ensures HasSkill(WithSkillId(Some(meta), skillId).value) == HasSkill(meta)
    ensures SkillIdOf(WithSkillId(Some(meta), skillId).value) == SkillIdOf(meta)
  {
  }

  /**
   * On a legacy server a write changes nothing, and both detection and
   * reading depend on the lore alone: any metadata with the same lore and no
   * string under the key gives the same answers.
   */
  lemma DegradedMode(meta: ItemMeta, other: ItemMeta, skillId: Option<string>)
    requires meta.container.Unavailable?
    requires other.lore == meta.lore && !HasString(other.container, SKILL_ID_KEY)
    ensures WithSkillId(Some(meta), skillId) == Some(meta)
    ensures HasSkill(meta) == HasSkill(other)
    ensures SkillIdOf(meta) == SkillIdOf(other)
  {
  }

  /** The later of two writes is the one read back, and writing twice is writing once. */
  lemma LastWriteWins(meta: ItemMeta, first: string, second: string)
    requires meta.container.Available? && first != "" && second != ""
    ensures SkillIdOf(WithSkillId(WithSkillId(Some(meta), Some(first)), Some(second)).value) == Some(second)
    ensures WithSkillId(WithSkillId(Some(meta), Some(first)), Some(first)) == WithSkillId(Some(meta), Some(first))
  {
    var once := WithSkillId(Some(meta), Some(first));
    var twice := WithSkillId(once, Some(first));
    assert twice.value.container.entries == once.value.container.entries;
  }

  // ---------------------------------------------------------------------
  // The operations used together

  /**
   * `createItem` followed by `isSkillSet` and `getItemSkillId` on its result,
   * on a server with a data container: the id reads back, the input stack
   * does not carry it unless it already did.
   */
  method CreateThenRead(plugin: Plugin, item: ItemStack, skillId: string)
    returns (found: bool, id: Option<string>, before: Option<string>)
    requires item.meta.Some? && item.meta.value.container.Available? && skillId != ""
    ensures found && id == Some(skillId)
    ensures before == SkillIdOf(item.meta.value)
  {
    var r := CreateItem(plugin, item, Some(skillId));
    RoundTrip(item.meta.value, skillId);
    found := IsSkillSet(plugin, r.value);
    id := GetItemSkillId(plugin, r.value);
    before := GetItemSkillId(plugin, item);
  }
}
