# MCEngine skill-id codec, in Dafny

This project models the skill-id attribute codec of MCEngine's skill API
(`MCEngineSkillApi`). The codec has three static operations over a Bukkit item
stack. In the strings below, `\u00A7` is the section-sign character U+00A7, which starts a Minecraft colour code.

- `createItem` clones the stack. When the clone has metadata and the skill id is
  non-empty, it stores the id as a string under the fixed key `mcengine:skill_id`
  in the persistent data container. On a legacy server that has no container,
  the write is skipped without an error.
- `isSkillSet` looks for that key first. If the key is not there, it looks for a
  lore line that starts with `\u00A77Skill: \u00A7e`.
- `getItemSkillId` searches in the same order. On a lore hit it takes the text
  after the prefix, cuts it at the first ` \u00A7c[Legacy]` and trims it.

Files:

- `wrappers.dfy`: `Option` stands for Java null and `Result` stands for a thrown
  `IllegalArgumentException`.
- `java_text.dfy`: `startsWith`, `indexOf` and `trim` on `seq<char>`. Each has
  a contract that characterises it independently of its definition:
  "the string is the prefix followed by some rest" for `startsWith`, the first
  occurrence for `indexOf`, and the blank ends removed for `trim`.
- `bukkit.dfy`: the Bukkit types the codec touches.
  - `NamespacedKey` and the typed values of a persistent data container.
  - The container itself, as `Unavailable` or `Available(entries)`.
  - `ItemMeta` as a value, because `getItemMeta` returns a copy.
  - `ItemStack` as a class whose `clone` and `setItemMeta` change the heap.
  - `Plugin` as an opaque class.
- `skill_api.dfy`: the constants, the specification functions and the three
  operations.
  - `createItem`, `isSkillSet` and `getItemSkillId` are methods. The two readers
    have the source's lore loops, with invariants.
  - `isSkillSet` is proved against `HasSkill`, `getItemSkillId` against
    `SkillIdOf`, and `createItem` against `WithSkillId`.
- `skill_properties.dfy`: lemmas for the round trip, non-interference, precedence,
  legacy parsing and detection/reading agreement, plus a client method that uses
  the three operations together.

The key's namespace is the literal `"mcengine"` in all three operations. The
doc comments say the plugin argument namespaces the key, but the code never
uses it for that. The model follows the code: the plugin only matters for its
null check.

## Model

| member | source | states |
|---|---|---|
| `JavaText.StartsWith` | src/main/java/io/github/mcengine/api/skill/MCEngineSkillApi.java:76 | `startsWith` holds exactly when the line is the prefix followed by some rest. |
| `JavaText.IndexOf` | src/main/java/io/github/mcengine/api/skill/MCEngineSkillApi.java:114 | The result is -1 exactly when the needle does not occur. Otherwise the needle occurs at the result and at no smaller index. |
| `JavaText.Trim` | src/main/java/io/github/mcengine/api/skill/MCEngineSkillApi.java:118 | The result has no blank (≤ U+0020) character at either end. It is the input with a blank prefix and a blank suffix removed. |
| `SkillProperties.TrimUnique` | src/main/java/io/github/mcengine/api/skill/MCEngineSkillApi.java:118 | The "blank ends removed" characterisation determines the string, so `Trim` is the only function meeting it. |
| `SkillProperties.TrimOfTight` | src/main/java/io/github/mcengine/api/skill/MCEngineSkillApi.java:118 | A string with no blank at either end is its own trim. |
| `SkillProperties.TrimIdempotent` | src/main/java/io/github/mcengine/api/skill/MCEngineSkillApi.java:118 | Trimming twice gives the same result as trimming once. |
| `Bukkit.HasString` | src/main/java/io/github/mcengine/api/skill/MCEngineSkillApi.java:66-70 | `has(key, STRING)`, with the capability error caught, is false on a host without containers, for a missing key and for a key holding another data type. When it holds, the key holds a string. |
| `Bukkit.SetString` | src/main/java/io/github/mcengine/api/skill/MCEngineSkillApi.java:40 | After `set`, the key holds the string, whatever it held before. The key set grows by the key only, and every other entry is kept. |
| `Bukkit.GetString` | src/main/java/io/github/mcengine/api/skill/MCEngineSkillApi.java:103 | `get(key, STRING)` after a successful `has` returns the string stored under the key. |
| `Bukkit.ItemStack.Clone` | src/main/java/io/github/mcengine/api/skill/MCEngineSkillApi.java:35 | `clone` returns a fresh stack with the same material, amount and metadata. |
| `Bukkit.ItemStack.SetItemMeta` | src/main/java/io/github/mcengine/api/skill/MCEngineSkillApi.java:44 | `setItemMeta` replaces the metadata and leaves material and amount as they were. |
| `MCEngineSkillApi.IsSkillLine` | src/main/java/io/github/mcengine/api/skill/MCEngineSkillApi.java:111 | A lore line qualifies exactly when it is non-null and is the prefix followed by any text, the empty text included. |
| `MCEngineSkillApi.FirstSkillLine` | src/main/java/io/github/mcengine/api/skill/MCEngineSkillApi.java:109-111 | Gives the index of a non-null lore line starting with `\u00A77Skill: \u00A7e`, with no such line before it. Gives none exactly when no line qualifies. |
| `MCEngineSkillApi.FirstSkillLineIs` | src/main/java/io/github/mcengine/api/skill/MCEngineSkillApi.java:110-111 | A qualifying line with no qualifying line before it is the first skill line. |
| `MCEngineSkillApi.CutAtLegacySuffix` | src/main/java/io/github/mcengine/api/skill/MCEngineSkillApi.java:114-117 | The result is a prefix of the input and never contains ` \u00A7c[Legacy]`. It equals the input exactly when the input has no marker. Otherwise the marker starts where the result ends, and does not start at any earlier index: the cut is at the first marker. |
| `MCEngineSkillApi.ParseSkillLine` | src/main/java/io/github/mcengine/api/skill/MCEngineSkillApi.java:113-118 | The id of a legacy line is the text after the prefix, cut at the marker, with blank ends removed. It has no blank ends, never contains the marker, and may be empty. |
| `MCEngineSkillApi.StoredSkillId` | src/main/java/io/github/mcengine/api/skill/MCEngineSkillApi.java:101-103 | An id is found exactly when the container is available and holds a string under `mcengine:skill_id`. That string is the id. |
| `MCEngineSkillApi.WithSkillId` | src/main/java/io/github/mcengine/api/skill/MCEngineSkillApi.java:35-47 | The result's metadata is unchanged when it is absent, when the id is null or empty, or when the container is unavailable. Otherwise only the `mcengine:skill_id` entry changes and it holds the id. Display name, lore and every other entry are kept. |
| `MCEngineSkillApi.CreateItem` | src/main/java/io/github/mcengine/api/skill/MCEngineSkillApi.java:29-48 | A null plugin fails with "Plugin cannot be null!". Otherwise a null item fails with "ItemStack cannot be null!". Otherwise the result is a fresh clone whose metadata is `WithSkillId` of the input's. The input stack is unchanged. |
| `MCEngineSkillApi.IsSkillSet` | src/main/java/io/github/mcengine/api/skill/MCEngineSkillApi.java:58-82 | The result is false for a null plugin, a null item or absent metadata. Otherwise it is true exactly when the container holds the key as a string or some non-null lore line starts with the prefix. |
| `MCEngineSkillApi.GetItemSkillId` | src/main/java/io/github/mcengine/api/skill/MCEngineSkillApi.java:93-123 | The result is null for a null plugin, a null item or absent metadata. Otherwise it is the stored string if there is one, else the parsed first skill line, else null. |
| `SkillProperties.DetectIffRead` | src/main/java/io/github/mcengine/api/skill/MCEngineSkillApi.java:94-122 | `isSkillSet` holds exactly when `getItemSkillId` is not null. |
| `SkillProperties.StorePrecedence` | src/main/java/io/github/mcengine/api/skill/MCEngineSkillApi.java:101-105 | A string under the key is the id read back, whatever the lore says. |
| `SkillProperties.StorePrecedenceExample` | src/main/java/io/github/mcengine/api/skill/MCEngineSkillApi.java:101-105 | A store holding "a" next to a legacy line for "b" reads as "a". |
| `SkillProperties.LoreFallback` | src/main/java/io/github/mcengine/api/skill/MCEngineSkillApi.java:107-119 | Take a meta with no string under the key (no container, no key, or a non-string value). Its id is the parse of its first skill line. |
| `SkillProperties.FirstLineWinsExample` | src/main/java/io/github/mcengine/api/skill/MCEngineSkillApi.java:110-119 | Null lines and non-matching lines are skipped. When a later skill line carries another id, the first skill line still decides. |
| `SkillProperties.NotFound` | src/main/java/io/github/mcengine/api/skill/MCEngineSkillApi.java:72-81 | With no string under the key and no skill line, the item is not set and has no id. |
| `SkillProperties.LegacyLineRoundTrip` | src/main/java/io/github/mcengine/api/skill/MCEngineSkillApi.java:109-119 | Take any id with no blank at either end that does not contain ` \u00A7c[Legacy]`. The prefix followed by the id, with or without the marker, parses back to that id. An id may contain inner spaces. |
| `SkillProperties.MarkedLineExample` | src/main/java/io/github/mcengine/api/skill/MCEngineSkillApi.java:113-118 | `\u00A77Skill: \u00A7efireball \u00A7c[Legacy]` reads as `fireball`. |
| `SkillProperties.UnmarkedLineExample` | src/main/java/io/github/mcengine/api/skill/MCEngineSkillApi.java:113-118 | `\u00A77Skill: \u00A7eheal` reads as `heal`. |
| `SkillProperties.EmptyLegacyValue` | src/main/java/io/github/mcengine/api/skill/MCEngineSkillApi.java:113-118 | Take a meta with no string under the key whose first skill line is just the prefix. It counts as set and gives the empty id, not null. |
| `SkillProperties.RoundTrip` | src/main/java/io/github/mcengine/api/skill/MCEngineSkillApi.java:38-45 | With an available container and a non-empty id, the written metadata is detected and reads back the id. |
| `SkillProperties.WriteNoOp` | src/main/java/io/github/mcengine/api/skill/MCEngineSkillApi.java:38 | A null or empty id, or an unavailable container, leaves the metadata and both read results unchanged. |
| `SkillProperties.DegradedMode` | src/main/java/io/github/mcengine/api/skill/MCEngineSkillApi.java:101-122 | Without a container the write is a no-op. Detection and reading then depend on the lore alone: any meta with the same lore and no string under the key gives the same answers. |
| `SkillProperties.LastWriteWins` | src/main/java/io/github/mcengine/api/skill/MCEngineSkillApi.java:40 | Of two writes, the later id is the one read back. Writing the same id twice gives the same metadata as writing it once. |
| `SkillProperties.CreateThenRead` | src/main/java/io/github/mcengine/api/skill/MCEngineSkillApi.java:29-123 | On a stack with an available container, `createItem` then `isSkillSet` and `getItemSkillId` give true and the id. Reading the input stack still gives what it gave before. |

## Left out

- The six extension interfaces (add-on, agent, api, dlc, library, script). Each only declares `onLoad`, `onDisload` and `setId`, with no logic and no enforced ordering, so there is no behaviour to model.
- The internals of Bukkit's `ItemStack`, `ItemMeta`, `PersistentDataContainer`, `NamespacedKey` and `Plugin`. Only what the codec observes is modelled. Metadata has only display name, lore and container, and the container's other data types are opaque.
- Feature probing through `NoClassDefFoundError` and `NoSuchMethodError`. It is modelled as the `Unavailable` container. A server where `has` works but `get` or `set` fails is not modelled.
- `getItemMeta()` is modelled as reading the stack's `meta` field. Its copy semantics come from `ItemMeta` being a value: a change to a copy reaches the stack only through `setItemMeta`.
- Hosts without `NamespacedKey`. The key is built outside every `try` block (MCEngineSkillApi.java:33, :63, :98). On such a host all three operations would throw before any fallback, and the readers would never reach the lore scan. The model assumes a host that has `NamespacedKey`, so `Unavailable` stands only for a host that has the key class but no container.
- Strings are sequences of Unicode scalar values, not UTF-16 code units. The prefix, the marker and the blank characters are all single BMP characters, so matching, cutting and trimming give the same text either way.
- Thread safety: the codec does no synchronisation, and concurrent use of one stack is not modelled.
- The code that writes legacy lore lines is outside the codec. `SkillProperties.LegacyLine` gives the line form that the reader accepts, only to state the parsing round trip.
