# Stendhal: a verified model of six pieces of game logic

This project models six small pieces of the Stendhal game in Dafny and proves
properties of them:

- **Combat simulator** (`Combat`, `simulate_combat.dfy`). This is the
  command-line tool `SimulateCombat`. It covers:
  - its hand-written argument parser, which fills the tool's static settings;
  - the checks `main` runs after parsing, in their order;
  - the player's and the enemy's set-up, with the equipment-boost formulas;
  - the turn-capped combat round, where both damages come from the state
    before the turn;
  - the win/loss/tie tally and the balance verdict.

  The static fields are the fields of the class `SimulateCombat`. The
  methods `ParseArgs`, `SimulateRound` and `RunSimulation` keep the source's
  loops and are proved against the functions `ParseFrom`, `Round` and
  `TallyUpTo`.
- **Equip rules** (`ActionManager`, `action_manager.dfy`). These are
  `canEquip`, a first-match search for a free slot, and `onEquip`, which adds
  an item to a named slot in place.
- **Lua script lifecycle** (`Lua`, `lua_script.dfy`). It covers:
  - the two constructors;
  - `load()`: the `onLoad`/`onUnload` bracket around the logger's file name,
    the stream path's IOException fallback, and how the script's return value
    becomes success or failure;
  - `setMusic`, with its option table and defaults.

  The Lua VM is a datatype of outcomes: a returned value, or a raised error.
- **Zelan's quest dialogue** (`ZelanQuest`, `zelan_quest.dfy`). This is the
  state machine that the end-to-end test of the quest "unicorn horns for
  Zelan" pins down: conversation states, the quest slot, karma, experience
  and inventory. There is a pure transition function, `Step`. There are also
  engine and player objects whose `StepWith` is proved against that function.
  The test itself is replayed both on values and on the objects.
- **Case-insensitive expression matching** (`ExprMatcher`,
  `expr_matcher.dfy`). Two expressions match when their words are equal up to
  letter case. Their type labels are ignored.
- **Web client entity** (`ClientEntity`, `rp_entity.dfy`). It covers:
  - the attacker set and its `size` counter;
  - the attack-target link that `set("target")`, `unset("target")` and
    `destroy` keep in step with the target's attacker set;
  - the HP-change floaters;
  - the pure parts of sprite selection: the base-100 outfit code, the
    `outfit_ext` key/value list, outfit file names with zero-padded indexes,
    and the ping-pong walking frame.

The shared modules are:
- `Text`: ASCII case mapping, decimal rendering of integers, and
  `Integer.parseInt`.
- `Arith`: the uniqueness of integer division.
- `Wrappers`: `Option`.

Randomness, time and the game's unseen classes are parameters:
- `Roll` functions give the damage of each side for a round, a turn and the
  hit points before the turn;
- `atkLevel` and `defLevel` are the level tables;
- `now` is the clock;
- `ChunkRun` and `StreamRun` values are the outcome of running a script.

## Where the model follows the code rather than its comments

- `setMusic` casts every table value to `LuaInteger` before it tests for
  nil (src/games/stendhal/server/core/scripting/lua/LuaScript.java:166-168).
  - Any value that is not an integer therefore throws a ClassCastException.
    In that case no music source is added, and the warnings already written
    stay in the log.
  - A Lua table never holds nil values, so the nil test never skips anything.
  - The model's `MusicArgs.castFailed` records the exception.
- `load()` has no `finally` block. When the script raises an error,
  `onUnload` is not reached and the logger keeps the script's file name.
  `Lua.LuaScript.Load` states this case separately.
- `onEquip` does not check the item's possible slots, because that check is
  commented out. Any slot the entity has is accepted
  (`ActionManager.EquipIgnoresPossibleSlots`).
- In `outfit_ext`, the value of a piece is the text between its first and
  second "=". Anything after a second "=" is dropped
  (`ClientEntity.ValueStopsAtSecondEquals`).
- The rounds check prints "rounds argument must be a postive number". The
  spelling is kept.
- The level checks in `main` do not bound the level, but `initEntities`
  indexes tables of 598 entries with it.
  - A level outside 0..597 ends the run with an array index error after
    validation has passed.
  - The model's `Completion.LevelOutOfRange` is that outcome.
- A comment in `initEntities` doubts that the enemy's `equipsame`
  equipment has any effect. The code still equips the
  enemy, with the very item objects the player's boost has just rewritten
  (src/games/stendhal/tools/SimulateCombat.java:273-323). The enemy
  therefore wears the boosted kit unless `fair` or `noboost` is given
  (`Combat.LoadoutRules`).

## Model

| member | source | states |
|---|---|---|
| Combat.ExitStatus | src/games/stendhal/tools/SimulateCombat.java:151-155 | the exit status is 0 exactly for a help request and 1 for every error |
| Combat.SetFlag | src/games/stendhal/tools/SimulateCombat.java:239-246 | a flag token sets its flag and leaves every value setting as it was |
| Combat.SetValue | src/games/stendhal/tools/SimulateCombat.java:167-238 | storing a parsed option value gives the named setting that value and leaves the other five settings and all four flags as they were |
| Combat.ValueTokensSetValues | src/games/stendhal/tools/SimulateCombat.java:157-247 | when parsing ends without an exit, each of lvl, hp, atk, def, rounds and threshold holds the value after the last option naming it, or keeps its earlier value when none does |
| Combat.SimulateCombat.constructor | src/games/stendhal/tools/SimulateCombat.java:65-93 | the settings start at rounds 1000 and threshold 5, with no level, hp, atk or def and every flag off |
| Combat.SimulateCombat.Assign | src/games/stendhal/tools/SimulateCombat.java:167-238 | the settings become exactly the old settings with the named value stored |
| Combat.SimulateCombat.ParseArgs | src/games/stendhal/tools/SimulateCombat.java:157-255 | the settings left by the loop and the reason it stopped (help, a usage error, the first unknown token, or none) are exactly those of the recursive parser `ParseFrom` on the whole argument list |
| Combat.UnknownTokensAreReported | src/games/stendhal/tools/SimulateCombat.java:247-254 | once any token is unknown, parsing cannot end without an exit; an unknown-argument exit names the first unknown token, which is one of the arguments lower-cased |
| Combat.DashesAreNotNumbers | src/games/stendhal/tools/SimulateCombat.java:172-176 | a token starting with "--" in any case never parses as an integer, so it cannot be taken as a value |
| Combat.FlagTokensSetFlags | src/games/stendhal/tools/SimulateCombat.java:239-246 | when parsing ends without an exit, a flag is set exactly when it was set before or some remaining token is that flag in any letter case |
| Combat.ParseReadsSuffix | src/games/stendhal/tools/SimulateCombat.java:160-178 | parsing from index idx depends only on the tokens from idx on |
| Combat.AliasesAgree | src/games/stendhal/tools/SimulateCombat.java:161-203 | "--level", "--attack" and "--defense", in any letter case, parse exactly like "--lvl", "--atk" and "--def", whatever follows |
| Combat.MissingValue | src/games/stendhal/tools/SimulateCombat.java:168-170 | a value option as the last token stops with the usage error "<name> argument requires value" and status 1 |
| Combat.FirstUnknownReported | src/games/stendhal/tools/SimulateCombat.java:163-166 | of two unknown tokens the first is reported; a help word after an unknown token still ends with help |
| Combat.Validate | src/games/stendhal/tools/SimulateCombat.java:99-111 | no error exactly when rounds >= 1, the threshold is in 1..100 and lvl, hp, atk and def are all set; the rounds error comes first, and every error is a usage error with status 1 |
| Combat.ValidationOrder | src/games/stendhal/tools/SimulateCombat.java:99-111 | the first failing check in the order threshold, lvl, hp, atk, def is the one reported |
| Combat.NoArgumentsNeedLevel | src/games/stendhal/tools/SimulateCombat.java:65-68 | an empty argument list parses to the defaults, which fail only on the missing level |
| Combat.Kit | src/games/stendhal/tools/SimulateCombat.java:292-310 | the player's kit fills exactly the six slots lhand, rhand, armor, head, legs and feet |
| Combat.LoadoutRules | src/games/stendhal/tools/SimulateCombat.java:288-325 | `fair` gives the soul dagger alone and wins over `barehanded`; bare hands give nothing; otherwise the whole kit; the enemy is equipped only with `equipsame` and without `barehanded`; it then wears the player's kit, boosts included, when the player wears the kit, and is unboosted with `fair` or `noboost` |
| Combat.BoostFormulas | src/games/stendhal/tools/SimulateCombat.java:298-310 | the boosted weapon's 7 + lvl*2/6 equals 7 + lvl/3; the shield gives 0 at level 0 and at least 12 above it; armor >= helmet >= boots >= 1 |
| Combat.SimulateCombat.InitEntities | src/games/stendhal/tools/SimulateCombat.java:257-325 | set-up succeeds exactly for a level in 0..597; then the player has level lvl, 100 + 10*lvl base HP, the table stats and its loadout, and the enemy has the given hp, atk, def and level and, with `equipsame`, the items fetched for the player as the player's boost left them |
| Combat.RoundBounds | src/games/stendhal/tools/SimulateCombat.java:426-441 | a round from any turn ends by turn 1000; it is incomplete exactly when it took all 1000 turns with both sides above 0 HP, and otherwise a side is at or below 0 |
| Combat.RoundIsCapped | src/games/stendhal/tools/SimulateCombat.java:421-445 | a whole round takes at most 1000 turns and is incomplete exactly when turn 1000 ends with both sides up |
| Combat.HarmlessRoundIsIncomplete | src/games/stendhal/tools/SimulateCombat.java:427-440 | when no side ever does damage, a round between living sides hits the turn limit with the hit points unchanged |
| Combat.MutualKnockout | src/games/stendhal/tools/SimulateCombat.java:427-434 | both damages come from the hit points before the turn, so a first turn lethal both ways ends the round with both sides down after one turn |
| Combat.DeadStart | src/games/stendhal/tools/SimulateCombat.java:427 | a side starting without hit points ends the round with no turn played |
| Combat.SimulateCombat.SimulateRound | src/games/stendhal/tools/SimulateCombat.java:421-445 | the loop returns the final hit points of `Round` from full base HP, and counts one more incomplete round exactly when `Round` is incomplete |
| Combat.Count | src/games/stendhal/tools/SimulateCombat.java:350-356 | each round adds exactly one to wins + losses + ties |
| Combat.TallyUpTo | src/games/stendhal/tools/SimulateCombat.java:334-357 | after n rounds, wins + losses + ties = n |
| Combat.IncompleteUpTo | src/games/stendhal/tools/SimulateCombat.java:334-336 | at most n of n rounds are incomplete |
| Combat.SimulateCombat.PlayRound | src/games/stendhal/tools/SimulateCombat.java:335-356 | one pass of the loop counts the round's winner into the tally and bumps the incomplete count exactly for an incomplete round |
| Combat.RoundPercentIsNearest | src/games/stendhal/tools/SimulateCombat.java:359-361 | the percentage is the integer nearest to 100*k/n, with halves rounded up, and lies in 0..100 |
| Combat.Verdict | src/games/stendhal/tools/SimulateCombat.java:359-418 | the report carries the tally; each of the win, loss and tie ratios is the percentage `Math.round` gives for its count out of the rounds (nearest to 100·k/n, halves up, in 0..100); when the player wins more rounds the difference is the win ratio minus the other two, when the enemy wins more it is the loss ratio minus the other two, and with equal wins and losses it is 0; the beneficiary is "player", "enemy" or "none" in exactly those three cases; the difference is at most 100 and is within the threshold exactly when it does not exceed it |
| Combat.NearestPercentIsUnique | src/games/stendhal/tools/SimulateCombat.java:359-361 | at most one integer is the rounded percentage of a count, so the ratios the verdict states are fully determined |
| Combat.EvenSplitIsBalanced | src/games/stendhal/tools/SimulateCombat.java:400-413 | equal wins and losses give a difference of 0, within every valid threshold |
| Combat.SweepIsUnbalanced | src/games/stendhal/tools/SimulateCombat.java:400-416 | winning every round gives a difference of 100, outside every threshold below 100 |
| Combat.SimulateCombat.RunSimulation | src/games/stendhal/tools/SimulateCombat.java:327-419 | the loop adds the incomplete count of all rounds, and its report is the verdict on the tally of all `rounds` rounds |
| Combat.SimulateCombat.SetUpAndSimulate | src/games/stendhal/tools/SimulateCombat.java:113-114 | with valid settings, the run fails exactly for a level outside 0..597; a finished run starts the player at 100 + 10*lvl and the enemy at hp, adds the incomplete rounds of all `rounds` rounds, and reports the verdict on their tally |
| Combat.SimulateCombat.Execute | src/games/stendhal/tools/SimulateCombat.java:96-115 | a parse exit or the first failing check ends the run with that exit; otherwise an out-of-range level fails set-up; a run that parses, passes the checks and has a level in 0..597 finishes; a finished run counts every round once and its report is the verdict over the parsed rounds, threshold, level and hp |
| ActionManager.FirstFreeSlot | src/games/stendhal/server/rule/defaultruleset/DefaultActionManager.java:65-79 | the result is the first candidate that is a present, empty slot; it is none exactly when no candidate is one |
| ActionManager.CanEquip | src/games/stendhal/server/rule/defaultruleset/DefaultActionManager.java:60-80 | a result is one of the item's possible slots that the entity has and that is empty, with no earlier possible slot free; null exactly when no possible slot is both present and empty; only reads the entity |
| ActionManager.OnEquip | src/games/stendhal/server/rule/defaultruleset/DefaultActionManager.java:83-100 | fails, changing nothing, exactly when the entity lacks the slot; otherwise the new slot table is the old one with the item appended to that slot |
| ActionManager.EquippedChangesOneSlot | src/games/stendhal/server/rule/defaultruleset/DefaultActionManager.java:96-99 | a successful equip keeps the slot names, appends the item to the named slot only, and leaves every other slot unchanged |
| ActionManager.EquipIgnoresPossibleSlots | src/games/stendhal/server/rule/defaultruleset/DefaultActionManager.java:88-94 | an item is accepted in a slot it does not list |
| ActionManager.FilledSlotNotOfferedAgain | src/games/stendhal/server/rule/defaultruleset/DefaultActionManager.java:70-74 | once the slot `canEquip` chose is filled, the same search no longer offers it |
| Lua.Succeeds | src/games/stendhal/server/core/scripting/lua/LuaScript.java:85-90 | nil succeeds; an integer succeeds exactly when it is 0; a boolean exactly when true; any other value succeeds; so failure is exactly false or a non-zero integer |
| Lua.StreamResult | src/games/stendhal/server/core/scripting/lua/LuaScript.java:115-127 | an IOException becomes the integer 1, which counts as failure; otherwise the chunk's own outcome |
| Lua.LuaScript.FromFile | src/games/stendhal/server/core/scripting/lua/LuaScript.java:41-63 | a file script is not a resource and its chunk name is the file name |
| Lua.LuaScript.FromStream | src/games/stendhal/server/core/scripting/lua/LuaScript.java:46-63 | a stream script is a resource (`isResource`) exactly when its stream is present, and its chunk name (`getChunkName`) is the one given |
| Lua.LuaScript.OnLoad | src/games/stendhal/server/core/scripting/lua/LuaScript.java:132-137 | the logger names the script and the environment is told the script is loaded; nothing else changes |
| Lua.LuaScript.OnUnload | src/games/stendhal/server/core/scripting/lua/LuaScript.java:142-147 | the environment is told the script is unloaded and the logger's file name is cleared |
| Lua.LuaScript.LoadStream | src/games/stendhal/server/core/scripting/lua/LuaScript.java:115-127 | the result is `StreamResult`; an IOException adds one error log entry |
| Lua.LuaScript.Load | src/games/stendhal/server/core/scripting/lua/LuaScript.java:75-96 | the chunk run is the stream path exactly for a script with a stream and the file path otherwise; after a normal return the outcome is `Succeeds` of the value, load and unload are both announced, the logger name is cleared and a warning is logged exactly on failure; after a raised error only the load is announced and the logger still names the script |
| Lua.LuaScript.LoadFor | src/games/stendhal/server/core/scripting/lua/LuaScript.java:66-68 | with a player and arguments, loading behaves exactly as `load()` |
| Lua.LuaScript.SetMusic | src/games/stendhal/server/core/scripting/lua/LuaScript.java:157-186 | one source with the folded settings is added exactly when no value failed the integer cast; the log gains exactly the unknown-key warnings |
| Lua.LuaScript.SetMusicDefault | src/games/stendhal/server/core/scripting/lua/LuaScript.java:194-196 | exactly one source is added, with radius 10000, volume 100 and position (1, 1), and nothing is logged |
| Lua.CastFailureIsFinal | src/games/stendhal/server/core/scripting/lua/LuaScript.java:164-166 | after a failed cast, later table entries change nothing |
| Lua.EmptyTableGivesDefaults | src/games/stendhal/server/core/scripting/lua/LuaScript.java:159-162 | an empty table gives volume 100, x 1, y 1, radius 10000 and no warning |
| Lua.UnknownKeyOnlyWarns | src/games/stendhal/server/core/scripting/lua/LuaScript.java:177-179 | an unknown key leaves the settings unchanged and adds one warning naming it |
| Lua.LastEntryWins | src/games/stendhal/server/core/scripting/lua/LuaScript.java:164-176 | with integer values only, each recognised setting is the value of its last entry, or its default when it has none |
| ZelanQuest.Transition | tests/data/script/quest/UnicornHornsForZelanTest.java:77-126 | karma changes only by +5, and only when the quest goes from "start" to "done"; a (state, word) pair outside the table changes nothing |
| ZelanQuest.Step | tests/data/script/quest/UnicornHornsForZelanTest.java:77-122 | text that is no known word changes nothing, and neither does a known word the current state has no entry for |
| ZelanQuest.Player.constructor | tests/data/script/quest/UnicornHornsForZelanTest.java:68-71 | a new player has no quest slot and no items |
| ZelanQuest.Player.EquipStack | tests/data/script/quest/UnicornHornsForZelanTest.java:106-114 | giving items raises that item's count by n and changes nothing else |
| ZelanQuest.Engine.constructor | tests/data/script/quest/UnicornHornsForZelanTest.java:72 | the conversation starts idle |
| ZelanQuest.Engine.StepWith | tests/data/script/quest/UnicornHornsForZelanTest.java:77 | a step on the engine and player objects changes them exactly as the transition table `Step` says |
| ZelanQuest.StepKeepsRewardAccounted | tests/data/script/quest/UnicornHornsForZelanTest.java:92-126 | every step keeps the invariant: karma and experience are unchanged until the slot is "done", and carry the bonus once after |
| ZelanQuest.RewardGrantedAtMostOnce | tests/data/script/quest/UnicornHornsForZelanTest.java:114-126 | from an unfinished quest, no sequence of utterances and gifts raises karma by more than 5 or experience by more than 50000 |
| ZelanQuest.AnswersToOffer | tests/data/script/quest/UnicornHornsForZelanTest.java:87-102 | "no" to the offer gives attending, slot "rejected" and the rejection reply; "yes" gives attending, slot "start" and the acceptance reply; karma is unchanged either way |
| ZelanQuest.DoneOutcomes | tests/data/script/quest/UnicornHornsForZelanTest.java:110-129 | "done" with fewer than 10 horns gives only the reminder; with 10 or more it sets "done", adds 5 karma and 50000 experience, takes 10 horns and gives 3 soups and 20000 money |
| ZelanQuest.OfferConversation | tests/data/script/quest/UnicornHornsForZelanTest.java:77-104 | the first conversation ends idle with the slot "start" and karma, experience and items unchanged |
| ZelanQuest.ShortConversation | tests/data/script/quest/UnicornHornsForZelanTest.java:106-112 | with nine horns the report changes nothing but the horn count |
| ZelanQuest.RewardConversation | tests/data/script/quest/UnicornHornsForZelanTest.java:114-129 | the tenth horn completes the quest with every reward the test checks |
| ZelanQuest.TestScenario | tests/data/script/quest/UnicornHornsForZelanTest.java:65-130 | the whole test from a fresh player ends idle, "done", with karma +5, experience +50000, no horns, 3 soups and 20000 money |
| ZelanQuest.OfferTest | tests/data/script/quest/UnicornHornsForZelanTest.java:77-104 | on the objects, the offer conversation leaves the slot "start" and karma, experience and items unchanged |
| ZelanQuest.ShortTest | tests/data/script/quest/UnicornHornsForZelanTest.java:108-112 | on the objects, reporting with too few horns changes nothing about the player |
| ZelanQuest.RewardTest | tests/data/script/quest/UnicornHornsForZelanTest.java:116-129 | on the objects, reporting with ten horns gives every reward and takes the horns |
| ZelanQuest.QuestTest | tests/data/script/quest/UnicornHornsForZelanTest.java:65-130 | on fresh engine and player objects, the three conversations of the test in turn end idle with the slot "done", karma 5, experience 50000, no horns, 3 soups and 20000 money |
| ExprMatcher.CharsMatchIsLowerEquality | tests/games/stendhal/server/entity/npc/parser/CaseInsensitiveExprMatcherTest.java:25 | two characters match ignoring case exactly when their lower-case forms are equal |
| ExprMatcher.Match | tests/games/stendhal/server/entity/npc/parser/CaseInsensitiveExprMatcherTest.java:17-29 | two expressions match exactly when their lower-cased words are equal |
| ExprMatcher.MatchIsEquivalence | tests/games/stendhal/server/entity/npc/parser/CaseInsensitiveExprMatcherTest.java:25-29 | matching is reflexive, symmetric and transitive |
| ExprMatcher.MatchIgnoresType | tests/games/stendhal/server/entity/npc/parser/CaseInsensitiveExprMatcherTest.java:27 | the type label never changes the result |
| ExprMatcher.DifferentLengthsDoNotMatch | tests/games/stendhal/server/entity/npc/parser/CaseInsensitiveExprMatcherTest.java:26 | words of different lengths, such as a proper prefix, never match |
| ExprMatcher.MatchUpToCase | tests/games/stendhal/server/entity/npc/parser/CaseInsensitiveExprMatcherTest.java:19-25 | a word matches every re-casing of its letters |
| ExprMatcher.UnitTestCases | tests/games/stendhal/server/entity/npc/parser/CaseInsensitiveExprMatcherTest.java:19-29 | the five assertions of the unit test hold |
| ClientEntity.HPFloaterShowsChange | srcjs/stendhal/entity/RPEntity.ts:598-604 | a non-zero change gives one floater whose text reads back as the change, "+" and green when positive, "-" and red when negative; zero gives none |
| ClientEntity.RPEntity.constructor | srcjs/stendhal/entity/RPEntity.ts:34-39 | a new entity has no attacker set, no target and no floaters, and satisfies the counter invariant |
| ClientEntity.RPEntity.OnTargeted | srcjs/stendhal/entity/RPEntity.ts:708-716 | the attacker set gains the id, created if missing; the counter rises by one only for a new id and stays equal to the number of ids |
| ClientEntity.RPEntity.OnAttackStopped | srcjs/stendhal/entity/RPEntity.ts:724-729 | the id is removed and the counter falls by one only if the id was there; the call throws, changing nothing, before the set exists; the invariant is kept |
| ClientEntity.RPEntity.SetTarget | srcjs/stendhal/entity/RPEntity.ts:55-62 | the old target loses this entity's id before the new target, looked up in the zone, gains it; an unknown name leaves no target; both attacker sets keep the counter invariant, also when old and new target are the same |
| ClientEntity.RPEntity.UnsetTarget | srcjs/stendhal/entity/RPEntity.ts:75-77 | the target loses this entity's id and the link is cleared |
| ClientEntity.RPEntity.Destroy | srcjs/stendhal/entity/RPEntity.ts:731-735 | the target loses this entity's id; the link itself stays |
| ClientEntity.RPEntity.OnHPChanged | srcjs/stendhal/entity/RPEntity.ts:598-604 | the floaters gain exactly the floater of the change |
| ClientEntity.RPEntity.SetHP | srcjs/stendhal/entity/RPEntity.ts:48-52 | the HP is stored, and when there was an HP before, the floater of the difference is added |
| ClientEntity.JsRem | srcjs/stendhal/entity/RPEntity.ts:209 | JavaScript's `%`: the remainder lies in 0..b-1 for a non-negative dividend and in -(b-1)..0 for a negative one |
| ClientEntity.DecodeOutfit | srcjs/stendhal/entity/RPEntity.ts:209-213 | a non-negative outfit code decodes into five layers, each in 0..99 |
| ClientEntity.DecodeEncode | srcjs/stendhal/entity/RPEntity.ts:209-213 | decoding the code of five layers in 0..99 gives back the same layers |
| ClientEntity.EncodeDecode | srcjs/stendhal/entity/RPEntity.ts:209-213 | every code below 10^10 is the code of its decoded layers |
| ClientEntity.Split | srcjs/stendhal/entity/RPEntity.ts:200-202 | splitting gives at least one piece, and no piece contains the separator |
| ClientEntity.JoinSplit | srcjs/stendhal/entity/RPEntity.ts:200-202 | joining the pieces with the separator gives the text back |
| ClientEntity.OutfitEntriesFromPieces | srcjs/stendhal/entity/RPEntity.ts:200-205 | every comma piece holding "=" puts its first "="-field in the decoded map, and every entry is the first two "="-fields of some piece |
| ClientEntity.ParsedEntriesAreClean | srcjs/stendhal/entity/RPEntity.ts:200-205 | the decoded keys and values of `outfit_ext` contain neither "," nor "=", and consist of characters of the text |
| ClientEntity.AppendedPairOverrides | srcjs/stendhal/entity/RPEntity.ts:200-205 | a "key=value" piece appended after a comma sets that key, overriding earlier pieces, and leaves the other keys alone |
| ClientEntity.AppendedPieceWithoutEqualsIgnored | srcjs/stendhal/entity/RPEntity.ts:201 | a piece without "=" changes nothing |
| ClientEntity.ValueStopsAtSecondEquals | srcjs/stendhal/entity/RPEntity.ts:202-203 | in "key=value=more" the value is the text between the first and second "=" |
| ClientEntity.PaddedIndex | srcjs/stendhal/entity/RPEntity.ts:253-258 | the padded index has at least three digits, reads back as the index, and is the plain decimal form from 100 on |
| ClientEntity.GetOutfitPart | srcjs/stendhal/entity/RPEntity.ts:248-271 | nothing exactly for a negative index; otherwise the layer's file, recoloured with "trueColor" exactly when the colours hold the layer's key (body and head use "skin") |
| ClientEntity.OutfitPathReadsBack | srcjs/stendhal/entity/RPEntity.ts:253-259 | the digits between the layer's folder and ".png" read back as the index |
| ClientEntity.OutfitPathsDistinct | srcjs/stendhal/entity/RPEntity.ts:253-259 | different indexes give different file names |
| ClientEntity.WalkFrame | srcjs/stendhal/entity/RPEntity.ts:484-491 | the walking frame is always below the number of frames |
| ClientEntity.WalkFramePingPong | srcjs/stendhal/entity/RPEntity.ts:484-491 | the frames repeat every 2n-2 steps, show frame k at step k on the way out, and are symmetric about the turn |
| ClientEntity.SpriteFrame | srcjs/stendhal/entity/RPEntity.ts:469-492 | the frame is in range; ents use one column and two rows; others use three columns and four rows, with the centre column when idle and the walking frame of time/100 while moving |
| ClientEntity.ThreeFrameCycle | srcjs/stendhal/entity/RPEntity.ts:484-491 | with three columns the frames cycle 0, 1, 2, 1 |
| Text.ParseInt | src/games/stendhal/tools/SimulateCombat.java:172-176 | a parsed value always fits in 32 bits |
| Text.ParseIntRoundTrip | src/games/stendhal/tools/SimulateCombat.java:172-176 | every 32-bit integer written in decimal parses back to itself |
| Text.DecimalStringValue | srcjs/stendhal/entity/RPEntity.ts:252 | the decimal digits of a number read back as the number |

## Left out

- Java's and JavaScript's full Unicode case mapping. Case mapping here
  covers the ASCII letters only. `Integer.parseInt` accepting non-ASCII
  digits is left out for the same reason.
- The `Math.log` level tables of `initEntities`. They are the parameters
  `atkLevel` and `defLevel`.
- Combat.RoundPercent: the percentages use exact rational arithmetic
  rounded half up. They do not model the double division and `Math.round`
  of the source, which can differ where a ratio lies next to a half.
- The unseen `damageDone`, `heal` and `setHP`.
  - Damage is the `Roll` parameters.
  - `heal` is taken to restore the base HP.
  - `setHP` is taken to store the value unclamped.
- `System.exit` and the printed text. They become the `Exit` and
  `Completion` values.
- The printed player and enemy statistics (item attack and defence are
  doubles).
- The LuaJ VM and the `ScriptInLua` environment. The script outcome is a
  parameter.
- Lua doubles and number strings, which a `toint` could also read. Script
  values are nil, integers, booleans or other values.
- `BackgroundMusicSource`, which is not part of this model. A source is
  recorded as its file name, radius, volume and position.
- `runAfter`, which hands off to the turn notifier.
- `getInstance` of the action manager (a synchronized lazy singleton),
  `onTalk`, `onAttack`, and the logging.
- Marauroa's `assignValidID`, which gives the item an id when it is added to
  a slot.
- The game world, zone and NPC set-up of the quest test. Utterance parsing
  and synonyms are left out too: only the exact words the test says have
  transitions.
- The `CaseInsensitiveExprMatcher` class, which is not part of this model.
  The matcher is modelled from its unit test.
- Canvas drawing in the web client: shadows, the draw order of outfit layers
  and the hats that hide hair, the health bar, titles, speech bubbles,
  attack sprites, status icons and sounds.
  - `Date.now()` is the parameter `now`.
  - The "Away", "Grumpy", "Back" and "Receptive" floaters and the XP-change
    floaters are not modelled.
- JavaScript number semantics: numbers are integers here, and HP is
  unbounded.
- ClientEntity.GetOutfitPart: the index is a number here. Values decoded
  from `outfit_ext` reach `getOutfitPart` as strings: its comparisons
  coerce them to numbers, but the padding concatenates the original text,
  so "05" gives "0005", "" gives "00" and "x" stays "x". The file names
  proved here hold for `outfit_ext` only when the value is a canonical
  decimal number.
- The item objects that player and enemy share. With `equipsame` the enemy
  is modelled as wearing the items as the player's boost left them. Any
  effect that equipping the enemy has on the player's own slots is not
  modelled.
- ClientEntity.DecodeOutfit: the decoding assumes an integer outfit code. A
  negative code gives JavaScript's negative remainders, which the model
  writes out but proves no range for.
- The client's `EntityTest` and the client entry point `stendhal.java`. They
  contain no logic of the modelled parts.
