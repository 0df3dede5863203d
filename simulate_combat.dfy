/** The command-line combat simulator: argument parsing into the tool's
    static settings, the checks that follow it, the setup of player and
    enemy, the turn-capped combat round and the tally of many rounds.
    Damage is random in the game; here it is a parameter: `dealt` and
    `received` give the damage of each side for a round index, a turn number
    and the hit points before the turn. */
module Combat {
  import opened Wrappers
  import opened Text
  import opened Arith

  const DefaultRounds: int := 1000
  const DefaultThreshold: int := 5
  const TurnLimit: nat := 1000
  const HighestLevel: int := 597

  /** The damage one side does at a turn: round index, turn number, player
      HP and enemy HP before the turn. */
  type Roll = (nat, nat, int, int) -> int

  /** The settings `parseArgs` fills in. */
  datatype Options = Options(rounds: int, threshold: int,
                             lvl: Option<int>, hp: Option<int>, atk: Option<int>, def: Option<int>,
                             barehanded: bool, equipsame: bool, noboost: bool, fair: bool)

  const Defaults: Options := Options(DefaultRounds, DefaultThreshold, None, None, None, None,
                                     false, false, false, false)

  /** Why the tool stops early: a help request, a usage error with its
      message, or an unknown argument. */
  datatype Exit = Help | UsageError(message: string) | UnknownArgument(token: string)

  /** The process exit status: 0 after help, 1 after an error. */
  function ExitStatus(e: Exit): (status: int)
    ensures status == 0 <==> e == Help
    ensures status == 1 <==> e != Help
  {
    if e == Help then 0 else 1
  }

  // ---------------------------------------------------------------------
  // Argument parsing

  predicate IsHelpWord(st: string) {
    st == "--help" || st == "-h" || st == "help"
  }

  /** The setting a value-taking option names, after lower-casing, with the
      aliases `--level`, `--attack` and `--defense`. */
  function ValueOption(st: string): (r: Option<string>)
    ensures r.Some? ==> IsSettingName(r.value)
  {
    if st == "--lvl" || st == "--level" then Some("lvl")
    else if st == "--hp" then Some("hp")
    else if st == "--atk" || st == "--attack" then Some("atk")
    else if st == "--def" || st == "--defense" then Some("def")
    else if st == "--rounds" then Some("rounds")
    else if st == "--threshold" then Some("threshold")
    else None
  }

  /** The six settings a value option stores into. */
  predicate IsSettingName(name: string) {
    name == "lvl" || name == "hp" || name == "atk" || name == "def" || name == "rounds" || name == "threshold"
  }

  /** The value of the setting `name` in `o`, if it has one. */
  function Setting(o: Options, name: string): Option<int> {
    if name == "lvl" then o.lvl
    else if name == "hp" then o.hp
    else if name == "atk" then o.atk
    else if name == "def" then o.def
    else if name == "rounds" then Some(o.rounds)
    else if name == "threshold" then Some(o.threshold)
    else None
  }

  predicate IsFlag(st: string) {
    st == "--barehanded" || st == "--equipsame" || st == "--noboost" || st == "--fair"
  }

  /** Whether flag `st` is set in `o`. */
  predicate FlagSet(o: Options, st: string) {
    (st == "--barehanded" && o.barehanded) || (st == "--equipsame" && o.equipsame)
    || (st == "--noboost" && o.noboost) || (st == "--fair" && o.fair)
  }

  function SetFlag(o: Options, st: string): (o': Options)
    requires IsFlag(st)
    ensures FlagSet(o', st)
    ensures o'.rounds == o.rounds && o'.threshold == o.threshold && o'.lvl == o.lvl
            && o'.hp == o.hp && o'.atk == o.atk && o'.def == o.def
  {
    if st == "--barehanded" then o.(barehanded := true)
    else if st == "--equipsame" then o.(equipsame := true)
    else if st == "--noboost" then o.(noboost := true)
    else o.(fair := true)
  }

  /** Storing the value of an option: the named setting takes the value,
      every other setting and every flag stays as it was. */
  function SetValue(o: Options, name: string, v: int): (o': Options)
    requires IsSettingName(name)
    ensures Setting(o', name) == Some(v)
    ensures forall n :: IsSettingName(n) && n != name ==> Setting(o', n) == Setting(o, n)
    ensures o'.barehanded == o.barehanded && o'.equipsame == o.equipsame
            && o'.noboost == o.noboost && o'.fair == o.fair
  {
    if name == "lvl" then o.(lvl := Some(v))
    else if name == "hp" then o.(hp := Some(v))
    else if name == "atk" then o.(atk := Some(v))
    else if name == "def" then o.(def := Some(v))
    else if name == "rounds" then o.(rounds := v)
    else o.(threshold := v)
  }

  /** The settings when parsing stopped, and why it stopped early, if it did. */
  datatype ParseResult = ParseResult(options: Options, exit: Option<Exit>)

  /** `parseArgs` from token `idx` on, with settings `o` and the unknown
      (lower-cased) tokens `unknown` collected so far. A help word stops at
      once; a value option with no token after it, or whose next token is not
      a 32-bit integer, stops with a usage error; a value option consumes the
      token after it; any other token that is not a flag is collected, and
      the first collected token is reported when the tokens run out. */
  function ParseFrom(argv: seq<string>, idx: nat, o: Options, unknown: seq<string>): (r: ParseResult)
    requires idx <= |argv|
    decreases |argv| - idx
  {
    if idx == |argv| then
      ParseResult(o, if unknown != [] then Some(UnknownArgument(unknown[0])) else None)
    else
      var st := Lower(argv[idx]);
      if IsHelpWord(st) then ParseResult(o, Some(Help))
      else if ValueOption(st).Some? then
        var name := ValueOption(st).value;
        if |argv| < idx + 2 then ParseResult(o, Some(UsageError(name + " argument requires value")))
        else match ParseInt(argv[idx + 1])
          case None => ParseResult(o, Some(UsageError(name + " argument must be an integer number")))
          case Some(v) => ParseFrom(argv, idx + 2, SetValue(o, name, v), unknown)
      else if IsFlag(st) then ParseFrom(argv, idx + 1, SetFlag(o, st), unknown)
      else ParseFrom(argv, idx + 1, o, unknown + [st])
  }

  function Parse(argv: seq<string>): ParseResult {
    ParseFrom(argv, 0, Defaults, [])
  }

  /** A token that reads as a number is no flag in any letter case. */
  lemma NumberIsNotFlag(s: string, flag: string)
    requires IsFlag(flag) && ParseInt(s).Some?
    ensures Lower(s) != flag
  {
    DashesAreNotNumbers(s);
  }

  /** Some token from `idx` on lower-cases to `st`. */
  ghost predicate Mentions(argv: seq<string>, idx: nat, st: string) {
    exists i :: idx <= i < |argv| && Lower(argv[i]) == st
  }

  lemma MentionsStep(argv: seq<string>, idx: nat, st: string)
    requires idx < |argv|
    ensures Mentions(argv, idx, st) <==> Lower(argv[idx]) == st || Mentions(argv, idx + 1, st)
  {
    if Mentions(argv, idx, st) && Lower(argv[idx]) != st {
      var i :| idx <= i < |argv| && Lower(argv[i]) == st;
      assert idx + 1 <= i;
    }
  }

  /** Once a token is unknown, parsing cannot succeed: it stops with help, a
      usage error, or the report of the first unknown token. An unknown
      token reported is one of the tokens, lower-cased. */
  lemma {:induction false} UnknownTokensAreReported(argv: seq<string>, idx: nat, o: Options, unknown: seq<string>)
    requires idx <= |argv|
    ensures var r := ParseFrom(argv, idx, o, unknown);
            (unknown != [] ==> r.exit.Some?)
            && (unknown != [] && r.exit.Some? && r.exit.value.UnknownArgument? ==> r.exit.value.token == unknown[0])
            && (r.exit.Some? && r.exit.value.UnknownArgument? ==>
                  r.exit.value.token in unknown || Mentions(argv, idx, r.exit.value.token))
    decreases |argv| - idx
  {
    if idx < |argv| {
      var st := Lower(argv[idx]);
      var r := ParseFrom(argv, idx, o, unknown);
      if r.exit.Some? && r.exit.value.UnknownArgument? {
        MentionsStep(argv, idx, r.exit.value.token);
      }
      if ValueOption(st).Some? {
        if |argv| >= idx + 2 && ParseInt(argv[idx + 1]).Some? {
          UnknownTokensAreReported(argv, idx + 2, SetValue(o, ValueOption(st).value, ParseInt(argv[idx + 1]).value), unknown);
          if r.exit.Some? && r.exit.value.UnknownArgument? {
            MentionsStep(argv, idx + 1, r.exit.value.token);
          }
        }
      } else if IsFlag(st) {
        UnknownTokensAreReported(argv, idx + 1, SetFlag(o, st), unknown);
      } else if !IsHelpWord(st) {
        UnknownTokensAreReported(argv, idx + 1, o, unknown + [st]);
      }
    }
  }

  /** A token that lower-cases to "--..." is never a number, so it cannot be
      consumed as an option's value without an error. */
  lemma DashesAreNotNumbers(s: string)
    ensures |s| >= 2 && LowerChar(s[0]) == '-' && LowerChar(s[1]) == '-' ==> ParseInt(s) == None
  {
    if |s| >= 2 {
      assert s[1..][0] == s[1];
    }
  }

  /** A value option that parses on consumes its value token. */
  lemma ValueStep(argv: seq<string>, idx: nat, o: Options, unknown: seq<string>)
    requires idx < |argv| && ValueOption(Lower(argv[idx])).Some?
    requires ParseFrom(argv, idx, o, unknown).exit.None?
    ensures idx + 2 <= |argv| && ParseInt(argv[idx + 1]).Some?
    ensures ParseFrom(argv, idx, o, unknown)
            == ParseFrom(argv, idx + 2, SetValue(o, ValueOption(Lower(argv[idx])).value, ParseInt(argv[idx + 1]).value), unknown)
  {
  }

  /** A token that is neither help nor a value option moves on by one: a
      flag is set, anything else is collected. */
  lemma PlainStep(argv: seq<string>, idx: nat, o: Options, unknown: seq<string>)
    requires idx < |argv| && !IsHelpWord(Lower(argv[idx])) && ValueOption(Lower(argv[idx])).None?
    ensures var st := Lower(argv[idx]);
            ParseFrom(argv, idx, o, unknown)
            == if IsFlag(st) then ParseFrom(argv, idx + 1, SetFlag(o, st), unknown)
               else ParseFrom(argv, idx + 1, o, unknown + [st])
  {
  }

  /** When parsing completes, a flag is set exactly when it was set before or
      one of the remaining tokens is that flag in any letter case: a flag
      token is never swallowed as a value, since it is not a number. */
  lemma {:induction false} FlagTokensSetFlags(argv: seq<string>, idx: nat, o: Options, unknown: seq<string>, flag: string)
    requires idx <= |argv| && IsFlag(flag)
    requires ParseFrom(argv, idx, o, unknown).exit.None?
    ensures FlagSet(ParseFrom(argv, idx, o, unknown).options, flag) <==> FlagSet(o, flag) || Mentions(argv, idx, flag)
    decreases |argv| - idx
  {
    if idx < |argv| {
      var st := Lower(argv[idx]);
      MentionsStep(argv, idx, flag);
      if ValueOption(st).Some? {
        ValueStep(argv, idx, o, unknown);
        var o' := SetValue(o, ValueOption(st).value, ParseInt(argv[idx + 1]).value);
        FlagTokensSetFlags(argv, idx + 2, o', unknown, flag);
        MentionsStep(argv, idx + 1, flag);
        NumberIsNotFlag(argv[idx + 1], flag);
      } else if !IsHelpWord(st) {
        PlainStep(argv, idx, o, unknown);
        if IsFlag(st) {
          FlagTokensSetFlags(argv, idx + 1, SetFlag(o, st), unknown, flag);
        } else {
          FlagTokensSetFlags(argv, idx + 1, o, unknown + [st], flag);
        }
      }
    }
  }

  /** The value after the last token from `idx` on that names setting `name`
      and is followed by an integer, if there is one. */
  function LastValue(argv: seq<string>, idx: nat, name: string): Option<int>
    requires idx <= |argv|
    decreases |argv| - idx
  {
    if idx == |argv| then None
    else if LastValue(argv, idx + 1, name).Some? then LastValue(argv, idx + 1, name)
    else if ValueOption(Lower(argv[idx])) == Some(name) && idx + 1 < |argv| && ParseInt(argv[idx + 1]).Some? then
      Some(ParseInt(argv[idx + 1]).value)
    else None
  }

  /** A token that reads as a number names no setting in any letter case. */
  lemma NumberIsNoOption(s: string)
    requires ParseInt(s).Some?
    ensures ValueOption(Lower(s)).None?
  {
    DashesAreNotNumbers(s);
  }

  /** When parsing completes, each setting holds the value given after the
      last option naming it, or keeps its value when no option names it: a
      later `--lvl` overrides an earlier one. */
  lemma {:induction false} ValueTokensSetValues(argv: seq<string>, idx: nat, o: Options, unknown: seq<string>, name: string)
    requires idx <= |argv| && IsSettingName(name)
    requires ParseFrom(argv, idx, o, unknown).exit.None?
    ensures Setting(ParseFrom(argv, idx, o, unknown).options, name)
            == if LastValue(argv, idx, name).Some? then LastValue(argv, idx, name) else Setting(o, name)
    decreases |argv| - idx
  {
    if idx < |argv| {
      var st := Lower(argv[idx]);
      if ValueOption(st).Some? {
        ValueStep(argv, idx, o, unknown);
        var o' := SetValue(o, ValueOption(st).value, ParseInt(argv[idx + 1]).value);
        ValueTokensSetValues(argv, idx + 2, o', unknown, name);
        NumberIsNoOption(argv[idx + 1]);
        assert LastValue(argv, idx + 1, name) == LastValue(argv, idx + 2, name);
      } else if !IsHelpWord(st) {
        PlainStep(argv, idx, o, unknown);
        if IsFlag(st) {
          ValueTokensSetValues(argv, idx + 1, SetFlag(o, st), unknown, name);
        } else {
          ValueTokensSetValues(argv, idx + 1, o, unknown + [st], name);
        }
      }
    }
  }

  /** Parsing reads only the tokens from `idx` on. */
  lemma {:induction false} ParseReadsSuffix(argv: seq<string>, idx: nat, o: Options, unknown: seq<string>)
    requires idx <= |argv|
    ensures ParseFrom(argv, idx, o, unknown) == ParseFrom(argv[idx..], 0, o, unknown)
    decreases |argv| - idx
  {
    if idx < |argv| {
      var rest := argv[idx..];
      var st := Lower(argv[idx]);
      assert rest[0] == argv[idx];
      if ValueOption(st).Some? && |argv| >= idx + 2 && ParseInt(argv[idx + 1]).Some? {
        var o' := SetValue(o, ValueOption(st).value, ParseInt(argv[idx + 1]).value);
        ParseReadsSuffix(argv, idx + 2, o', unknown);
        ParseReadsSuffix(rest, 2, o', unknown);
        assert rest[2..] == argv[idx + 2..];
      } else if !IsHelpWord(st) && ValueOption(st).None? {
        var o' := if IsFlag(st) then SetFlag(o, st) else o;
        var u' := if IsFlag(st) then unknown else unknown + [st];
        ParseReadsSuffix(argv, idx + 1, o', u');
        ParseReadsSuffix(rest, 1, o', u');
        assert rest[1..] == argv[idx + 1..];
      }
    }
  }

  /** The option names are matched in any letter case and through their
      aliases: `--LEVEL 5` parses like `--lvl 5`, whatever follows. */
  lemma AliasesAgree(alias: string, name: string, value: string, rest: seq<string>)
    requires (Lower(alias) == "--level" && name == "--lvl") || (Lower(alias) == "--attack" && name == "--atk")
             || (Lower(alias) == "--defense" && name == "--def")
    ensures Parse([alias, value] + rest) == Parse([name, value] + rest)
  {
    var a := [alias, value] + rest;
    var b := [name, value] + rest;
    assert Lower(name) == name;
    assert a[0] == alias && a[1] == value && b[0] == name && b[1] == value;
    if ParseInt(value).Some? {
      var o := SetValue(Defaults, ValueOption(Lower(alias)).value, ParseInt(value).value);
      ParseReadsSuffix(a, 2, o, []);
      ParseReadsSuffix(b, 2, o, []);
      assert a[2..] == rest && b[2..] == rest;
    }
  }

  /** A value option as the last token is an error that names the setting,
      with exit status 1. */
  lemma MissingValue(argv: seq<string>, o: Options, unknown: seq<string>)
    requires |argv| >= 1 && ValueOption(Lower(argv[|argv| - 1])).Some?
    ensures var r := ParseFrom(argv, |argv| - 1, o, unknown);
            r.exit == Some(UsageError(ValueOption(Lower(argv[|argv| - 1])).value + " argument requires value"))
            && ExitStatus(r.exit.value) == 1
  {
  }

  /** The first unknown token is the one reported, even when a later option
      is in error-free form; a later help word still wins. */
  lemma FirstUnknownReported(a: string, b: string)
    requires !IsHelpWord(Lower(a)) && ValueOption(Lower(a)).None? && !IsFlag(Lower(a))
    requires !IsHelpWord(Lower(b)) && ValueOption(Lower(b)).None? && !IsFlag(Lower(b))
    ensures Parse([a, b]).exit == Some(UnknownArgument(Lower(a)))
    ensures Parse([a, "-H"]).exit == Some(Help)
  {
    var s1 := [a, b];
    assert s1[0] == a && s1[1] == b;
    assert ParseFrom(s1, 2, Defaults, [Lower(a), Lower(b)]).exit == Some(UnknownArgument(Lower(a)));
    assert ParseFrom(s1, 1, Defaults, [Lower(a)]) == ParseFrom(s1, 2, Defaults, [Lower(a), Lower(b)]);
    var none: seq<string> := [];
    assert none + [Lower(a)] == [Lower(a)];
    assert ParseFrom(s1, 0, Defaults, none) == ParseFrom(s1, 1, Defaults, [Lower(a)]);
    var s2 := [a, "-H"];
    assert s2[0] == a && s2[1] == "-H";
    assert Lower("-H") == "-h";
    assert ParseFrom(s2, 1, Defaults, [Lower(a)]).exit == Some(Help);
    assert ParseFrom(s2, 0, Defaults, none) == ParseFrom(s2, 1, Defaults, [Lower(a)]);
  }

  // ---------------------------------------------------------------------
  // Validation

  /** The checks `main` makes after parsing, in their order; `None` when all
      pass. */
  function Validate(o: Options): (r: Option<Exit>)
    ensures r.None? <==> o.rounds >= 1 && 1 <= o.threshold <= 100
                         && o.lvl.Some? && o.hp.Some? && o.atk.Some? && o.def.Some?
    ensures o.rounds < 1 ==> r == Some(UsageError("rounds argument must be a postive number"))
    ensures r.Some? ==> r.value.UsageError? && ExitStatus(r.value) == 1
  {
    if o.rounds < 1 then Some(UsageError("rounds argument must be a postive number"))
    else if o.threshold < 1 || o.threshold > 100 then
      Some(UsageError("threshold argument must be a number between 1 & 100"))
    else if o.lvl.None? then Some(UsageError("lvl argument must be set"))
    else if o.hp.None? then Some(UsageError("hp argument must be set"))
    else if o.atk.None? then Some(UsageError("atk argument must be set"))
    else if o.def.None? then Some(UsageError("def argument must be set"))
    else None
  }

  /** The checks come in a fixed order: the first failing one is reported. */
  lemma ValidationOrder(o: Options)
    ensures o.rounds >= 1 && (o.threshold < 1 || o.threshold > 100) ==>
              Validate(o) == Some(UsageError("threshold argument must be a number between 1 & 100"))
    ensures o.rounds >= 1 && 1 <= o.threshold <= 100 && o.lvl.None? ==>
              Validate(o) == Some(UsageError("lvl argument must be set"))
    ensures o.rounds >= 1 && 1 <= o.threshold <= 100 && o.lvl.Some? && o.hp.None? ==>
              Validate(o) == Some(UsageError("hp argument must be set"))
    ensures o.rounds >= 1 && 1 <= o.threshold <= 100 && o.lvl.Some? && o.hp.Some? && o.atk.None? ==>
              Validate(o) == Some(UsageError("atk argument must be set"))
    ensures o.rounds >= 1 && 1 <= o.threshold <= 100 && o.lvl.Some? && o.hp.Some? && o.atk.Some? && o.def.None? ==>
              Validate(o) == Some(UsageError("def argument must be set"))
  {
  }

  /** With no arguments the defaults pass the first two checks and the
      missing level is reported. */
  lemma NoArgumentsNeedLevel()
    ensures Parse([]) == ParseResult(Defaults, None)
    ensures Validate(Defaults) == Some(UsageError("lvl argument must be set"))
  {
  }

  // ---------------------------------------------------------------------
  // Entities

  /** An item in an equipment slot, with the stat (`atk` for the weapon,
      `def` otherwise) that the boost overrides, if any. */
  datatype Gear = Gear(item: string, boost: Option<int>)

  datatype Combatant = Combatant(level: int, baseHP: int, atk: int, def: int, equipment: map<string, Gear>)

  /** The six-piece kit, with the boosts for level `lvl` when `boost` holds. */
  function Kit(lvl: int, boost: bool): (m: map<string, Gear>)
    ensures m.Keys == {"lhand", "rhand", "armor", "head", "legs", "feet"}
  {
    map["lhand" := Gear("wooden shield", if boost then Some(ShieldBoost(lvl)) else None),
        "rhand" := Gear("club", if boost then Some(7 + lvl * 2 / 6) else None),
        "armor" := Gear("dress", if boost then Some(1 + lvl / 4) else None),
        "head" := Gear("leather helmet", if boost then Some(1 + lvl / 7) else None),
        "legs" := Gear("leather legs", if boost then Some(1 + lvl / 7) else None),
        "feet" := Gear("leather boots", if boost then Some(1 + lvl / 10) else None)]
  }

  function ShieldBoost(lvl: int): int {
    if lvl == 0 then 0 else 12 + lvl / 8
  }

  /** The player's equipment: the "soul dagger" alone with `fair`, nothing
      when bare-handed, otherwise the kit, boosted unless `noboost`. */
  function PlayerEquipment(o: Options, lvl: int): map<string, Gear> {
    if o.fair then map["rhand" := Gear("soul dagger", None)]
    else if !o.barehanded then Kit(lvl, !o.noboost)
    else map[]
  }

  /** The player at level `lvl`: 100 + 10·lvl hit points and the attack and
      defence of the level tables. */
  function PlayerFor(o: Options, lvl: int, atkLevel: int -> int, defLevel: int -> int): Combatant {
    Combatant(lvl, 100 + 10 * lvl, atkLevel(lvl), defLevel(lvl), PlayerEquipment(o, lvl))
  }

  /** The enemy: the given hit points, attack, defence and level, with the
      kit exactly when not bare-handed and `equipsame`. The enemy is handed
      the very item objects fetched for the player, so it carries the
      player's boosts whenever the player's kit was boosted. */
  function EnemyFor(o: Options, lvl: int, hp: int, atk: int, def: int): Combatant {
    Combatant(lvl, hp, atk, def, if !o.barehanded && o.equipsame then Kit(lvl, !o.fair && !o.noboost) else map[])
  }

  /** `fair` overrides `barehanded`; without either the player wears the whole
      kit; the enemy is equipped only with `equipsame`, wears the player's
      kit as boosted when the player wears it, and is unboosted otherwise. */
  lemma LoadoutRules(o: Options, lvl: int, hp: int, atk: int, def: int)
    ensures o.fair ==> PlayerEquipment(o, lvl).Keys == {"rhand"}
                       && PlayerEquipment(o, lvl)["rhand"].item == "soul dagger"
    ensures !o.fair && o.barehanded ==> PlayerEquipment(o, lvl) == map[]
    ensures !o.fair && !o.barehanded ==> PlayerEquipment(o, lvl).Keys == {"lhand", "rhand", "armor", "head", "legs", "feet"}
    ensures EnemyFor(o, lvl, hp, atk, def).equipment != map[] <==> !o.barehanded && o.equipsame
    ensures !o.fair && !o.barehanded && o.equipsame ==> EnemyFor(o, lvl, hp, atk, def).equipment == PlayerEquipment(o, lvl)
    ensures o.fair || o.noboost ==>
              forall s :: s in EnemyFor(o, lvl, hp, atk, def).equipment ==> EnemyFor(o, lvl, hp, atk, def).equipment[s].boost.None?
    ensures !o.fair && !o.noboost && !o.barehanded && o.equipsame ==>
              forall s :: s in EnemyFor(o, lvl, hp, atk, def).equipment ==> EnemyFor(o, lvl, hp, atk, def).equipment[s].boost.Some?
  {
    if !o.barehanded && o.equipsame {
      assert "rhand" in Kit(lvl, !o.fair && !o.noboost);
    }
  }

  /** The boosted weapon's attack `7 + lvl*2/6` is `7 + lvl/3`, and the shield
      gives nothing at level 0 and at least 12 above it. */
  lemma BoostFormulas(lvl: int)
    requires 0 <= lvl
    ensures Kit(lvl, true)["rhand"].boost == Some(7 + lvl / 3)
    ensures Kit(lvl, true)["lhand"].boost == Some(if lvl == 0 then 0 else 12 + lvl / 8)
    ensures lvl > 0 ==> Kit(lvl, true)["lhand"].boost.value >= 12
    ensures Kit(lvl, true)["armor"].boost.value >= Kit(lvl, true)["head"].boost.value
            >= Kit(lvl, true)["feet"].boost.value >= 1
  {
    DivUnique(lvl * 2, 6, lvl / 3, 2 * (lvl % 3));
  }

  // ---------------------------------------------------------------------
  // Rounds

  /** The end of a round: both hit points, the number of turns, and whether
      the turn limit cut it short. */
  datatype RoundResult = RoundResult(playerHP: int, enemyHP: int, turns: nat, incomplete: bool)

  /** A round from turn `turn` with hit points `php` and `ehp`: while both
      are positive, a turn computes both damages from the hit points before
      it and then applies them; after turn `TurnLimit` with both still
      positive the round stops and is incomplete. */
  function RoundFrom(ridx: nat, turn: nat, php: int, ehp: int, dealt: Roll, received: Roll): (r: RoundResult)
    requires turn <= TurnLimit && (turn == TurnLimit ==> !(php > 0 && ehp > 0))
    ensures !(php > 0 && ehp > 0) ==> r == RoundResult(php, ehp, turn, false)
    decreases TurnLimit - turn
  {
    if !(php > 0 && ehp > 0) then RoundResult(php, ehp, turn, false)
    else
      var t := turn + 1;
      var p := php - received(ridx, t, php, ehp);
      var e := ehp - dealt(ridx, t, php, ehp);
      if t == TurnLimit && p > 0 && e > 0 then RoundResult(p, e, t, true)
      else RoundFrom(ridx, t, p, e, dealt, received)
  }

  /** One turn of a round between living sides. */
  lemma RoundStep(ridx: nat, turn: nat, php: int, ehp: int, dealt: Roll, received: Roll)
    requires turn < TurnLimit && php > 0 && ehp > 0
    ensures var t := turn + 1;
            var p := php - received(ridx, t, php, ehp);
            var e := ehp - dealt(ridx, t, php, ehp);
            RoundFrom(ridx, turn, php, ehp, dealt, received)
            == if t == TurnLimit && p > 0 && e > 0 then RoundResult(p, e, t, true)
               else RoundFrom(ridx, t, p, e, dealt, received)
  {
  }

  /** Round `ridx` between fully healed sides. */
  function Round(ridx: nat, playerHP: int, enemyHP: int, dealt: Roll, received: Roll): RoundResult {
    RoundFrom(ridx, 0, playerHP, enemyHP, dealt, received)
  }

  /** A round from turn `turn` ends by turn `TurnLimit`; it is incomplete
      exactly when it took all `TurnLimit` turns and both sides are still up;
      otherwise one side is down. */
  lemma {:induction false} RoundBounds(ridx: nat, turn: nat, php: int, ehp: int, dealt: Roll, received: Roll)
    requires turn <= TurnLimit && (turn == TurnLimit ==> !(php > 0 && ehp > 0))
    ensures var r := RoundFrom(ridx, turn, php, ehp, dealt, received);
            turn <= r.turns <= TurnLimit
            && (r.incomplete <==> r.turns == TurnLimit && r.playerHP > 0 && r.enemyHP > 0)
            && (!r.incomplete ==> r.playerHP <= 0 || r.enemyHP <= 0)
    decreases TurnLimit - turn
  {
    if php > 0 && ehp > 0 {
      var t := turn + 1;
      var p := php - received(ridx, t, php, ehp);
      var e := ehp - dealt(ridx, t, php, ehp);
      if !(t == TurnLimit && p > 0 && e > 0) {
        RoundBounds(ridx, t, p, e, dealt, received);
      }
    }
  }

  /** A whole round takes at most `TurnLimit` turns, is counted incomplete
      exactly when turn `TurnLimit` ends with both sides up, and otherwise
      ends with a side down. */
  lemma RoundIsCapped(ridx: nat, playerHP: int, enemyHP: int, dealt: Roll, received: Roll)
    ensures var r := Round(ridx, playerHP, enemyHP, dealt, received);
            r.turns <= TurnLimit
            && (r.incomplete <==> r.turns == TurnLimit && r.playerHP > 0 && r.enemyHP > 0)
            && (!r.incomplete ==> r.playerHP <= 0 || r.enemyHP <= 0)
  {
    RoundBounds(ridx, 0, playerHP, enemyHP, dealt, received);
  }

  /** When neither side ever does damage, a round between living sides runs
      into the turn limit with the hit points untouched. */
  lemma {:induction false} HarmlessRoundIsIncomplete(ridx: nat, turn: nat, php: int, ehp: int, dealt: Roll, received: Roll)
    requires turn < TurnLimit && php > 0 && ehp > 0
    requires forall t, p, e :: dealt(ridx, t, p, e) == 0 && received(ridx, t, p, e) == 0
    ensures RoundFrom(ridx, turn, php, ehp, dealt, received) == RoundResult(php, ehp, TurnLimit, true)
    decreases TurnLimit - turn
  {
    assert dealt(ridx, turn + 1, php, ehp) == 0 && received(ridx, turn + 1, php, ehp) == 0;
    if turn + 1 < TurnLimit {
      HarmlessRoundIsIncomplete(ridx, turn + 1, php, ehp, dealt, received);
    }
  }

  /** Both damages of a turn come from the hit points before it, so both
      sides can fall in the same turn: a first turn that is lethal both ways
      ends the round after one turn with both sides down. */
  lemma MutualKnockout(ridx: nat, php: int, ehp: int, dealt: Roll, received: Roll)
    requires php > 0 && ehp > 0
    requires received(ridx, 1, php, ehp) >= php && dealt(ridx, 1, php, ehp) >= ehp
    ensures var r := Round(ridx, php, ehp, dealt, received);
            r.turns == 1 && r.playerHP <= 0 && r.enemyHP <= 0 && !r.incomplete
  {
  }

  /** A side that starts without hit points ends the round before any
      turn. */
  lemma DeadStart(ridx: nat, php: int, ehp: int, dealt: Roll, received: Roll)
    requires php <= 0 || ehp <= 0
    ensures Round(ridx, php, ehp, dealt, received) == RoundResult(php, ehp, 0, false)
  {
  }

  // ---------------------------------------------------------------------
  // Tally and verdict

  datatype Tally = Tally(wins: nat, losses: nat, ties: nat)

  /** Counting one more round: a win when the player has more hit points
      left, a loss when fewer, a tie when equal. */
  function Count(t: Tally, r: RoundResult): (t': Tally)
    ensures t'.wins + t'.losses + t'.ties == t.wins + t.losses + t.ties + 1
  {
    if r.playerHP > r.enemyHP then t.(wins := t.wins + 1)
    else if r.playerHP < r.enemyHP then t.(losses := t.losses + 1)
    else t.(ties := t.ties + 1)
  }

  /** The tally of rounds 0 .. n-1: each round counts once. */
  function TallyUpTo(n: nat, playerHP: int, enemyHP: int, dealt: Roll, received: Roll): (t: Tally)
    ensures t.wins + t.losses + t.ties == n
  {
    if n == 0 then Tally(0, 0, 0)
    else Count(TallyUpTo(n - 1, playerHP, enemyHP, dealt, received), Round(n - 1, playerHP, enemyHP, dealt, received))
  }

  /** How many of rounds 0 .. n-1 were cut short. */
  function IncompleteUpTo(n: nat, playerHP: int, enemyHP: int, dealt: Roll, received: Roll): (k: nat)
    ensures k <= n
  {
    if n == 0 then 0
    else IncompleteUpTo(n - 1, playerHP, enemyHP, dealt, received)
         + (if Round(n - 1, playerHP, enemyHP, dealt, received).incomplete then 1 else 0)
  }

  /** `k` out of `n` as a percentage rounded half up, as `Math.round` does
      with the exact ratio. */
  function RoundPercent(k: nat, n: nat): int
    requires n > 0
  {
    (200 * k + n) / (2 * n)
  }

  /** The percentage is the integer nearest to 100·k/n, halves rounded up,
      and lies in 0..100 for a count out of `n`. */
  lemma RoundPercentIsNearest(k: nat, n: nat)
    requires n > 0
    ensures var p := RoundPercent(k, n);
            n * (2 * p - 1) <= 200 * k < n * (2 * p + 1) && (k <= n ==> 0 <= p <= 100)
  {
    var p := (200 * k + n) / (2 * n);
    DivUnique(200 * k + n, 2 * n, p, (200 * k + n) % (2 * n));
    if k <= n && p > 100 {
      MulAtLeast(p - 100, 2 * n);
    }
  }

  /** `p` is the percentage `Math.round` gives for `k` out of `n`: the
      integer nearest to 100·k/n, halves rounded up, within 0..100. */
  predicate IsNearestPercent(p: int, k: nat, n: nat) {
    n * (2 * p - 1) <= 200 * k < n * (2 * p + 1) && 0 <= p <= 100
  }

  /** At most one percentage is nearest: the ratios the verdict states are
      determined by the counts. */
  lemma NearestPercentIsUnique(p: int, q: int, k: nat, n: nat)
    requires n > 0 && IsNearestPercent(p, k, n) && IsNearestPercent(q, k, n)
    ensures p == q
  {
  }

  /** What `runSimulation` reports. */
  datatype Report = Report(wins: nat, losses: nat, ties: nat,
                           winRatio: int, lossRatio: int, tieRatio: int,
                           incompleteRounds: int, diffRatio: int, beneficiary: string,
                           withinThreshold: bool)

  /** The verdict for a tally over `rounds` rounds: the side with more wins
      benefits, by its ratio minus the other two; equal wins and losses mean
      no difference and no beneficiary. */
  function Verdict(t: Tally, rounds: nat, threshold: int, incomplete: int): (r: Report)
    requires rounds > 0 && t.wins + t.losses + t.ties == rounds
    ensures r.wins == t.wins && r.losses == t.losses && r.ties == t.ties && r.wins + r.losses + r.ties == rounds
    ensures IsNearestPercent(r.winRatio, t.wins, rounds)
    ensures IsNearestPercent(r.lossRatio, t.losses, rounds)
    ensures IsNearestPercent(r.tieRatio, t.ties, rounds)
    ensures t.wins > t.losses ==> r.diffRatio == r.winRatio - r.lossRatio - r.tieRatio
    ensures t.wins < t.losses ==> r.diffRatio == r.lossRatio - r.winRatio - r.tieRatio
    ensures t.wins == t.losses ==> r.diffRatio == 0
    ensures r.beneficiary == "player" <==> t.wins > t.losses
    ensures r.beneficiary == "enemy" <==> t.wins < t.losses
    ensures r.beneficiary == "none" <==> t.wins == t.losses
    ensures r.diffRatio <= 100
    ensures r.withinThreshold <==> r.diffRatio <= threshold
  {
    RoundPercentIsNearest(t.wins, rounds);
    RoundPercentIsNearest(t.losses, rounds);
    RoundPercentIsNearest(t.ties, rounds);
    var win := RoundPercent(t.wins, rounds);
    var loss := RoundPercent(t.losses, rounds);
    var tie := RoundPercent(t.ties, rounds);
    var diff := if t.wins > t.losses then win - loss - tie else if t.wins < t.losses then loss - win - tie else 0;
    var beneficiary := if t.wins > t.losses then "player" else if t.wins < t.losses then "enemy" else "none";
    Report(t.wins, t.losses, t.ties, win, loss, tie, incomplete, diff, beneficiary, diff <= threshold)
  }

  /** The verdict depends on the settings only through their values: equal
      round counts, starting hit points and thresholds give equal verdicts
      and equal counts of cut-short rounds. */
  lemma SameSettingsSameVerdict(n: nat, n': nat, php: int, php': int, ehp: int, ehp': int, threshold: int, threshold': int,
                                before: int, inc: int, dealt: Roll, received: Roll)
    requires n > 0 && n == n' && php == php' && ehp == ehp' && threshold == threshold'
    ensures before + IncompleteUpTo(n, php, ehp, dealt, received) == before + IncompleteUpTo(n', php', ehp', dealt, received)
    ensures Verdict(TallyUpTo(n, php, ehp, dealt, received), n, threshold, inc)
            == Verdict(TallyUpTo(n', php', ehp', dealt, received), n', threshold', inc)
  {
  }

  /** An even split between wins and losses is within any valid threshold. */
  lemma EvenSplitIsBalanced(t: Tally, rounds: nat, threshold: int, incomplete: int)
    requires rounds > 0 && t.wins + t.losses + t.ties == rounds && t.wins == t.losses && threshold >= 1
    ensures Verdict(t, rounds, threshold, incomplete).diffRatio == 0
    ensures Verdict(t, rounds, threshold, incomplete).withinThreshold
  {
  }

  /** Winning every round gives the player a difference of 100%, outside
      every valid threshold. */
  lemma SweepIsUnbalanced(rounds: nat, threshold: int, incomplete: int)
    requires rounds > 0 && threshold <= 99
    ensures Verdict(Tally(rounds, 0, 0), rounds, threshold, incomplete).diffRatio == 100
    ensures !Verdict(Tally(rounds, 0, 0), rounds, threshold, incomplete).withinThreshold
  {
    DivUnique(200 * rounds + rounds, 2 * rounds, 100, rounds);
    DivUnique(rounds, 2 * rounds, 0, rounds);
  }

  // ---------------------------------------------------------------------
  // The tool's static state

  /** The whole tool run: parse, check, set up, simulate. */
  datatype Completion = Exited(exit: Exit) | LevelOutOfRange | Finished(report: Report)

  class SimulateCombat {
    var rounds: int
    var threshold: int
    var lvl: Option<int>
    var hp: Option<int>
    var atk: Option<int>
    var def: Option<int>
    var barehanded: bool
    var equipsame: bool
    var noboost: bool
    var fair: bool
    var player: Option<Combatant>
    var enemy: Option<Combatant>
    var incompleteRounds: int

    /** The settings as a value. */
    function Settings(): Options
      reads this
    {
      Options(rounds, threshold, lvl, hp, atk, def, barehanded, equipsame, noboost, fair)
    }

    /** The static initialisers. */
    constructor ()
      ensures Settings() == Defaults && player == None && enemy == None && incompleteRounds == 0
    {
      rounds, threshold := DefaultRounds, DefaultThreshold;
      lvl, hp, atk, def := None, None, None, None;
      barehanded, equipsame, noboost, fair := false, false, false, false;
      player, enemy := None, None;
      incompleteRounds := 0;
    }

    method Assign(name: string, v: int)
      requires IsSettingName(name)
      modifies this`rounds, this`threshold, this`lvl, this`hp, this`atk, this`def
      ensures Settings() == SetValue(old(Settings()), name, v)
    {
      if name == "lvl" { lvl := Some(v); }
      else if name == "hp" { hp := Some(v); }
      else if name == "atk" { atk := Some(v); }
      else if name == "def" { def := Some(v); }
      else if name == "rounds" { rounds := v; }
      else { threshold := v; }
    }

    /** `parseArgs`: walk the tokens, setting the static settings as they come;
        the settings at the stop and the reason for stopping are those of
        `ParseFrom`. */
    method ParseArgs(argv: seq<string>) returns (exit: Option<Exit>)
      modifies this`rounds, this`threshold, this`lvl, this`hp, this`atk, this`def
      modifies this`barehanded, this`equipsame, this`noboost, this`fair
      ensures ParseFrom(argv, 0, old(Settings()), []) == ParseResult(Settings(), exit)
    {
      var unknownArgs: seq<string> := [];
      var idx := 0;
      while idx < |argv|
        invariant idx <= |argv|
        invariant ParseFrom(argv, idx, Settings(), unknownArgs) == ParseFrom(argv, 0, old(Settings()), [])
        decreases |argv| - idx
      {
        var st := Lower(argv[idx]);
        if st == "--help" || st == "-h" || st == "help" {
          return Some(Help);
        } else if ValueOption(st).Some? {
          var name := ValueOption(st).value;
          if |argv| < idx + 2 {
            return Some(UsageError(name + " argument requires value"));
          }
          var value := ParseInt(argv[idx + 1]);
          if value.None? {
            return Some(UsageError(name + " argument must be an integer number"));
          }
          Assign(name, value.value);
          idx := idx + 2;
        } else if st == "--barehanded" {
          barehanded := true;
          idx := idx + 1;
        } else if st == "--equipsame" {
          equipsame := true;
          idx := idx + 1;
        } else if st == "--noboost" {
          noboost := true;
          idx := idx + 1;
        } else if st == "--fair" {
          fair := true;
          idx := idx + 1;
        } else {
          unknownArgs := unknownArgs + [st];
          idx := idx + 1;
        }
      }
      if |unknownArgs| > 0 {
        return Some(UnknownArgument(unknownArgs[0]));
      }
      return None;
    }

    /** `initEntities`: the level indexes the level tables, so a level
        outside 0..597 fails; otherwise player and enemy are built from the
        settings. */
    method InitEntities(atkLevel: int -> int, defLevel: int -> int) returns (ok: bool)
      requires lvl.Some? && hp.Some? && atk.Some? && def.Some?
      modifies this`player, this`enemy
      ensures ok <==> 0 <= lvl.value <= HighestLevel
      ensures ok ==> player == Some(PlayerFor(Settings(), lvl.value, atkLevel, defLevel))
                     && enemy == Some(EnemyFor(Settings(), lvl.value, hp.value, atk.value, def.value))
      ensures !ok ==> player == old(player) && enemy == old(enemy)
    {
      if lvl.value < 0 || lvl.value > HighestLevel {
        return false;
      }
      var l := lvl.value;
      // the six items are fetched once and shared by player and enemy
      var kit := Kit(l, false);
      var equipment: map<string, Gear> := map[];
      if fair {
        equipment := map["rhand" := Gear("soul dagger", None)];
      } else if !barehanded {
        if !noboost {
          kit := Kit(l, true);
        }
        equipment := kit;
      }
      player := Some(Combatant(l, 100 + 10 * l, atkLevel(l), defLevel(l), equipment));
      var enemyEquipment: map<string, Gear> := map[];
      if !barehanded && equipsame {
        enemyEquipment := kit;
      }
      enemy := Some(Combatant(l, hp.value, atk.value, def.value, enemyEquipment));
      return true;
    }

    /** `simulateRound`: heal both sides, then run turns until one side is
        down or the turn limit cuts the round short, which is counted. */
    method SimulateRound(ridx: nat, dealt: Roll, received: Roll) returns (playerHP: int, enemyHP: int)
      requires player.Some? && enemy.Some?
      modifies this`incompleteRounds
      ensures var r := Round(ridx, player.value.baseHP, enemy.value.baseHP, dealt, received);
              playerHP == r.playerHP && enemyHP == r.enemyHP
              && incompleteRounds == old(incompleteRounds) + (if r.incomplete then 1 else 0)
    {
      playerHP, enemyHP := player.value.baseHP, enemy.value.baseHP;
      ghost var r := Round(ridx, playerHP, enemyHP, dealt, received);
      var turn: nat := 0;
      while playerHP > 0 && enemyHP > 0
        invariant turn <= TurnLimit && (turn == TurnLimit ==> !(playerHP > 0 && enemyHP > 0))
        invariant RoundFrom(ridx, turn, playerHP, enemyHP, dealt, received) == r
        invariant incompleteRounds == old(incompleteRounds)
        decreases TurnLimit - turn
      {
        RoundStep(ridx, turn, playerHP, enemyHP, dealt, received);
        turn := turn + 1;
        var damageDealt := dealt(ridx, turn, playerHP, enemyHP);
        var damageReceived := received(ridx, turn, playerHP, enemyHP);
        playerHP := playerHP - damageReceived;
        enemyHP := enemyHP - damageDealt;
        if turn == TurnLimit && playerHP > 0 && enemyHP > 0 {
          assert r == RoundResult(playerHP, enemyHP, turn, true);
          incompleteRounds := incompleteRounds + 1;
          break;
        }
        assert RoundFrom(ridx, turn, playerHP, enemyHP, dealt, received) == r;
      }
    }

    /** One pass of `runSimulation`'s loop: simulate round `ridx` and count
        its winner. */
    method PlayRound(ridx: nat, dealt: Roll, received: Roll, t: Tally) returns (t': Tally)
      requires player.Some? && enemy.Some?
      modifies this`incompleteRounds
      ensures var r := Round(ridx, player.value.baseHP, enemy.value.baseHP, dealt, received);
              t' == Count(t, r) && incompleteRounds == old(incompleteRounds) + (if r.incomplete then 1 else 0)
    {
      var playerHP, enemyHP := SimulateRound(ridx, dealt, received);
      if playerHP > enemyHP {
        t' := t.(wins := t.wins + 1);
      } else if playerHP < enemyHP {
        t' := t.(losses := t.losses + 1);
      } else {
        t' := t.(ties := t.ties + 1);
      }
    }

    /** `runSimulation`: play `rounds` rounds, count wins, losses and ties,
        and give the verdict. */
    method RunSimulation(dealt: Roll, received: Roll) returns (report: Report)
      requires player.Some? && enemy.Some? && rounds >= 1
      modifies this`incompleteRounds
      ensures var p0, e0 := player.value.baseHP, enemy.value.baseHP;
              incompleteRounds == old(incompleteRounds) + IncompleteUpTo(rounds, p0, e0, dealt, received)
              && report == Verdict(TallyUpTo(rounds, p0, e0, dealt, received), rounds, threshold, incompleteRounds)
    {
      var p0, e0 := player.value.baseHP, enemy.value.baseHP;
      var n: nat := rounds;
      var tally := Tally(0, 0, 0);
      var ridx := 0;
      while ridx < n
        invariant ridx <= n
        invariant tally == TallyUpTo(ridx, p0, e0, dealt, received)
        invariant incompleteRounds == old(incompleteRounds) + IncompleteUpTo(ridx, p0, e0, dealt, received)
      {
        tally := PlayRound(ridx, dealt, received, tally);
        ridx := ridx + 1;
      }
      report := Verdict(tally, rounds, threshold, incompleteRounds);
    }

    /** The tail of `main` once the settings are valid: set up the entities
        (failing on a level outside the tables) and simulate; the report is
        the verdict over the rounds played from the configured hit points. */
    method SetUpAndSimulate(atkLevel: int -> int, defLevel: int -> int, dealt: Roll, received: Roll)
        returns (result: Completion)
      requires Validate(Settings()).None?
      modifies this`player, this`enemy, this`incompleteRounds
      ensures result.LevelOutOfRange? <==> !(0 <= lvl.value <= HighestLevel)
      ensures !result.Exited?
      ensures result.Finished? ==>
                player.Some? && enemy.Some? && player.value.baseHP == 100 + 10 * lvl.value && enemy.value.baseHP == hp.value
                && var playerHP, enemyHP := player.value.baseHP, enemy.value.baseHP;
                   incompleteRounds == old(incompleteRounds) + IncompleteUpTo(rounds, playerHP, enemyHP, dealt, received)
                   && result.report == Verdict(TallyUpTo(rounds, playerHP, enemyHP, dealt, received), rounds, threshold, incompleteRounds)
    {
      var ok := InitEntities(atkLevel, defLevel);
      if !ok {
        return LevelOutOfRange;
      }
      assert incompleteRounds == old(incompleteRounds);
      var report := RunSimulation(dealt, received);
      return Finished(report);
    }

    /** `main`: parse; stop on help or a usage error; run the checks in
        order; set up the entities; simulate. */
    method Execute(argv: seq<string>, atkLevel: int -> int, defLevel: int -> int, dealt: Roll, received: Roll)
        returns (result: Completion)
      modifies this
      ensures var p := ParseFrom(argv, 0, old(Settings()), []);
              (p.exit.Some? ==> result == Exited(p.exit.value))
              && (p.exit.None? && Validate(p.options).Some? ==> result == Exited(Validate(p.options).value))
              && (p.exit.None? && Validate(p.options).None? ==>
                    (result == LevelOutOfRange <==> !(0 <= p.options.lvl.value <= HighestLevel)))
              && (result.Finished? ==> p.exit.None? && Validate(p.options).None?
                                       && result.report.wins + result.report.losses + result.report.ties == p.options.rounds)
      ensures var p := ParseFrom(argv, 0, old(Settings()), []);
              p.exit.None? && Validate(p.options).None? && 0 <= p.options.lvl.value <= HighestLevel ==> result.Finished?
      ensures var p := ParseFrom(argv, 0, old(Settings()), []);
              result.Finished? ==>
                var o := p.options;
                var playerHP, enemyHP := 100 + 10 * o.lvl.value, o.hp.value;
                incompleteRounds == old(incompleteRounds) + IncompleteUpTo(o.rounds, playerHP, enemyHP, dealt, received)
                && result.report == Verdict(TallyUpTo(o.rounds, playerHP, enemyHP, dealt, received), o.rounds, o.threshold,
                                            incompleteRounds)
    {
      var exit := ParseArgs(argv);
      if exit.Some? {
        return Exited(exit.value);
      }
      var invalid := Validate(Settings());
      if invalid.Some? {
        return Exited(invalid.value);
      }
      ghost var o := Settings();
      result := SetUpAndSimulate(atkLevel, defLevel, dealt, received);
      if result.Finished? {
        SameSettingsSameVerdict(rounds, o.rounds, player.value.baseHP, 100 + 10 * o.lvl.value, enemy.value.baseHP, o.hp.value,
                                threshold, o.threshold, old(incompleteRounds), incompleteRounds, dealt, received);
      }
    }
  }
}
