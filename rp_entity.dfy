/** The web client's RPEntity, without its drawing: the set of entities
    attacking it and its counter, the attack-target link kept in step with
    the target's attacker set, the HP-change floaters, and the pure pieces of
    sprite selection (outfit decoding, outfit file names, walking frames).
    JavaScript numbers are integers here. */
module ClientEntity {
  import opened Wrappers
  import opened Text
  import opened Arith

  /** A floating text over the entity: its message and its colour. */
  datatype Floater = Floater(message: string, color: string)

  /** The floater an HP change adds: "+change" in green when it is positive,
      the number with its minus sign in red when it is negative, nothing when
      it is zero. */
  function HPFloaters(change: int): seq<Floater> {
    if change > 0 then [Floater("+" + IntString(change), "#00ff00")]
    else if change < 0 then [Floater(IntString(change), "#ff0000")]
    else []
  }

  /** The HP-change floater, read back as a number, is the change itself, and
      its colour tells the sign: one floater for a non-zero change, none for
      zero. */
  lemma HPFloaterShowsChange(change: int)
    ensures |HPFloaters(change)| == (if change == 0 then 0 else 1)
    ensures change != 0 ==> ParseSigned(HPFloaters(change)[0].message) == Some(change)
    ensures change > 0 ==> HPFloaters(change)[0].message[0] == '+' && HPFloaters(change)[0].color == "#00ff00"
    ensures change < 0 ==> HPFloaters(change)[0].message[0] == '-' && HPFloaters(change)[0].color == "#ff0000"
  {
    if change > 0 {
      PlusStringParses(change);
    } else if change < 0 {
      IntStringParses(change);
    }
  }

  class RPEntity {
    const id: int
    /** Whether the `attackers` object exists yet (it is created on the
        first `onTargeted`). */
    var attackersDefined: bool
    /** The ids stored in `attackers`, and its `size` counter. */
    var attackers: set<int>
    var size: int
    var target: RPEntity?
    var hp: Option<int>
    var floaters: seq<Floater>

    /** The counter always equals the number of distinct attacker ids. */
    ghost predicate Valid()
      reads this
    {
      (attackersDefined ==> size == |attackers|) && (!attackersDefined ==> attackers == {})
    }

    constructor (id: int)
      ensures this.id == id && Valid()
      ensures !attackersDefined && target == null && hp == None && floaters == []
    {
      this.id := id;
      attackersDefined, attackers, size := false, {}, 0;
      target, hp, floaters := null, None, [];
    }

    /** The entity this one attacks, as a frame. */
    function Target(): set<RPEntity>
      reads this
    {
      if target == null then {} else {target}
    }

    /** `onTargeted`: create the attacker set if needed, then add the
        attacker's id unless it is there already; the counter rises by one
        only for a new id. */
    method OnTargeted(attacker: RPEntity)
      requires Valid()
      modifies this`attackersDefined, this`attackers, this`size
      ensures Valid() && attackersDefined
      ensures attackers == old(attackers) + {attacker.id}
      ensures size == (if old(attackersDefined) then old(size) else 0) + (if attacker.id in old(attackers) then 0 else 1)
    {
      if !attackersDefined {
        attackersDefined, size := true, 0;
      }
      if attacker.id !in attackers {
        attackers := attackers + {attacker.id};
        size := size + 1;
      }
    }

    /** `onAttackStopped`: remove the attacker's id and lower the counter,
        only if the id is there. Before the attacker set exists the lookup
        throws a TypeError (`ok` is false) and nothing changes. */
    method OnAttackStopped(attacker: RPEntity) returns (ok: bool)
      requires Valid()
      modifies this`attackers, this`size
      ensures Valid()
      ensures ok == attackersDefined
      ensures attackers == old(attackers) - {attacker.id}
      ensures size == old(size) - (if attacker.id in old(attackers) then 1 else 0)
    {
      if !attackersDefined {
        return false;
      }
      if attacker.id in attackers {
        attackers := attackers - {attacker.id};
        size := size - 1;
      }
      return true;
    }

    /** `set("target", value)`: tell the old target that the attack stopped,
        look the new target up in the zone, and register with it. When the
        old and the new target are the same entity, the id is removed and
        added back. The old target has already registered this entity, so its
        attacker set exists. */
    method SetTarget(zone: map<string, RPEntity>, value: string)
      requires Valid()
      requires target != null ==> target.Valid() && target.attackersDefined
      requires value in zone ==> zone[value].Valid()
      modifies this`target, Target()`attackers, Target()`size
      modifies Lookup(zone, value)`attackersDefined, Lookup(zone, value)`attackers, Lookup(zone, value)`size
      ensures target == (if value in zone then zone[value] else null)
      ensures Valid()
      ensures old(target) != null ==> old(target).Valid()
      ensures old(target) != null && old(target) != target ==>
                old(target).attackers == old(target.attackers) - {id}
      ensures value in zone ==>
                zone[value].Valid() &&
                zone[value].attackers == (if zone[value] == old(target) then old(zone[value].attackers) - {id}
                                          else old(zone[value].attackers)) + {id}
    {
      UnsetTarget();
      if value in zone {
        var next := zone[value];
        target := next;
        next.OnTargeted(this);
      }
    }

    /** `unset("target")`: tell the target the attack stopped and forget it. */
    method UnsetTarget()
      requires Valid()
      requires target != null ==> target.Valid() && target.attackersDefined
      modifies this`target, Target()`attackers, Target()`size
      ensures target == null && Valid()
      ensures old(target) != null ==> old(target).Valid() && old(target).attackers == old(target.attackers) - {id}
    {
      if target != null {
        var _ := target.OnAttackStopped(this);
        target := null;
      }
    }

    /** `destroy`: tell the target the attack stopped, but keep the link. */
    method Destroy()
      requires Valid()
      requires target != null ==> target.Valid() && target.attackersDefined
      modifies Target()`attackers, Target()`size
      ensures target == old(target) && Valid()
      ensures target != null ==> target.Valid() && target.attackers == old(target.attackers) - {id}
    {
      if target != null {
        var _ := target.OnAttackStopped(this);
      }
    }

    /** `onHPChanged`: add the floater for the change, if any. */
    method OnHPChanged(change: int)
      modifies this`floaters
      ensures floaters == old(floaters) + HPFloaters(change)
    {
      if change > 0 {
        floaters := floaters + [Floater("+" + IntString(change), "#00ff00")];
      } else if change < 0 {
        floaters := floaters + [Floater(IntString(change), "#ff0000")];
      }
    }

    /** `set("hp", value)`: store the new HP; when there was an HP before,
        report the difference as an HP change. */
    method SetHP(value: int)
      modifies this`hp, this`floaters
      ensures hp == Some(value)
      ensures floaters == old(floaters) + (if old(hp).Some? then HPFloaters(value - old(hp).value) else [])
    {
      var previous := hp;
      hp := Some(value);
      if previous.Some? {
        OnHPChanged(value - previous.value);
      }
    }
  }

  /** The entity `marauroa.currentZone[value]` names, as a frame. */
  function Lookup(zone: map<string, RPEntity>, value: string): set<RPEntity> {
    if value in zone then {zone[value]} else {}
  }

  // ---------------------------------------------------------------------
  // Outfit decoding

  /** JavaScript's `%`: the remainder takes the sign of the dividend. */
  function JsRem(a: int, b: int): (r: int)
    requires b > 0
    ensures a >= 0 ==> 0 <= r < b
    ensures a < 0 ==> -b < r <= 0
  {
    if a >= 0 then a % b else -((-a) % b)
  }

  /** The five layers of a numeric outfit code. */
  datatype OutfitParts = OutfitParts(body: int, dress: int, head: int, hair: int, detail: int)

  /** The numeric outfit code read as base-100 digits, lowest first:
      `Math.floor(outfit / 100^k) % 100` for k = 0..4. */
  function DecodeOutfit(outfit: int): (p: OutfitParts)
    ensures outfit >= 0 ==> 0 <= p.body < 100 && 0 <= p.dress < 100 && 0 <= p.head < 100
                            && 0 <= p.hair < 100 && 0 <= p.detail < 100
  {
    OutfitParts(JsRem(outfit, 100), JsRem(outfit / 100, 100), JsRem(outfit / 10000, 100),
                JsRem(outfit / 1000000, 100), JsRem(outfit / 100000000, 100))
  }

  /** The outfit code that the five layers stand for. */
  function EncodeOutfit(p: OutfitParts): int {
    p.body + 100 * (p.dress + 100 * (p.head + 100 * (p.hair + 100 * p.detail)))
  }

  predicate PartsInRange(p: OutfitParts) {
    0 <= p.body < 100 && 0 <= p.dress < 100 && 0 <= p.head < 100 && 0 <= p.hair < 100 && 0 <= p.detail < 100
  }

  /** One base-100 digit: splitting `d + 100 * rest` gives `d` back as the
      remainder and `rest` as the quotient. */
  lemma DigitSplit(d: int, rest: int)
    requires 0 <= d < 100 && rest >= 0
    ensures (d + 100 * rest) % 100 == d && (d + 100 * rest) / 100 == rest
  {
  }

  /** Decoding the code of five layers in 0..99 gives the same five layers. */
  lemma DecodeEncode(p: OutfitParts)
    requires PartsInRange(p)
    ensures DecodeOutfit(EncodeOutfit(p)) == p
  {
    var r3 := p.hair + 100 * p.detail;
    var r2 := p.head + 100 * r3;
    var r1 := p.dress + 100 * r2;
    var n := p.body + 100 * r1;
    DivUnique(n, 100, r1, p.body);
    DivUnique(n, 10000, r2, p.body + 100 * p.dress);
    DivUnique(n, 1000000, r3, p.body + 100 * p.dress + 10000 * p.head);
    DivUnique(n, 100000000, p.detail, p.body + 100 * p.dress + 10000 * p.head + 1000000 * p.hair);
    DigitSplit(p.body, r1);
    DigitSplit(p.dress, r2);
    DigitSplit(p.head, r3);
    DigitSplit(p.hair, p.detail);
    DigitSplit(p.detail, 0);
  }

  /** Every code from 0 up to 10^10 - 1 is the code of its decoded layers: no
      information is lost below ten base-100 digits. */
  lemma EncodeDecode(outfit: int)
    requires 0 <= outfit < 10000000000
    ensures PartsInRange(DecodeOutfit(outfit)) && EncodeOutfit(DecodeOutfit(outfit)) == outfit
  {
    var q1 := outfit / 100;
    var q2 := q1 / 100;
    var q3 := q2 / 100;
    var q4 := q3 / 100;
    var r0, r1, r2, r3 := outfit % 100, q1 % 100, q2 % 100, q3 % 100;
    DivUnique(outfit, 10000, q2, r1 * 100 + r0);
    DivUnique(outfit, 1000000, q3, r2 * 10000 + r1 * 100 + r0);
    DivUnique(outfit, 100000000, q4, r3 * 1000000 + r2 * 10000 + r1 * 100 + r0);
    DivUnique(outfit, 10000000000, q4 / 100, (q4 % 100) * 100000000 + r3 * 1000000 + r2 * 10000 + r1 * 100 + r0);
    assert q4 / 100 == 0;
    assert q4 % 100 == q4;
  }

  // ---------------------------------------------------------------------
  // outfit_ext

  /** JavaScript's `String.split` on a one-character separator. */
  function Split(s: string, sep: char): (parts: seq<string>)
    ensures |parts| >= 1
    ensures forall i :: 0 <= i < |parts| ==> sep !in parts[i]
  {
    if |s| == 0 then [""]
    else if s[0] == sep then [""] + Split(s[1..], sep)
    else
      var rest := Split(s[1..], sep);
      [[s[0]] + rest[0]] + rest[1..]
  }

  /** `Array.join` with a one-character separator. */
  function Join(parts: seq<string>, sep: char): string
    requires |parts| >= 1
  {
    if |parts| == 1 then parts[0] else parts[0] + [sep] + Join(parts[1..], sep)
  }

  /** Splitting loses nothing: joining the pieces again gives the text. */
  lemma {:induction false} JoinSplit(s: string, sep: char)
    ensures Join(Split(s, sep), sep) == s
  {
    if |s| > 0 {
      JoinSplit(s[1..], sep);
      var rest := Split(s[1..], sep);
      if s[0] == sep {
        assert ([""] + rest)[1..] == rest;
      } else {
        var parts := [[s[0]] + rest[0]] + rest[1..];
        if |rest| > 1 {
          assert parts[1..] == rest[1..];
          assert Join(rest, sep) == rest[0] + [sep] + Join(rest[1..], sep);
        }
        assert s == [s[0]] + s[1..];
      }
    }
  }

  /** Text without the separator is one piece. */
  lemma {:induction false} SplitNoSeparator(s: string, sep: char)
    requires sep !in s
    ensures Split(s, sep) == [s]
  {
    if |s| > 0 {
      SplitNoSeparator(s[1..], sep);
      assert s == [s[0]] + s[1..];
    }
  }

  /** One step of `Split`: a leading separator starts a new piece, any other
      character joins the first piece of the rest. */
  lemma SplitCons(c: char, rest: string, sep: char)
    ensures Split([c] + rest, sep)
            == if c == sep then [""] + Split(rest, sep)
               else [[c] + Split(rest, sep)[0]] + Split(rest, sep)[1..]
  {
    assert ([c] + rest)[1..] == rest;
  }

  /** Extending the first piece commutes with appending more pieces. */
  lemma ExtendFirstPiece(x: string, left: seq<string>, right: seq<string>)
    requires |left| >= 1
    ensures [x + (left + right)[0]] + (left + right)[1..] == ([x + left[0]] + left[1..]) + right
  {
    assert (left + right)[0] == left[0];
    assert (left + right)[1..] == left[1..] + right;
  }

  /** The inductive step of `SplitAppend` for a first character that is not
      the separator: it joins the first piece on both sides. */
  lemma SplitAppendJoin(c: char, tail: string, b: string, sep: char)
    requires c != sep
    requires Split(tail + [sep] + b, sep) == Split(tail, sep) + Split(b, sep)
    ensures Split([c] + (tail + [sep] + b), sep) == Split([c] + tail, sep) + Split(b, sep)
  {
    SplitCons(c, tail, sep);
    SplitCons(c, tail + [sep] + b, sep);
    ExtendFirstPiece([c], Split(tail, sep), Split(b, sep));
  }

  /** The inductive step of `SplitAppend` for a leading separator: an empty
      first piece on both sides. */
  lemma SplitAppendEmpty(tail: string, b: string, sep: char)
    requires Split(tail + [sep] + b, sep) == Split(tail, sep) + Split(b, sep)
    ensures Split([sep] + (tail + [sep] + b), sep) == Split([sep] + tail, sep) + Split(b, sep)
  {
    SplitCons(sep, tail, sep);
    SplitCons(sep, tail + [sep] + b, sep);
  }

  /** Splitting at a separator splits the pieces of both sides. */
  lemma {:induction false} SplitAppend(a: string, b: string, sep: char)
    ensures Split(a + [sep] + b, sep) == Split(a, sep) + Split(b, sep)
  {
    if |a| == 0 {
      assert a + [sep] + b == [sep] + b;
      SplitCons(sep, b, sep);
    } else {
      var c, tail := a[0], a[1..];
      SplitAppend(tail, b, sep);
      assert a == [c] + tail;
      assert a + [sep] + b == [c] + (tail + [sep] + b);
      if c == sep {
        SplitAppendEmpty(tail, b, sep);
      } else {
        SplitAppendJoin(c, tail, b, sep);
      }
    }
  }

  /** The key/value pairs of an `outfit_ext` string: it is split on ",";
      each piece that contains "=" is split on "=", and its first field
      becomes a key with the second field as value; a later piece overrides
      an earlier one with the same key. */
  function ParseOutfitExt(ext: string): map<string, string> {
    OutfitEntries(Split(ext, ','))
  }

  function OutfitEntries(pieces: seq<string>): map<string, string> {
    if pieces == [] then map[]
    else
      var m := OutfitEntries(pieces[..|pieces| - 1]);
      var piece := pieces[|pieces| - 1];
      if '=' in piece then
        var fields := Split(piece, '=');
        assert |fields| >= 2 by {
          if |fields| == 1 { JoinSplit(piece, '='); }
        }
        m[fields[0] := fields[1]]
      else m
  }

  /** Every character of every piece comes from the text split. */
  lemma {:induction false} SplitKeepsCharacters(s: string, sep: char)
    ensures forall i, c :: 0 <= i < |Split(s, sep)| && c in Split(s, sep)[i] ==> c in s
  {
    if |s| > 0 {
      SplitKeepsCharacters(s[1..], sep);
      var rest := Split(s[1..], sep);
      assert s == [s[0]] + s[1..];
      forall i, c | 0 <= i < |Split(s, sep)| && c in Split(s, sep)[i]
        ensures c in s
      {
        if s[0] == sep {
          assert Split(s, sep)[i] == if i == 0 then "" else rest[i - 1];
        } else if i == 0 {
          assert c == s[0] || c in rest[0];
        } else {
          assert Split(s, sep)[i] == rest[i];
        }
      }
    }
  }

  /** The entries of the pieces: every piece with "=" contributes its key,
      and every entry is the first two "="-fields of some piece. */
  lemma {:induction false} OutfitEntriesFromPieces(pieces: seq<string>)
    ensures forall i :: 0 <= i < |pieces| && '=' in pieces[i] ==> Split(pieces[i], '=')[0] in OutfitEntries(pieces)
    ensures forall k :: k in OutfitEntries(pieces) ==>
              exists i :: 0 <= i < |pieces| && '=' in pieces[i] && |Split(pieces[i], '=')| >= 2
                          && Split(pieces[i], '=')[0] == k && Split(pieces[i], '=')[1] == OutfitEntries(pieces)[k]
  {
    if pieces != [] {
      var init := pieces[..|pieces| - 1];
      OutfitEntriesFromPieces(init);
      var m := OutfitEntries(pieces);
      var last := pieces[|pieces| - 1];
      forall i | 0 <= i < |pieces| && '=' in pieces[i]
        ensures Split(pieces[i], '=')[0] in m
      {
        if i < |pieces| - 1 {
          assert pieces[i] == init[i];
        }
      }
      forall k | k in m
        ensures exists i :: 0 <= i < |pieces| && '=' in pieces[i] && |Split(pieces[i], '=')| >= 2
                            && Split(pieces[i], '=')[0] == k && Split(pieces[i], '=')[1] == m[k]
      {
        if '=' in last && Split(last, '=')[0] == k {
          assert |Split(last, '=')| >= 2 by {
            if |Split(last, '=')| == 1 { JoinSplit(last, '='); }
          }
          assert pieces[|pieces| - 1] == last;
        } else {
          assert k in OutfitEntries(init) && m[k] == OutfitEntries(init)[k];
          var i :| 0 <= i < |init| && '=' in init[i] && |Split(init[i], '=')| >= 2
                   && Split(init[i], '=')[0] == k && Split(init[i], '=')[1] == OutfitEntries(init)[k];
          assert pieces[i] == init[i];
        }
      }
    }
  }

  /** The keys and values decoded from `outfit_ext` contain neither "," nor
      "=", and are made of characters of the text. */
  lemma ParsedEntriesAreClean(ext: string)
    ensures forall k :: k in ParseOutfitExt(ext) ==>
              ',' !in k && '=' !in k && ',' !in ParseOutfitExt(ext)[k] && '=' !in ParseOutfitExt(ext)[k]
    ensures forall k, c :: k in ParseOutfitExt(ext) && (c in k || c in ParseOutfitExt(ext)[k]) ==> c in ext
  {
    var pieces := Split(ext, ',');
    OutfitEntriesFromPieces(pieces);
    SplitKeepsCharacters(ext, ',');
    forall k | k in ParseOutfitExt(ext)
      ensures ',' !in k && '=' !in k && ',' !in ParseOutfitExt(ext)[k] && '=' !in ParseOutfitExt(ext)[k]
      ensures forall c :: c in k || c in ParseOutfitExt(ext)[k] ==> c in ext
    {
      var i :| 0 <= i < |pieces| && '=' in pieces[i] && |Split(pieces[i], '=')| >= 2
               && Split(pieces[i], '=')[0] == k && Split(pieces[i], '=')[1] == ParseOutfitExt(ext)[k];
      SplitKeepsCharacters(pieces[i], '=');
      assert ',' !in pieces[i];
    }
  }

  /** A "key=value" piece appended after a comma sets that key, overriding
      whatever earlier pieces gave it, and leaves the other keys alone. */
  lemma AppendedPairOverrides(ext: string, key: string, value: string)
    requires '=' !in key && ',' !in key && '=' !in value && ',' !in value
    ensures ParseOutfitExt(ext + "," + key + "=" + value) == ParseOutfitExt(ext)[key := value]
  {
    var piece := key + "=" + value;
    assert ext + "," + key + "=" + value == ext + [','] + piece;
    SplitAppend(ext, piece, ',');
    assert ',' !in piece;
    SplitNoSeparator(piece, ',');
    SplitAppend(key, value, '=');
    SplitNoSeparator(key, '=');
    SplitNoSeparator(value, '=');
    assert key + [ '=' ] + value == piece;
    var pieces := Split(ext, ',') + [piece];
    assert pieces[..|pieces| - 1] == Split(ext, ',');
  }

  /** A piece appended after a comma that has no "=" changes nothing. */
  lemma AppendedPieceWithoutEqualsIgnored(ext: string, piece: string)
    requires '=' !in piece && ',' !in piece
    ensures ParseOutfitExt(ext + "," + piece) == ParseOutfitExt(ext)
  {
    assert ext + "," + piece == ext + [','] + piece;
    SplitAppend(ext, piece, ',');
    SplitNoSeparator(piece, ',');
    var pieces := Split(ext, ',') + [piece];
    assert pieces[..|pieces| - 1] == Split(ext, ',');
  }

  /** Only the text between the first and the second "=" is the value: in
      "key=value=more" the trailing field is dropped. */
  lemma ValueStopsAtSecondEquals(key: string, value: string, more: string)
    requires '=' !in key && ',' !in key && '=' !in value && ',' !in value && ',' !in more
    ensures ParseOutfitExt(key + "=" + value + "=" + more) == map[key := value]
  {
    var piece := key + "=" + value + "=" + more;
    assert ',' !in piece;
    SplitNoSeparator(piece, ',');
    assert piece == key + ['='] + (value + ['='] + more);
    SplitAppend(key, value + ['='] + more, '=');
    SplitAppend(value, more, '=');
    SplitNoSeparator(key, '=');
    SplitNoSeparator(value, '=');
    assert Split(piece, '=') == [key] + ([value] + Split(more, '='));
    assert '=' in piece by {
      assert piece[|key|] == '=';
    }
    var single: seq<string> := [piece];
    assert single[..0] == [];
    assert OutfitEntries(single[..0]) == map[];
    var fields := Split(piece, '=');
    assert fields[0] == key && fields[1] == value;
    assert OutfitEntries(single) == map[key := value];
    assert Split(piece, ',') == single;
  }

  // ---------------------------------------------------------------------
  // Outfit sprite files

  /** A leading zero does not change the value of a digit string. */
  lemma {:induction false} LeadingZero(s: string)
    requires AllDigits(s)
    ensures AllDigits("0" + s) && DigitsValue("0" + s) == DigitsValue(s)
  {
    if s != [] {
      LeadingZero(s[..|s| - 1]);
      assert ("0" + s)[..|"0" + s| - 1] == "0" + s[..|s| - 1];
    }
  }

  /** An outfit index as written in a file name: at least three digits, with
      leading zeros added below 100. */
  function PaddedIndex(index: nat): (r: string)
    ensures |r| >= 3 && AllDigits(r)
    ensures DigitsValue(r) == index
    ensures index >= 100 ==> r == DecimalString(index)
  {
    var n := DecimalString(index);
    DecimalStringValue(index);
    if index < 10 then
      LeadingZero(n);
      LeadingZero("0" + n);
      assert "0" + ("0" + n) == "00" + n;
      "00" + n
    else if index < 100 then
      LeadingZero(n);
      "0" + n
    else n
  }

  /** How a sprite image is fetched: as it is, or recoloured with the
      "trueColor" filter and a colour. */
  datatype SpriteRequest = Plain(path: string) | Filtered(path: string, filter: string, color: int)

  /** The colour key of an outfit layer: body and head share "skin". */
  function ColorKey(part: string): string {
    if part == "body" || part == "head" then "skin" else part
  }

  function OutfitPath(part: string, index: nat): string {
    "/data/sprites/outfit/" + part + "/" + PaddedIndex(index) + ".png"
  }

  /** `getOutfitPart`: nothing for a negative index; otherwise the file of the
      layer and index, recoloured when the entity's outfit colours give a
      colour for the layer's colour key. */
  function GetOutfitPart(part: string, index: int, colors: Option<map<string, int>>): (r: Option<SpriteRequest>)
    ensures r.None? <==> index < 0
    ensures r.Some? ==> r.value.path == OutfitPath(part, index)
    ensures r.Some? ==> (r.value.Filtered? <==> colors.Some? && ColorKey(part) in colors.value)
    ensures r.Some? && r.value.Filtered? ==> r.value.color == colors.value[ColorKey(part)]
  {
    if index < 0 then None
    else
      var filename := OutfitPath(part, index);
      var key := ColorKey(part);
      if colors.Some? && key in colors.value then Some(Filtered(filename, "trueColor", colors.value[key]))
      else Some(Plain(filename))
  }

  /** The index can be read back from the file name of an outfit layer:
      the digits between the layer's folder and ".png" are its value. */
  lemma OutfitPathReadsBack(part: string, index: nat)
    ensures var path := OutfitPath(part, index);
            |path| >= |part| + 26 && AllDigits(path[|part| + 22..|path| - 4])
            && DigitsValue(path[|part| + 22..|path| - 4]) == index
  {
    var path := OutfitPath(part, index);
    var prefix := "/data/sprites/outfit/" + part + "/";
    assert path == prefix + PaddedIndex(index) + ".png";
    assert |prefix| == |part| + 22;
    assert path[|part| + 22..|path| - 4] == PaddedIndex(index);
  }

  /** Different indexes give different files. */
  lemma OutfitPathsDistinct(part: string, i: nat, j: nat)
    requires i != j
    ensures OutfitPath(part, i) != OutfitPath(part, j)
  {
    OutfitPathReadsBack(part, i);
    OutfitPathReadsBack(part, j);
  }

  // ---------------------------------------------------------------------
  // Walking animation

  /** The walking frame at time step `tick` of an animation with `nFrames`
      columns: the frames run forward and back (0, 1, .., n-1, .., 1), a
      period of 2n-2 steps. */
  function WalkFrame(tick: nat, nFrames: nat): (frame: nat)
    requires nFrames >= 2
    ensures frame < nFrames
  {
    var animLength := nFrames * 2 - 2;
    var f := tick % animLength;
    if f >= nFrames then animLength - f else f
  }

  lemma ModShift(a: nat, m: nat)
    requires m > 0
    ensures (a + m) % m == a % m
  {
    DivUnique(a + m, m, a / m + 1, a % m);
  }

  lemma ModSmall(a: nat, m: nat)
    requires a < m
    ensures a % m == a
  {
    DivUnique(a, m, 0, a);
  }

  /** The animation repeats every 2n-2 steps, shows frame k at step k on the
      way out, and is symmetric: step k and step (2n-2) - k show the same
      frame. */
  lemma WalkFramePingPong(tick: nat, nFrames: nat)
    requires nFrames >= 2
    ensures WalkFrame(tick + (2 * nFrames - 2), nFrames) == WalkFrame(tick, nFrames)
    ensures tick < nFrames ==> WalkFrame(tick, nFrames) == tick
    ensures 0 < tick < 2 * nFrames - 2 ==> WalkFrame(2 * nFrames - 2 - tick, nFrames) == WalkFrame(tick, nFrames)
  {
    var len := 2 * nFrames - 2;
    ModShift(tick, len);
    if tick < len {
      ModSmall(tick, len);
      if tick > 0 {
        ModSmall(len - tick, len);
      }
    }
  }

  /** The cell of the sprite sheet drawn: column `frame` of `nFrames`, row
      `row` of `nDirections`. */
  datatype SpriteCell = SpriteCell(frame: int, row: int, nFrames: nat, nDirections: nat)

  /** The frame computation of `drawSpriteImage`: three columns and four
      direction rows, the centre column when idle and the walking frame of
      time step `now / 100` while moving; ents have one column, two rows and
      never animate. */
  function SpriteFrame(cls: string, dir: int, speed: int, now: nat): (c: SpriteCell)
    ensures 0 <= c.frame < c.nFrames
    ensures cls == "ent" ==> c == SpriteCell(0, (dir - 1) / 2, 1, 2)
    ensures cls != "ent" ==> c.nFrames == 3 && c.nDirections == 4 && c.row == dir - 1
    ensures cls != "ent" && speed <= 0 ==> c.frame == 1
    ensures cls != "ent" && speed > 0 ==> c.frame == WalkFrame(now / 100, 3)
    ensures 1 <= dir <= 4 ==> 0 <= c.row < c.nDirections
  {
    var ent := cls == "ent";
    var nFrames: nat := if ent then 1 else 3;
    var nDirections: nat := if ent then 2 else 4;
    var row := if ent then (dir - 1) / 2 else dir - 1;
    var frame := if speed > 0 && nFrames != 1 then WalkFrame(now / 100, nFrames) else if ent then 0 else 1;
    SpriteCell(frame, row, nFrames, nDirections)
  }

  /** With the usual three columns the walking frames cycle 0, 1, 2, 1. */
  lemma ThreeFrameCycle(tick: nat)
    ensures WalkFrame(tick, 3) == [0, 1, 2, 1][tick % 4]
  {
  }
}
