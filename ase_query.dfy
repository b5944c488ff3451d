/** The All-Seeing-Eye (ASE) server query: the rules table a server
    publishes, and the three replies (full, light, XFire light) it sends to
    server browsers. A reply is modelled as the sequence of writes the
    service makes to its `BinaryWriter`; `Encode` turns it into bytes given
    the length-prefixed encoding, which is supplied by the caller. */
module Ase {
  import opened Base

  // ---------------------------------------------------------------------
  // Integer formatting and casts
  // ---------------------------------------------------------------------

  type UShort = n: int | 0 <= n < 0x1_0000
  type UInt = n: int | 0 <= n < 0x1_0000_0000

  predicate IsDigit(c: char)
  {
    '0' <= c <= '9'
  }

  function DigitChar(d: nat): (c: char)
    requires d < 10
    ensures IsDigit(c) && c as int - '0' as int == d
  {
    ('0' as int + d) as char
  }

  /** The decimal digits of `n`, as `ToString()` writes a non-negative number:
      at least one digit, and no leading zero unless `n` is zero. */
  function Digits(n: nat): (r: string)
    ensures |r| >= 1
    ensures forall i :: 0 <= i < |r| ==> IsDigit(r[i])
    ensures r[0] == '0' <==> n == 0
    decreases n
  {
    if n < 10 then [DigitChar(n)] else Digits(n / 10) + [DigitChar(n % 10)]
  }

  /** The number a string of digits denotes. */
  function DigitsValue(s: string): nat
    requires forall i :: 0 <= i < |s| ==> IsDigit(s[i])
    decreases |s|
  {
    if s == [] then 0
    else
      assert IsDigit(s[|s| - 1]);
      10 * DigitsValue(s[..|s| - 1]) + (s[|s| - 1] as int - '0' as int)
  }

  /** Reading the digits back gives the number. */
  lemma {:induction false} DigitsRoundTrip(n: nat)
    ensures DigitsValue(Digits(n)) == n
    decreases n
  {
    if n >= 10 {
      DigitsRoundTrip(n / 10);
      var s := Digits(n);
      assert s[..|s| - 1] == Digits(n / 10);
    }
  }

  /** `int.ToString()`: a minus sign before the digits of a negative number. */
  function Decimal(n: int): (r: string)
    ensures |r| >= 1
    ensures n >= 0 ==> r == Digits(n)
    ensures n < 0 ==> r[0] == '-' && r[1..] == Digits(-n)
  {
    if n < 0 then "-" + Digits(-n) else Digits(n)
  }

  /** C#'s unchecked `(int)` cast: keeps the low 32 bits, read as signed. */
  function ToInt32(n: int): (r: int)
    ensures -0x8000_0000 <= r < 0x8000_0000
    ensures (n - r) % 0x1_0000_0000 == 0
    ensures -0x8000_0000 <= n < 0x8000_0000 ==> r == n
  {
    var m := n % 0x1_0000_0000;
    if m >= 0x8000_0000 then m - 0x1_0000_0000 else m
  }

  /** C#'s integer division of a possibly negative number by a positive one:
      the quotient is rounded toward zero. */
  function TruncDiv(a: int, b: int): (q: int)
    requires b > 0
    ensures a >= 0 ==> q * b <= a < (q + 1) * b
    ensures a < 0 ==> (q - 1) * b < a <= q * b
  {
    if a >= 0 then a / b else -((-a) / b)
  }

  const TicksPerSecond: nat := 10_000_000

  /** The uptime field as written: the tick count is cast to a 32-bit `int`
      before it is divided, so anything past 2^31 ticks (about 214 seconds)
      wraps around. */
  function UptimeAsWritten(ticks: nat): int
  {
    TruncDiv(ToInt32(ticks), TicksPerSecond)
  }

  /** The uptime field as intended: whole seconds of uptime. */
  function Uptime(ticks: nat): (seconds: nat)
    ensures seconds * TicksPerSecond <= ticks < (seconds + 1) * TicksPerSecond
  {
    ticks / TicksPerSecond
  }

  /** The two agree until the tick count leaves the 32-bit range. */
  lemma UptimeAsWrittenAgreesBelowWrap(ticks: nat)
    requires ticks < 0x8000_0000
    ensures UptimeAsWritten(ticks) == Uptime(ticks)
  {
  }

  /** Five minutes of uptime are reported as -129 seconds. */
  lemma UptimeAsWrittenWraps()
    ensures Uptime(3_000_000_000) == 300
    ensures UptimeAsWritten(3_000_000_000) == -129
  {
    assert ToInt32(3_000_000_000) == -1_294_967_296;
  }

  // ---------------------------------------------------------------------
  // Versions
  // ---------------------------------------------------------------------

  /** The ASE protocol versions; only the first two have a name. */
  datatype AseVersion = V1_5 | V1_5n | OtherVersion(code: int)

  /** `GetVersion`: the version's name, or `NotImplementedException`. */
  function GetVersion(v: AseVersion): (r: Result<string>)
    ensures r.Ok? <==> !v.OtherVersion?
    ensures r.Fail? ==> r.error == NotImplemented
    ensures r.Ok? ==> |r.value| >= 3 && r.value[..3] == "1.5"
    ensures r.Ok? ==> (|r.value| == 3 <==> v == V1_5)
  {
    match v
    case V1_5 => Ok("1.5")
    case V1_5n => Ok("1.5n")
    case OtherVersion(_) => Fail(NotImplemented)
  }

  /** The build types a light query can be asked for, numbered as MTA's
      build types are. */
  datatype VersionType = Custom | Experimental | Unstable | Untested | Release

  function BuildCode(t: VersionType): (code: Byte)
    ensures code % 2 == 1
    ensures t == Release <==> code == 9
  {
    match t
    case Custom => 1
    case Experimental => 3
    case Unstable => 5
    case Untested => 7
    case Release => 9
  }

  /** The version a light query reports: the service's own for a release
      build, the `n` version for any other. */
  function LightVersion(own: AseVersion, t: VersionType): (v: AseVersion)
    ensures t != Release ==> v == V1_5n
    ensures t == Release ==> v == own
  {
    if t == Release then own else V1_5n
  }

  // ---------------------------------------------------------------------
  // Rules: an insertion-ordered table of distinct keys
  // ---------------------------------------------------------------------

  type Rules = seq<(string, string)>

  function Keys(rules: Rules): set<string>
  {
    set i | 0 <= i < |rules| :: rules[i].0
  }

  predicate KeysDistinct(rules: Rules)
  {
    forall i, j :: 0 <= i < j < |rules| ==> rules[i].0 != rules[j].0
  }

  /** The value stored under `key`, if any. */
  function Lookup(rules: Rules, key: string): (r: Option<string>)
    ensures r.Some? <==> key in Keys(rules)
    ensures r.Some? ==> (key, r.value) in rules
    decreases |rules|
  {
    if rules == [] then None
    else if rules[0].0 == key then Some(rules[0].1)
    else
      KeysCons(rules);
      Lookup(rules[1..], key)
  }

  /** The keys of a non-empty table: its first key and the keys of the rest. */
  lemma KeysCons(rules: Rules)
    requires rules != []
    ensures Keys(rules) == {rules[0].0} + Keys(rules[1..])
  {
    forall k | k in Keys(rules) ensures k in {rules[0].0} + Keys(rules[1..]) {
      var i :| 0 <= i < |rules| && rules[i].0 == k;
      if i > 0 { assert rules[1..][i - 1].0 == k; }
    }
    forall k | k in Keys(rules[1..]) ensures k in Keys(rules) {
      var i :| 0 <= i < |rules[1..]| && rules[1..][i].0 == k;
      assert rules[i + 1].0 == k;
    }
  }

  /** `rules[key] = value`: an existing key keeps its place and takes the new
      value; a new key goes at the end. */
  function Put(rules: Rules, key: string, value: string): (r: Rules)
    ensures key in Keys(rules) ==> |r| == |rules|
    ensures key in Keys(rules) ==>
      forall i :: 0 <= i < |rules| ==> r[i] == if rules[i].0 == key then (key, value) else rules[i]
    ensures key !in Keys(rules) ==> r == rules + [(key, value)]
  {
    if key in Keys(rules) then
      seq(|rules|, i requires 0 <= i < |rules| => if rules[i].0 == key then (key, value) else rules[i])
    else rules + [(key, value)]
  }

  /** `rules.Remove(key)`: the entry for `key` goes, the rest keep their order. */
  function Delete(rules: Rules, key: string): (r: Rules)
    ensures Keys(r) == Keys(rules) - {key}
    ensures |r| <= |rules|
    decreases |rules|
  {
    if rules == [] then []
    else
      KeysCons(rules);
      if rules[0].0 == key then Delete(rules[1..], key)
      else
        var d := Delete(rules[1..], key);
        assert ([rules[0]] + d)[1..] == d;
        KeysCons([rules[0]] + d);
        [rules[0]] + d
  }

  lemma PutKeepsKeysDistinct(rules: Rules, key: string, value: string)
    requires KeysDistinct(rules)
    ensures KeysDistinct(Put(rules, key, value))
    ensures Keys(Put(rules, key, value)) == Keys(rules) + {key}
  {
    var r := Put(rules, key, value);
    if key !in Keys(rules) {
      forall i, j | 0 <= i < j < |r| ensures r[i].0 != r[j].0 {
        if j == |rules| { assert rules[i].0 in Keys(rules); }
      }
      assert Keys(r) == Keys(rules) + {key} by {
        forall k | k in Keys(r) ensures k in Keys(rules) + {key} {
          var i :| 0 <= i < |r| && r[i].0 == k;
        }
        forall k | k in Keys(rules) ensures k in Keys(r) {
          var i :| 0 <= i < |rules| && rules[i].0 == k;
          assert r[i].0 == k;
        }
        assert r[|rules|].0 == key;
      }
    } else {
      assert Keys(r) == Keys(rules) by {
        forall k | k in Keys(rules) ensures k in Keys(r) {
          var i :| 0 <= i < |rules| && rules[i].0 == k;
          assert r[i].0 == k;
        }
      }
    }
  }

  /** A rule reads back as it was last set, and setting one rule leaves every
      other as it was. */
  lemma {:induction false} LookupAfterPut(rules: Rules, key: string, value: string, other: string)
    requires KeysDistinct(rules)
    ensures Lookup(Put(rules, key, value), key) == Some(value)
    ensures other != key ==> Lookup(Put(rules, key, value), other) == Lookup(rules, other)
  {
    var r := Put(rules, key, value);
    PutKeepsKeysDistinct(rules, key, value);
    LookupUnique(r, key, value);
    if other != key {
      var o := Lookup(rules, other);
      if o.Some? {
        var i :| 0 <= i < |rules| && rules[i] == (other, o.value);
        if key in Keys(rules) { assert r[i] == rules[i]; } else { assert r[i] == rules[i]; }
        LookupUnique(r, other, o.value);
      } else {
        forall i | 0 <= i < |r| ensures r[i].0 != other {
          if i < |rules| { assert rules[i].0 in Keys(rules); }
        }
      }
    } else {
      assert (key, value) in r by {
        if key in Keys(rules) {
          var i :| 0 <= i < |rules| && rules[i].0 == key;
          assert r[i] == (key, value);
        } else {
          assert r[|rules|] == (key, value);
        }
      }
    }
  }

  /** With distinct keys, an entry present in the table is what `Lookup` finds. */
  lemma {:induction false} LookupUnique(rules: Rules, key: string, value: string)
    requires KeysDistinct(rules)
    requires (key, value) in rules
    ensures Lookup(rules, key) == Some(value)
    decreases |rules|
  {
    if rules[0] != (key, value) {
      var i :| 0 <= i < |rules| && rules[i] == (key, value);
      assert i > 0 && rules[0].0 != key;
      assert rules[1..][i - 1] == (key, value);
      LookupUnique(rules[1..], key, value);
    }
  }

  /** After a removal the key is gone and every other rule reads as before. */
  lemma {:induction false} LookupAfterDelete(rules: Rules, key: string, other: string)
    ensures Lookup(Delete(rules, key), key) == None
    ensures other != key ==> Lookup(Delete(rules, key), other) == Lookup(rules, other)
    decreases |rules|
  {
    if rules != [] {
      LookupAfterDelete(rules[1..], key, other);
    }
  }

  lemma {:induction false} DeleteKeepsKeysDistinct(rules: Rules, key: string)
    requires KeysDistinct(rules)
    ensures KeysDistinct(Delete(rules, key))
    decreases |rules|
  {
    if rules != [] {
      DeleteKeepsKeysDistinct(rules[1..], key);
      if rules[0].0 != key {
        var d := Delete(rules[1..], key);
        forall i | 0 <= i < |rules[1..]| ensures rules[1..][i].0 != rules[0].0 {
          assert rules[1..][i] == rules[i + 1];
        }
        forall i, j | 0 <= i < j < |[rules[0]] + d| ensures ([rules[0]] + d)[i].0 != ([rules[0]] + d)[j].0 {
          if i == 0 { assert d[j - 1].0 in Keys(d); }
        }
      }
    }
  }

  // ---------------------------------------------------------------------
  // Replies
  // ---------------------------------------------------------------------

  /** What `WriteWithLength` is given: it writes a length-prefixed value. */
  datatype Field = Text(s: string) | Port(port: UShort) | Flag(b: bool) | Number(n: int)

  /** One write to the reply: raw characters, one byte, or a length-prefixed field. */
  datatype AseItem = Chars(s: string) | Octet(b: Byte) | WithLength(field: Field)

  /** The reply's bytes, given the length-prefixed encoding of a field. */
  function Encode(items: seq<AseItem>, withLength: Field -> Bytes): Bytes
    decreases |items|
  {
    if items == [] then []
    else
      var head := match items[0]
        case Chars(s) => Ascii(s)
        case Octet(b) => [b]
        case WithLength(f) => withLength(f);
      head + Encode(items[1..], withLength)
  }

  lemma {:induction false} EncodeAppend(a: seq<AseItem>, b: seq<AseItem>, withLength: Field -> Bytes)
    ensures Encode(a + b, withLength) == Encode(a, withLength) + Encode(b, withLength)
    decreases |a|
  {
    if a == [] {
      assert a + b == b;
    } else {
      assert (a + b)[0] == a[0] && (a + b)[1..] == a[1..] + b;
      EncodeAppend(a[1..], b, withLength);
    }
  }

  /** A player as the query sees it: the name with colour codes stripped,
      and the client's ping. */
  datatype AsePlayer = AsePlayer(name: string, ping: UInt)

  /** What the queries read from the server and its configuration. */
  datatype ServerInfo = ServerInfo(
    serverName: string,
    gameType: string,
    mapName: string,
    hasPassword: bool,
    maxPlayerCount: UShort,
    httpPort: UShort,
    uptimeTicks: nat,
    players: seq<AsePlayer>)

  /** "<players>/<max players>", as both light replies write it. */
  function CountText(count: nat, max: nat): string
  {
    Digits(count) + "/" + Digits(max)
  }

  /** Reads "<a>/<b>" back, splitting at the first '/'. */
  function ParseCount(s: string): Option<(nat, nat)>
  {
    if exists i :: 0 <= i < |s| && s[i] == '/' && NoSlash(s[..i]) && AllDigits(s[..i]) && AllDigits(s[i + 1..]) then
      var i :| 0 <= i < |s| && s[i] == '/' && NoSlash(s[..i]) && AllDigits(s[..i]) && AllDigits(s[i + 1..]);
      Some((DigitsValue(s[..i]), DigitsValue(s[i + 1..])))
    else None
  }

  predicate NoSlash(s: string)
  {
    forall k :: 0 <= k < |s| ==> s[k] != '/'
  }

  predicate AllDigits(s: string)
  {
    forall k :: 0 <= k < |s| ==> IsDigit(s[k])
  }

  /** The player-count text reads back as the count and the maximum. */
  lemma CountTextRoundTrip(count: nat, max: nat)
    ensures ParseCount(CountText(count, max)) == Some((count, max))
  {
    var s := CountText(count, max);
    var n := |Digits(count)|;
    assert s[..n] == Digits(count) && s[n + 1..] == Digits(max);
    assert s[n] == '/';
    forall i | 0 <= i < |s| && i != n ensures !(s[i] == '/' && NoSlash(s[..i])) {
      if i < n {
        assert s[i] == Digits(count)[i];
      } else {
        assert s[..i][n] == '/';
      }
    }
    assert NoSlash(s[..n]) by {
      forall k | 0 <= k < n ensures s[..n][k] != '/' {
        assert s[..n][k] == Digits(count)[k];
      }
    }
    DigitsRoundTrip(count);
    DigitsRoundTrip(max);
  }

  /** `Math.Min(n, 255)` cast to a byte: the value itself when it fits a
      byte, 255 otherwise. */
  function Clamp(n: nat): (b: Byte)
    ensures n < 256 ==> b == n
    ensures n >= 256 ==> b == 255
  {
    if n < 255 then n else 255
  }

  function PasswordByte(hasPassword: bool): Byte
  {
    if hasPassword then 1 else 0
  }

  // --- full reply ---

  /** The fixed part of the full reply, up to the rules. */
  function FullHeader(port: UShort, version: string, info: ServerInfo): seq<AseItem>
  {
    [ Chars("EYE1"),
      WithLength(Text("mta")),
      WithLength(Port(port)),
      WithLength(Text(info.serverName)),
      WithLength(Text(info.gameType)),
      WithLength(Text(info.mapName)),
      WithLength(Text(version)),
      WithLength(Flag(info.hasPassword)),
      WithLength(Text(Digits(|info.players|))),
      WithLength(Text(Digits(info.maxPlayerCount))) ]
  }

  function RuleItems(rules: Rules): seq<AseItem>
    decreases |rules|
  {
    if rules == [] then []
    else [WithLength(Text(rules[0].0)), WithLength(Text(rules[0].1))] + RuleItems(rules[1..])
  }

  /** Nick, team, skin, score, ping and time: MTA's player flags 0x01 to 0x20. */
  const FullPlayerFlags: Byte := 0x3F

  /** One player's record: flags, name, team and skin skipped, score 1,
      the ping as an `int`, time skipped. */
  function PlayerRecord(p: AsePlayer): seq<AseItem>
  {
    [ Octet(FullPlayerFlags),
      WithLength(Text(p.name)),
      Octet(1),
      Octet(1),
      WithLength(Number(1)),
      WithLength(Number(ToInt32(p.ping))),
      Octet(1) ]
  }

  function PlayerItems(players: seq<AsePlayer>): seq<AseItem>
    decreases |players|
  {
    if players == [] then [] else PlayerRecord(players[0]) + PlayerItems(players[1..])
  }

  function FullReply(port: UShort, version: string, info: ServerInfo, rules: Rules): seq<AseItem>
  {
    FullHeader(port, version, info) + RuleItems(rules) + [Octet(1)] + PlayerItems(info.players)
  }

  /** Each rule is written as its key then its value, in table order. */
  lemma {:induction false} RuleItemsLayout(rules: Rules)
    ensures |RuleItems(rules)| == 2 * |rules|
    ensures forall i :: 0 <= i < |rules| ==>
      RuleItems(rules)[2 * i] == WithLength(Text(rules[i].0)) &&
      RuleItems(rules)[2 * i + 1] == WithLength(Text(rules[i].1))
    decreases |rules|
  {
    if rules != [] {
      RuleItemsLayout(rules[1..]);
      var r := RuleItems(rules);
      forall i | 1 <= i < |rules|
        ensures r[2 * i] == WithLength(Text(rules[i].0)) && r[2 * i + 1] == WithLength(Text(rules[i].1))
      {
        assert rules[1..][i - 1] == rules[i];
      }
    }
  }

  /** Each player takes seven writes, in player order. */
  lemma {:induction false} PlayerItemsLayout(players: seq<AsePlayer>)
    ensures |PlayerItems(players)| == 7 * |players|
    ensures forall j :: 0 <= j < |players| ==> PlayerItems(players)[7 * j..7 * j + 7] == PlayerRecord(players[j])
    decreases |players|
  {
    if players != [] {
      PlayerItemsLayout(players[1..]);
      var r := PlayerItems(players);
      forall j | 0 <= j < |players| ensures r[7 * j..7 * j + 7] == PlayerRecord(players[j]) {
        if j > 0 {
          assert players[1..][j - 1] == players[j];
          assert r[7 * j..7 * j + 7] == PlayerItems(players[1..])[7 * (j - 1)..7 * (j - 1) + 7];
        }
      }
    }
  }

  /** The full reply is "EYE1" and nine fields, two writes per rule, a
      single byte 1, then seven writes per player. */
  lemma FullReplyLayout(port: UShort, version: string, info: ServerInfo, rules: Rules)
    ensures var r := FullReply(port, version, info, rules);
      && |r| == 11 + 2 * |rules| + 7 * |info.players|
      && r[0] == Chars("EYE1")
      && (forall i :: 0 <= i < |rules| ==>
            r[10 + 2 * i] == WithLength(Text(rules[i].0)) && r[11 + 2 * i] == WithLength(Text(rules[i].1)))
      && r[10 + 2 * |rules|] == Octet(1)
      && (forall j :: 0 <= j < |info.players| ==>
            r[11 + 2 * |rules| + 7 * j..18 + 2 * |rules| + 7 * j] == PlayerRecord(info.players[j]))
  {
    RuleItemsLayout(rules);
    PlayerItemsLayout(info.players);
    var r := FullReply(port, version, info, rules);
    var head := FullHeader(port, version, info);
    var ruleItems := RuleItems(rules);
    var base := 11 + 2 * |rules|;
    assert r == head + ruleItems + [Octet(1)] + PlayerItems(info.players);
    assert |head| == 10;
    forall i | 0 <= i < |rules|
      ensures r[10 + 2 * i] == WithLength(Text(rules[i].0)) && r[11 + 2 * i] == WithLength(Text(rules[i].1))
    {
      assert r[10 + 2 * i] == ruleItems[2 * i] && r[11 + 2 * i] == ruleItems[2 * i + 1];
    }
    assert r[base..] == PlayerItems(info.players);
    forall j | 0 <= j < |info.players|
      ensures r[base + 7 * j..base + 7 * j + 7] == PlayerRecord(info.players[j])
    {
      assert r[base + 7 * j..base + 7 * j + 7] == r[base..][7 * j..7 * j + 7];
    }
  }

  // --- XFire light reply ---

  /** The XFire light reply. Its raw length byte counts itself, the map name,
      the separator and the player-count text. */
  function XFireLightReply(version: string, info: ServerInfo): (r: seq<AseItem>)
    ensures |r| == 12 && r[0] == Chars("EYE3")
    ensures r[10].Octet? && r[11].Octet?
    ensures r[10].b == Clamp(|info.players|) && r[11].b == Clamp(info.maxPlayerCount)
  {
    var count := CountText(|info.players|, info.maxPlayerCount);
    [ Chars("EYE3"),
      WithLength(Text("mta")),
      WithLength(Text(info.serverName)),
      WithLength(Text(info.gameType)),
      Octet(ToByte(|info.mapName| + |count| + 2)),
      Chars(info.mapName),
      Octet(0),
      Chars(count),
      WithLength(Text(version)),
      Octet(PasswordByte(info.hasPassword)),
      Octet(Clamp(|info.players|)),
      Octet(Clamp(info.maxPlayerCount)) ]
  }

  /** The XFire length byte is, modulo 256, the number of bytes from itself
      to the end of the player-count text, whatever the prefixed encoding. */
  lemma XFireLengthByteCountsItself(version: string, info: ServerInfo, withLength: Field -> Bytes)
    ensures var r := XFireLightReply(version, info);
      r[4].Octet? && r[4].b == |Encode(r[4..8], withLength)| % 256
  {
    var r := XFireLightReply(version, info);
    var count := CountText(|info.players|, info.maxPlayerCount);
    assert r[4..8] == [r[4]] + ([Chars(info.mapName)] + ([Octet(0)] + [Chars(count)]));
    EncodeAppend([r[4]], [Chars(info.mapName)] + ([Octet(0)] + [Chars(count)]), withLength);
    EncodeAppend([Chars(info.mapName)], [Octet(0)] + [Chars(count)], withLength);
    EncodeAppend([Octet(0)], [Chars(count)], withLength);
    EncodeSingle(r[4], withLength);
    EncodeSingle(Chars(info.mapName), withLength);
    EncodeSingle(Octet(0), withLength);
    EncodeSingle(Chars(count), withLength);
  }

  lemma EncodeSingle(item: AseItem, withLength: Field -> Bytes)
    ensures item.Chars? ==> |Encode([item], withLength)| == |item.s|
    ensures item.Octet? ==> |Encode([item], withLength)| == 1
  {
    assert [item][1..] == [];
  }

  // --- light reply ---

  /** The seven NUL-separated text fields that follow the map name. */
  function Separated(fields: seq<string>): (r: seq<AseItem>)
    ensures |r| == 2 * |fields|
    decreases |fields|
  {
    if fields == [] then [] else [Octet(0), Chars(fields[0])] + Separated(fields[1..])
  }

  /** Field `i` is the text after the `i`-th separator. */
  lemma {:induction false} SeparatedAt(fields: seq<string>, i: nat)
    requires i < |fields|
    ensures Separated(fields)[2 * i] == Octet(0) && Separated(fields)[2 * i + 1] == Chars(fields[i])
    decreases i
  {
    if i > 0 {
      SeparatedAt(fields[1..], i - 1);
    }
  }

  function TextLength(fields: seq<string>): nat
    decreases |fields|
  {
    if fields == [] then 0 else |fields[0]| + TextLength(fields[1..])
  }

  lemma {:induction false} SeparatedLength(fields: seq<string>, withLength: Field -> Bytes)
    ensures |Encode(Separated(fields), withLength)| == TextLength(fields) + |fields|
    decreases |fields|
  {
    if fields != [] {
      SeparatedLength(fields[1..], withLength);
      EncodeAppend([Octet(0), Chars(fields[0])], Separated(fields[1..]), withLength);
      EncodeAppend([Octet(0)], [Chars(fields[0])], withLength);
      assert [Octet(0), Chars(fields[0])] == [Octet(0)] + [Chars(fields[0])];
      EncodeSingle(Octet(0), withLength);
      EncodeSingle(Chars(fields[0]), withLength);
    }
  }

  function Repeat(c: char, n: nat): (s: string)
    ensures |s| == n && forall i :: 0 <= i < n ==> s[i] == c
  {
    seq(n, _ => c)
  }

  /** Player count, build type, build number, ping status, net route,
      uptime and HTTP port, in that order. The uptime text is a parameter:
      the service writes `Decimal(UptimeAsWritten(ticks))`, the corrected
      text is `Digits(Uptime(ticks))`. */
  function LightFields(t: VersionType, info: ServerInfo, uptime: string): seq<string>
  {
    [ CountText(|info.players|, info.maxPlayerCount),
      Digits(BuildCode(t)) + " ",
      "0",
      Repeat('P', 32),
      Repeat('N', 32),
      uptime,
      Digits(info.httpPort) ]
  }

  /** The light reply up to the player names. */
  function LightHeader(port: UShort, t: VersionType, version: string, info: ServerInfo, uptime: string): (r: seq<AseItem>)
    ensures |r| == 26 && r[0] == Chars("EYE2")
  {
    var fields := LightFields(t, info, uptime);
    var extraDataLength := TextLength(fields) + 7;
    [ Chars("EYE2"),
      WithLength(Text("mta")),
      WithLength(Port(port)),
      WithLength(Text(info.serverName)),
      WithLength(Text(info.gameType)),
      Octet(ToByte(|info.mapName| + 1 + extraDataLength)),
      Chars(info.mapName) ]
    + Separated(fields)
    + [ WithLength(Text(version)),
        Octet(PasswordByte(info.hasPassword)),
        Octet(0),
        Octet(Clamp(|info.players|)),
        Octet(Clamp(info.maxPlayerCount)) ]
  }

  /** The light length byte is, modulo 256, the number of bytes from itself
      to the end of the HTTP port text. */
  lemma LightLengthByteCountsItself(port: UShort, t: VersionType, version: string, info: ServerInfo, uptime: string,
                                    withLength: Field -> Bytes)
    ensures var r := LightHeader(port, t, version, info, uptime);
      r[5].Octet? && r[5].b == |Encode(r[5..21], withLength)| % 256
  {
    var r := LightHeader(port, t, version, info, uptime);
    var fields := LightFields(t, info, uptime);
    assert r[5..21] == [r[5]] + ([Chars(info.mapName)] + Separated(fields));
    EncodeAppend([r[5]], [Chars(info.mapName)] + Separated(fields), withLength);
    EncodeAppend([Chars(info.mapName)], Separated(fields), withLength);
    EncodeSingle(r[5], withLength);
    EncodeSingle(Chars(info.mapName), withLength);
    SeparatedLength(fields, withLength);
  }

  /** The sixth separated field of the light header is the uptime text. */
  lemma LightUptimeField(port: UShort, t: VersionType, version: string, info: ServerInfo, uptime: string)
    ensures var r := LightHeader(port, t, version, info, uptime);
      r[18] == Chars(uptime)
  {
    var fields := LightFields(t, info, uptime);
    SeparatedAt(fields, 5);
  }

  /** With the corrected text the uptime slot carries the whole seconds of
      uptime; as written, five minutes of uptime read "-129". */
  lemma LightUptimeText(port: UShort, t: VersionType, version: string, info: ServerInfo)
    ensures var r := LightHeader(port, t, version, info, Digits(Uptime(info.uptimeTicks)));
      r[18] == Chars(Digits(info.uptimeTicks / TicksPerSecond))
    ensures info.uptimeTicks == 3_000_000_000 ==>
      LightHeader(port, t, version, info, Decimal(UptimeAsWritten(info.uptimeTicks)))[18] == Chars("-129")
  {
    LightUptimeField(port, t, version, info, Digits(Uptime(info.uptimeTicks)));
    LightUptimeField(port, t, version, info, Decimal(UptimeAsWritten(info.uptimeTicks)));
    if info.uptimeTicks == 3_000_000_000 {
      UptimeAsWrittenWraps();
      assert Digits(129) == Digits(12) + "9";
      assert Digits(12) == Digits(1) + "2";
    }
  }

  /** The player-name budget of a light reply: 1340 bytes less what the
      header takes. */
  const LightReplyBudget: int := 1340

  /** How the name loop decides that a name still fits. */
  datatype Guard = AsWritten | Intended

  /** As written the test reads `bytesLeft - name.Length + 2 > 0`; the
      decrement that follows it charges `name.Length + 2`, so the test meant
      is `bytesLeft - (name.Length + 2) > 0`. */
  predicate Fits(guard: Guard, bytesLeft: int, length: nat)
  {
    match guard
    case AsWritten => bytesLeft - length + 2 > 0
    case Intended => bytesLeft - (length + 2) > 0
  }

  function MoreText(playersLeft: int): string
  {
    "And " + Decimal(playersLeft) + " more"
  }

  /** The name section of a light reply: names while they fit, then, at the
      first that does not, "And N more" with N the players-left counter. */
  function NameSection(names: seq<string>, bytesLeft: int, playersLeft: int, guard: Guard): seq<AseItem>
    decreases |names|
  {
    if names == [] then []
    else if Fits(guard, bytesLeft, |names[0]|) then
      [WithLength(Text(names[0]))] + NameSection(names[1..], bytesLeft - (|names[0]| + 2), playersLeft - 1, guard)
    else [WithLength(Text(MoreText(playersLeft)))]
  }

  /** How many names the section lists. */
  function Listed(names: seq<string>, bytesLeft: int, guard: Guard): (k: nat)
    ensures k <= |names|
    decreases |names|
  {
    if names == [] || !Fits(guard, bytesLeft, |names[0]|) then 0
    else 1 + Listed(names[1..], bytesLeft - (|names[0]| + 2), guard)
  }

  /** The bytes the loop charges for a run of names: two more than each name. */
  function Spent(names: seq<string>): nat
    decreases |names|
  {
    if names == [] then 0 else |names[0]| + 2 + Spent(names[1..])
  }

  /** The section lists the first `Listed` names, in order, and adds
      "And N more" exactly when some are left out; N is the counter it
      started with less the names listed. */
  lemma {:induction false} NameSectionShape(names: seq<string>, bytesLeft: int, playersLeft: int, guard: Guard)
    ensures var k := Listed(names, bytesLeft, guard);
      var r := NameSection(names, bytesLeft, playersLeft, guard);
      && |r| == (if k < |names| then k + 1 else k)
      && (forall i :: 0 <= i < k ==> r[i] == WithLength(Text(names[i])))
      && (k < |names| ==> r[k] == WithLength(Text(MoreText(playersLeft - k))))
    decreases |names|
  {
    if names != [] && Fits(guard, bytesLeft, |names[0]|) {
      var rest := bytesLeft - (|names[0]| + 2);
      NameSectionShape(names[1..], rest, playersLeft - 1, guard);
      var r := NameSection(names, bytesLeft, playersLeft, guard);
      var tail := NameSection(names[1..], rest, playersLeft - 1, guard);
      var k := Listed(names, bytesLeft, guard);
      assert k == 1 + Listed(names[1..], rest, guard);
      assert r == [WithLength(Text(names[0]))] + tail;
      forall i | 1 <= i < k ensures r[i] == WithLength(Text(names[i])) {
        assert r[i] == tail[i - 1] && names[1..][i - 1] == names[i];
      }
      if k < |names| {
        assert r[k] == tail[k - 1];
      }
    }
  }

  /** With the intended test, the names listed leave part of the budget
      unspent, and the first name left out would not have: the section is
      the longest run of names that fits. */
  lemma {:induction false} NameSectionWithinBudget(names: seq<string>, bytesLeft: int)
    ensures var k := Listed(names, bytesLeft, Intended);
      && (k > 0 ==> Spent(names[..k]) < bytesLeft)
      && (k < |names| ==> Spent(names[..k + 1]) >= bytesLeft)
    decreases |names|
  {
    if names != [] {
      var k := Listed(names, bytesLeft, Intended);
      var rest := bytesLeft - (|names[0]| + 2);
      if Fits(Intended, bytesLeft, |names[0]|) {
        NameSectionWithinBudget(names[1..], rest);
        var k1 := Listed(names[1..], rest, Intended);
        assert names[..k][1..] == names[1..][..k1];
        if k < |names| {
          assert names[..k + 1][1..] == names[1..][..k1 + 1];
        }
      } else {
        assert names[..1][1..] == [];
      }
    }
  }

  /** As written, one four-character name with three bytes of budget left is
      still listed, though it is charged six. */
  lemma NameGuardAsWrittenOverruns()
    ensures Listed(["abcd"], 3, AsWritten) == 1
    ensures Spent(["abcd"]) == 6
    ensures NameSection(["abcd"], 3, 2, AsWritten) == [WithLength(Text("abcd"))]
    ensures Listed(["abcd"], 3, Intended) == 0
  {
    assert ["abcd"][1..] == [];
  }

  /** As written, the overrun is at most three bytes. */
  lemma {:induction false} NameGuardAsWrittenBound(names: seq<string>, bytesLeft: int)
    requires bytesLeft >= -3
    ensures var k := Listed(names, bytesLeft, AsWritten);
      k > 0 ==> Spent(names[..k]) <= bytesLeft + 3
    decreases |names|
  {
    if names != [] && Fits(AsWritten, bytesLeft, |names[0]|) {
      var k := Listed(names, bytesLeft, AsWritten);
      var rest := bytesLeft - (|names[0]| + 2);
      NameGuardAsWrittenBound(names[1..], rest);
      var k1 := Listed(names[1..], rest, AsWritten);
      assert names[..k][1..] == names[1..][..k1];
      if k1 == 0 { assert names[..k][1..] == []; }
    }
  }

  function NamesOf(players: seq<AsePlayer>): (names: seq<string>)
    ensures |names| == |players| && forall i :: 0 <= i < |players| ==> names[i] == players[i].name
  {
    seq(|players|, i requires 0 <= i < |players| => players[i].name)
  }

  /** The whole light reply, for the prefixed encoding `withLength`, the
      uptime text and the name-fit test. */
  function LightReply(port: UShort, t: VersionType, version: string, info: ServerInfo, withLength: Field -> Bytes,
                      uptime: string, guard: Guard): seq<AseItem>
  {
    var header := LightHeader(port, t, version, info, uptime);
    var names := NamesOf(info.players);
    header + NameSection(names, LightReplyBudget - |Encode(header, withLength)|, |names| + 1, guard)
  }

  // ---------------------------------------------------------------------
  // The service
  // ---------------------------------------------------------------------

  class AseQueryService {
    const aseVersion: AseVersion := V1_5
    var rules: Rules

    predicate Valid()
      reads this
    {
      KeysDistinct(rules)
    }

    constructor()
      ensures rules == [] && Valid()
    {
      rules := [];
    }

    method SetRule(key: string, value: string)
      requires Valid()
      modifies this`rules
      ensures rules == Put(old(rules), key, value)
      ensures Valid()
    {
      PutKeepsKeysDistinct(rules, key, value);
      rules := Put(rules, key, value);
    }

    /** Removes a rule; true iff there was one. */
    method RemoveRule(key: string) returns (removed: bool)
      requires Valid()
      modifies this`rules
      ensures removed <==> key in Keys(old(rules))
      ensures rules == Delete(old(rules), key)
      ensures Valid()
    {
      removed := key in Keys(rules);
      DeleteKeepsKeysDistinct(rules, key);
      rules := Delete(rules, key);
    }

    method GetRule(key: string) returns (value: Option<string>)
      requires Valid()
      ensures value.Some? <==> key in Keys(rules)
      ensures value.Some? ==> (key, value.value) in rules
    {
      value := Lookup(rules, key);
    }

    /** The full reply: header, every rule in table order, then every player. */
    method QueryFull(port: UShort, info: ServerInfo) returns (reply: seq<AseItem>)
      ensures reply == FullReply(port, "1.5", info, rules)
    {
      var version := GetVersion(aseVersion);
      reply := FullHeader(port, version.value, info);
      var i := 0;
      while i < |rules|
        invariant 0 <= i <= |rules|
        invariant reply + RuleItems(rules[i..]) == FullHeader(port, "1.5", info) + RuleItems(rules)
      {
        assert rules[i..][1..] == rules[i + 1..];
        reply := reply + [WithLength(Text(rules[i].0)), WithLength(Text(rules[i].1))];
        i := i + 1;
      }
      reply := reply + [Octet(1)];
      var players := info.players;
      var j := 0;
      while j < |players|
        invariant 0 <= j <= |players|
        invariant reply + PlayerItems(players[j..]) == FullReply(port, "1.5", info, rules)
      {
        assert players[j..][1..] == players[j + 1..];
        reply := reply + PlayerRecord(players[j]);
        j := j + 1;
      }
    }

    method QueryXFireLight(info: ServerInfo) returns (reply: seq<AseItem>)
      ensures reply == XFireLightReply("1.5", info)
    {
      var version := GetVersion(aseVersion);
      reply := XFireLightReply(version.value, info);
    }

    /** The light reply as the service writes it: the header with the
        32-bit uptime text, then player names while the as-written test
        lets them through the 1340-byte budget, then "And N more". */
    method QueryLight(port: UShort, t: VersionType, info: ServerInfo, withLength: Field -> Bytes) returns (reply: seq<AseItem>)
      ensures reply == LightReply(port, t, if t == Release then "1.5" else "1.5n", info, withLength,
                                  Decimal(UptimeAsWritten(info.uptimeTicks)), AsWritten)
    {
      var version := GetVersion(LightVersion(aseVersion, t));
      var uptime := Decimal(UptimeAsWritten(info.uptimeTicks));
      var header := LightHeader(port, t, version.value, info, uptime);
      var section := WriteNames(NamesOf(info.players), LightReplyBudget - |Encode(header, withLength)|, AsWritten);
      reply := header + section;
    }

    /** The name loop of the light reply, from `budget` bytes, with the
        fit test `guard`: `AsWritten` is the service's, `Intended` the
        corrected one. */
    static method WriteNames(names: seq<string>, budget: int, guard: Guard) returns (section: seq<AseItem>)
      ensures section == NameSection(names, budget, |names| + 1, guard)
    {
      var bytesLeft := budget;
      var playersLeft := |names| + 1;
      section := [];
      var i := 0;
      while i < |names|
        invariant 0 <= i <= |names|
        invariant section + NameSection(names[i..], bytesLeft, playersLeft, guard)
          == NameSection(names, budget, |names| + 1, guard)
      {
        var name := names[i];
        assert names[i..][1..] == names[i + 1..];
        if Fits(guard, bytesLeft, |name|) {
          section := section + [WithLength(Text(name))];
          bytesLeft := bytesLeft - (|name| + 2);
          playersLeft := playersLeft - 1;
        } else {
          section := section + [WithLength(Text(MoreText(playersLeft)))];
          break;
        }
        i := i + 1;
      }
    }
  }
}
