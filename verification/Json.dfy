/**
  The canonical text that is hashed for an action: JSON with sorted keys and no spaces, printed in
  ASCII. A parser for the value, number and string syntax of RFC 8259 (sections 4 to 7) inverts the
  printer, so the text determines the value.
 */
module Json {
  import opened Base

  /** A JSON value. Object members have no order of their own, as in a Python dict comparison. */
  datatype Json =
    | Null
    | Bool(b: bool)
    | Number(n: int)
    | Str(s: string)
    | Arr(items: seq<Json>)
    | Obj(fields: map<string, Json>)

  /******* Key order *******/

  /** Strings compare by code point, as the keys of a sorted dump do. */
  predicate Before(a: string, b: string) {
    if b == "" then false
    else if a == "" then true
    else if a[0] != b[0] then a[0] < b[0]
    else Before(a[1..], b[1..])
  }

  lemma {:induction false} BeforeIsTotal(a: string, b: string)
    ensures a == b || Before(a, b) || Before(b, a)
  {
    if a != "" && b != "" && a[0] == b[0] {
      BeforeIsTotal(a[1..], b[1..]);
      assert a == [a[0]] + a[1..] && b == [b[0]] + b[1..];
    }
  }

  lemma {:induction false} BeforeIsTransitive(a: string, b: string, c: string)
    requires Before(a, b) && Before(b, c)
    ensures Before(a, c)
  {
    if a != "" && a[0] == b[0] && b[0] == c[0] {
      BeforeIsTransitive(a[1..], b[1..], c[1..]);
    }
  }

  lemma {:induction false} BeforeIsIrreflexive(a: string)
    ensures !Before(a, a)
  {
    if a != "" {
      BeforeIsIrreflexive(a[1..]);
    }
  }

  predicate IsFirst(k: string, keys: set<string>) {
    k in keys && forall x :: x in keys && x != k ==> Before(k, x)
  }

  lemma {:induction false} FirstExists(keys: set<string>)
    requires keys != {}
    ensures exists k :: IsFirst(k, keys)
    decreases keys
  {
    var k :| k in keys;
    if keys == {k} {
      assert IsFirst(k, keys);
    } else {
      FirstExists(keys - {k});
      var other :| IsFirst(other, keys - {k});
      BeforeIsTotal(k, other);
      if Before(k, other) {
        forall x | x in keys && x != k && x != other ensures Before(k, x) {
          BeforeIsTransitive(k, other, x);
        }
        assert IsFirst(k, keys);
      } else {
        assert IsFirst(other, keys);
      }
    }
  }

  lemma FirstIsUnique(keys: set<string>)
    ensures forall j, k :: IsFirst(j, keys) && IsFirst(k, keys) ==> j == k
  {
    forall j, k | IsFirst(j, keys) && IsFirst(k, keys) ensures j == k {
      if j != k {
        BeforeIsTransitive(j, k, j);
        BeforeIsIrreflexive(j);
      }
    }
  }

  /** The keys of an object in printing order. */
  function SortedKeys(keys: set<string>): (r: seq<string>)
    ensures forall k :: k in r <==> k in keys
    ensures forall i, j :: 0 <= i < j < |r| ==> Before(r[i], r[j])
    decreases keys
  {
    if keys == {} then []
    else
      FirstExists(keys);
      FirstIsUnique(keys);
      var first :| first in keys && IsFirst(first, keys);
      [first] + SortedKeys(keys - {first})
  }

  ghost predicate Ascending(r: seq<string>) {
    forall i, j :: 0 <= i < j < |r| ==> Before(r[i], r[j])
  }

  /** There is one way to put a set of keys in order, so insertion order never reaches the text. */
  lemma {:induction false} SortedKeysAreUnique(p: seq<string>, q: seq<string>)
    requires Ascending(p) && Ascending(q)
    requires forall k :: k in p <==> k in q
    ensures p == q
  {
    assert p == [] <==> q == [] by {
      if p != [] { assert p[0] in p; }
      if q != [] { assert q[0] in q; }
    }
    if p != [] {
      HeadsAgree(p, q);
      forall k ensures k in p[1..] <==> k in q[1..] {
        BeforeIsIrreflexive(p[0]);
        if k in p[1..] { assert k in p && k != p[0]; assert k in q; }
        if k in q[1..] { assert k in q && k != q[0]; assert k in p; }
      }
      SortedKeysAreUnique(p[1..], q[1..]);
    }
  }

  lemma HeadsAgree(p: seq<string>, q: seq<string>)
    requires Ascending(p) && Ascending(q) && p != [] && q != []
    requires forall k :: k in p <==> k in q
    ensures p[0] == q[0]
  {
    assert p[0] in q && q[0] in p;
    if p[0] != q[0] {
      BeforeIsTransitive(p[0], q[0], p[0]);
      BeforeIsIrreflexive(p[0]);
    }
  }

  /******* Printer *******/

  // Every Put function writes its value in front of the text `rest`.

  function Digit(d: nat): char
    requires d < 10
  {
    '0' + d as char
  }

  function PutNat(n: nat, rest: string): string {
    if n < 10 then [Digit(n)] + rest else PutNat(n / 10, [Digit(n % 10)] + rest)
  }

  function PutInt(n: int, rest: string): string {
    if n < 0 then "-" + PutNat(-n, rest) else PutNat(n, rest)
  }

  function Hex(d: nat): char
    requires d < 16
  {
    if d < 10 then '0' + d as char else 'a' + (d - 10) as char
  }

  function PutUnit(u: nat, rest: string): string
    requires u < 0x10000
  {
    ['\\', 'u', Hex(u / 0x1000), Hex(u / 0x100 % 0x10), Hex(u / 0x10 % 0x10), Hex(u % 0x10)] + rest
  }

  /** One character of a string: short escapes, printable ASCII as is, UTF-16 units otherwise. */
  function PutChar(c: char, rest: string): string {
    if c == '"' then "\\\"" + rest
    else if c == '\\' then "\\\\" + rest
    else if c == '\n' then "\\n" + rest
    else if c == '\r' then "\\r" + rest
    else if c == '\t' then "\\t" + rest
    else if c as int == 8 then "\\b" + rest
    else if c as int == 12 then "\\f" + rest
    else if ' ' <= c <= '~' then [c] + rest
    else if c as int < 0x10000 then PutUnit(c as int, rest)
    else
      var v := c as int - 0x10000;
      PutUnit(0xD800 + v / 0x400, PutUnit(0xDC00 + v % 0x400, rest))
  }

  function PutChars(s: string, rest: string): string {
    if s == "" then rest else PutChar(s[0], PutChars(s[1..], rest))
  }

  function PutStr(s: string, rest: string): string {
    "\"" + PutChars(s, "\"" + rest)
  }

  function Put(v: Json, rest: string): string
    decreases v, 2, 0
  {
    match v
    case Null => "null" + rest
    case Bool(b) => (if b then "true" else "false") + rest
    case Number(n) => PutInt(n, rest)
    case Str(s) => PutStr(s, rest)
    case Arr(items) => "[" + (if items == [] then "]" + rest else PutItems(v, 0, rest))
    case Obj(fields) => "{" + PutMembers(v, SortedKeys(fields.Keys), rest)
  }

  /** The items from the k-th on, up to the closing bracket. */
  function PutItems(v: Json, k: nat, rest: string): string
    requires v.Arr? && k < |v.items|
    decreases v, 1, 2 * (|v.items| - k)
  {
    Put(v.items[k], PutMoreItems(v, k + 1, rest))
  }

  function PutMoreItems(v: Json, k: nat, rest: string): string
    requires v.Arr? && k <= |v.items|
    decreases v, 1, 2 * (|v.items| - k) + 1
  {
    if k == |v.items| then "]" + rest else "," + PutItems(v, k, rest)
  }

  /** Members in key order; the first one is not preceded by a comma. */
  function PutMembers(v: Json, keys: seq<string>, rest: string): string
    requires v.Obj? && forall k :: k in keys ==> k in v.fields
    decreases v, 1, 2 * |keys|
  {
    if keys == [] then "}" + rest
    else PutStr(keys[0], ":" + Put(v.fields[keys[0]], PutMoreMembers(v, keys[1..], rest)))
  }

  function PutMoreMembers(v: Json, keys: seq<string>, rest: string): string
    requires v.Obj? && forall k :: k in keys ==> k in v.fields
    decreases v, 1, 2 * |keys| + 1
  {
    if keys == [] then "}" + rest else "," + PutMembers(v, keys, rest)
  }

  function Canonical(v: Json): string {
    Put(v, "")
  }

  /******* Parser *******/

  predicate IsDigit(c: char) {
    '0' <= c <= '9'
  }

  predicate At(s: string, c: char) {
    s != "" && s[0] == c
  }

  /** Reads decimal digits greedily; `acc` holds the digits read so far. */
  function ReadDigits(acc: nat, s: string): (r: (nat, string))
    ensures |r.1| <= |s|
    decreases |s|
  {
    if s != "" && IsDigit(s[0]) then ReadDigits(10 * acc + (s[0] - '0') as nat, s[1..]) else (acc, s)
  }

  function HexValue(c: char): Option<nat> {
    if IsDigit(c) then Some((c - '0') as nat)
    else if 'a' <= c <= 'f' then Some(10 + (c - 'a') as nat)
    else if 'A' <= c <= 'F' then Some(10 + (c - 'A') as nat)
    else None
  }

  /** Reads the four hexadecimal digits after a backslash and a `u`. */
  function ReadUnit(s: string): (r: Option<nat>)
    ensures r.Some? ==> |s| >= 6 && r.value < 0x10000
  {
    if |s| < 6 || s[0] != '\\' || s[1] != 'u' then None
    else
      match (HexValue(s[2]), HexValue(s[3]), HexValue(s[4]), HexValue(s[5]))
      case (Some(a), Some(b), Some(c), Some(d)) =>
        if a < 16 && b < 16 && c < 16 && d < 16 then Some(a * 0x1000 + b * 0x100 + c * 0x10 + d) else None
      case _ => None
  }

  /** Reads one character of a string literal, which may be a surrogate pair of escapes. */
  function ReadChar(s: string): (r: Option<(char, string)>)
    ensures r.Some? ==> |r.value.1| < |s|
  {
    if s == "" || s[0] == '"' || s[0] < ' ' then None
    else if s[0] != '\\' then Some((s[0], s[1..]))
    else if |s| < 2 then None
    else if s[1] == 'u' then
      match ReadUnit(s)
      case None => None
      case Some(u) =>
        if u < 0xD800 || 0xE000 <= u then Some((u as char, s[6..]))
        else
          match ReadUnit(s[6..])
          case None => None
          case Some(low) =>
            if u < 0xDC00 && 0xDC00 <= low < 0xE000
            then Some(((0x10000 + (u - 0xD800) * 0x400 + (low - 0xDC00)) as char, s[12..]))
            else None
    else if s[1] == '"' || s[1] == '\\' || s[1] == '/' then Some((s[1], s[2..]))
    else if s[1] == 'n' then Some(('\n', s[2..]))
    else if s[1] == 'r' then Some(('\r', s[2..]))
    else if s[1] == 't' then Some(('\t', s[2..]))
    else if s[1] == 'b' then Some((8 as char, s[2..]))
    else if s[1] == 'f' then Some((12 as char, s[2..]))
    else None
  }

  /** Reads up to and including the closing quote. */
  function ReadChars(s: string): (r: Option<(string, string)>)
    ensures r.Some? ==> |r.value.1| < |s|
    decreases |s|
  {
    if s != "" && s[0] == '"' then Some(("", s[1..]))
    else
      match ReadChar(s)
      case None => None
      case Some((c, more)) =>
        match ReadChars(more)
        case None => None
        case Some((cs, after)) => Some(([c] + cs, after))
  }

  function ReadStr(s: string): (r: Option<(string, string)>)
    ensures r.Some? ==> |r.value.1| < |s|
  {
    if s != "" && s[0] == '"' then ReadChars(s[1..]) else None
  }

  /** Reads one value; its first character decides its kind. */
  function Read(s: string): (r: Option<(Json, string)>)
    ensures r.Some? ==> |r.value.1| < |s|
    decreases |s|, 2
  {
    if s == "" then None
    else if s[0] == '[' then ReadArray(s)
    else if s[0] == '{' then ReadObject(s)
    else if s[0] == '"' then
      match ReadStr(s)
      case None => None
      case Some((text, after)) => Some((Str(text), after))
    else if s[0] == '-' || IsDigit(s[0]) then ReadNumber(s)
    else ReadWord(s)
  }

  function ReadWord(s: string): (r: Option<(Json, string)>)
    ensures r.Some? ==> |r.value.1| < |s|
  {
    if "null" <= s then Some((Null, s[4..]))
    else if "true" <= s then Some((Bool(true), s[4..]))
    else if "false" <= s then Some((Bool(false), s[5..]))
    else None
  }

  function ReadNumber(s: string): (r: Option<(Json, string)>)
    ensures r.Some? ==> |r.value.1| < |s|
  {
    var digits := if At(s, '-') then s[1..] else s;
    if digits == "" || !IsDigit(digits[0]) then None
    else
      var (n, after) := ReadDigits((digits[0] - '0') as nat, digits[1..]);
      Some((Number(if At(s, '-') then -(n as int) else n), after))
  }

  function ReadArray(s: string): (r: Option<(Json, string)>)
    requires s != ""
    ensures r.Some? ==> |r.value.1| < |s|
    decreases |s|, 0
  {
    if At(s[1..], ']') then Some((Arr([]), s[2..]))
    else
      match ReadItems(s[1..])
      case None => None
      case Some((items, after)) => Some((Arr(items), after))
  }

  function ReadObject(s: string): (r: Option<(Json, string)>)
    requires s != ""
    ensures r.Some? ==> |r.value.1| < |s|
    decreases |s|, 0
  {
    if At(s[1..], '}') then Some((Obj(map[]), s[2..]))
    else
      match ReadMembers(s[1..])
      case None => None
      case Some((fields, after)) => Some((Obj(fields), after))
  }

  /** Reads `value , ... value ]`. */
  function ReadItems(s: string): (r: Option<(seq<Json>, string)>)
    ensures r.Some? ==> |r.value.1| < |s|
    decreases |s|, 3
  {
    match Read(s)
    case None => None
    case Some((v, after)) =>
      if At(after, ']') then Some(([v], after[1..]))
      else if At(after, ',') then
        match ReadItems(after[1..])
        case None => None
        case Some((vs, end)) => Some(([v] + vs, end))
      else None
  }

  /** Reads `"key" : value , ... }`; a repeated key is an error. */
  function ReadMembers(s: string): (r: Option<(map<string, Json>, string)>)
    ensures r.Some? ==> |r.value.1| < |s|
    decreases |s|, 3
  {
    match ReadStr(s)
    case None => None
    case Some((key, colon)) =>
      if !At(colon, ':') then None
      else
        match Read(colon[1..])
        case None => None
        case Some((v, after)) =>
          if At(after, '}') then Some((map[key := v], after[1..]))
          else if At(after, ',') then
            match ReadMembers(after[1..])
            case None => None
            case Some((fields, end)) => if key in fields then None else Some((fields[key := v], end))
          else None
  }

  /******* The parser inverts the printer *******/

  lemma {:induction false} ReadDigitsInvertsPutNat(n: nat, rest: string)
    ensures PutNat(n, rest) != "" && IsDigit(PutNat(n, rest)[0])
    ensures ReadDigits(0, PutNat(n, rest)) == ReadDigits(n, rest)
  {
    if n >= 10 {
      ReadDigitsInvertsPutNat(n / 10, [Digit(n % 10)] + rest);
    }
  }

  lemma HexValueInvertsHex(d: nat)
    requires d < 16
    ensures HexValue(Hex(d)) == Some(d)
  {}

  lemma HexDigits(u: nat)
    requires u < 0x10000
    ensures u / 0x1000 < 16
    ensures u / 0x1000 * 0x1000 + u / 0x100 % 0x10 * 0x100 + u / 0x10 % 0x10 * 0x10 + u % 0x10 == u
  {}

  lemma ReadUnitInvertsPutUnit(u: nat, rest: string)
    requires u < 0x10000
    ensures ReadUnit(PutUnit(u, rest)) == Some(u) && PutUnit(u, rest)[6..] == rest
  {
    var a, b, c, d := u / 0x1000, u / 0x100 % 0x10, u / 0x10 % 0x10, u % 0x10;
    HexDigits(u);
    HexValueInvertsHex(a);
    HexValueInvertsHex(b);
    HexValueInvertsHex(c);
    HexValueInvertsHex(d);
    ReadUnitDigits(PutUnit(u, rest), a, b, c, d);
  }

  lemma ReadUnitDigits(s: string, a: nat, b: nat, c: nat, d: nat)
    requires a < 16 && b < 16 && c < 16 && d < 16
    requires ['\\', 'u', Hex(a), Hex(b), Hex(c), Hex(d)] <= s
    ensures ReadUnit(s) == Some(a * 0x1000 + b * 0x100 + c * 0x10 + d)
  {
    HexValueInvertsHex(a);
    HexValueInvertsHex(b);
    HexValueInvertsHex(c);
    HexValueInvertsHex(d);
    assert s[2] == Hex(a) && s[3] == Hex(b) && s[4] == Hex(c) && s[5] == Hex(d);
  }

  lemma ReadCharInvertsPutChar(c: char, rest: string)
    ensures ReadChar(PutChar(c, rest)) == Some((c, rest))
    ensures PutChar(c, rest)[0] != '"'
  {
    if c as int >= 0x10000 {
      var v := c as int - 0x10000;
      var low := PutUnit(0xDC00 + v % 0x400, rest);
      ReadUnitInvertsPutUnit(0xD800 + v / 0x400, low);
      ReadUnitInvertsPutUnit(0xDC00 + v % 0x400, rest);
      assert PutChar(c, rest)[12..] == PutChar(c, rest)[6..][6..];
    } else if !(' ' <= c <= '~') {
      ReadUnitInvertsPutUnit(c as int, rest);
    }
  }

  lemma {:induction false} ReadCharsInvertsPutChars(s: string, rest: string)
    ensures ReadChars(PutChars(s, "\"" + rest)) == Some((s, rest))
  {
    if s == "" {
      assert PutChars(s, "\"" + rest) == "\"" + rest;
    } else {
      ReadCharInvertsPutChar(s[0], PutChars(s[1..], "\"" + rest));
      ReadCharsInvertsPutChars(s[1..], rest);
      assert s == [s[0]] + s[1..];
    }
  }

  /** A number must not be followed by more digits. */
  predicate Stops(rest: string) {
    rest == "" || !IsDigit(rest[0])
  }

  lemma {:induction false} ReadInvertsPut(v: Json, rest: string)
    requires Stops(rest)
    ensures Put(v, rest) != "" && Put(v, rest)[0] != ']' && Read(Put(v, rest)) == Some((v, rest))
    decreases v, 2, 0
  {
    match v
    case Null =>
    case Bool(b) =>
    case Number(n) => ReadInvertsPutInt(n, rest);
    case Str(s) => ReadStrInvertsPutStr(s, rest);
    case Arr(items) =>
      if items == [] {
        assert Put(v, rest)[2..] == rest;
      } else {
        ReadItemsInvertsPutItems(v, 0, rest);
        assert Put(v, rest)[1..] == PutItems(v, 0, rest);
        assert items[0..] == items;
      }
    case Obj(fields) =>
      ReadInvertsPutObj(v, rest);
  }

  lemma {:induction false} ReadInvertsPutObj(v: Json, rest: string)
    requires v.Obj?
    ensures Put(v, rest) != "" && Put(v, rest)[0] == '{' && ReadObject(Put(v, rest)) == Some((v, rest))
    decreases v, 1, 2 * |SortedKeys(v.fields.Keys)| + 1
  {
    var keys := SortedKeys(v.fields.Keys);
    var body := PutMembers(v, keys, rest);
    assert Put(v, rest)[1..] == body;
    if keys == [] {
      assert Put(v, rest)[2..] == rest;
      assert v.fields == map[];
    } else {
      SortedKeysAreDistinct(v.fields.Keys);
      ReadMembersInvertsPutMembers(v, keys, rest);
      assert Pick(v, keys) == v.fields;
    }
  }

  lemma ReadStrInvertsPutStr(s: string, rest: string)
    ensures ReadStr(PutStr(s, rest)) == Some((s, rest))
    ensures PutStr(s, rest) != "" && PutStr(s, rest)[0] == '"'
  {
    ReadCharsInvertsPutChars(s, rest);
    assert PutStr(s, rest)[1..] == PutChars(s, "\"" + rest);
  }

  lemma ReadInvertsPutInt(n: int, rest: string)
    requires Stops(rest)
    ensures PutInt(n, rest) != "" && PutInt(n, rest)[0] != ']'
    ensures Read(PutInt(n, rest)) == Some((Number(n), rest))
  {
    var size := if n < 0 then -n else n;
    var text := PutNat(size, rest);
    ReadDigitsInvertsPutNat(size, rest);
    assert ReadDigits(0, text) == ReadDigits((text[0] - '0') as nat, text[1..]);
    if n < 0 {
      assert ("-" + text)[1] == text[0] && ("-" + text)[2..] == text[1..];
    }
  }

  lemma SortedKeysAreDistinct(keys: set<string>)
    ensures Distinct(SortedKeys(keys))
  {
    forall k { BeforeIsIrreflexive(k); }
  }

  lemma ReadItemsStep(s: string, v: Json, after: string)
    requires Read(s) == Some((v, after))
    ensures At(after, ']') ==> ReadItems(s) == Some(([v], after[1..]))
    ensures At(after, ',') && ReadItems(after[1..]).Some? ==>
      ReadItems(s) == Some(([v] + ReadItems(after[1..]).value.0, ReadItems(after[1..]).value.1))
  {}

  lemma {:induction false} ReadItemsInvertsPutItems(v: Json, k: nat, rest: string)
    requires v.Arr? && k < |v.items|
    ensures ReadItems(PutItems(v, k, rest)) == Some((v.items[k..], rest))
    ensures PutItems(v, k, rest) != "" && PutItems(v, k, rest)[0] != ']'
    decreases v, 1, 2 * (|v.items| - k)
  {
    var more := PutMoreItems(v, k + 1, rest);
    ReadInvertsPut(v.items[k], more);
    ReadItemsStep(Put(v.items[k], more), v.items[k], more);
    if k + 1 == |v.items| {
      assert v.items[k..] == [v.items[k]];
      assert more[1..] == rest;
    } else {
      ReadItemsInvertsPutItems(v, k + 1, rest);
      assert v.items[k..] == [v.items[k]] + v.items[k + 1..];
      assert more[1..] == PutItems(v, k + 1, rest);
    }
  }

  lemma ReadMembersStep(s: string, key: string, colon: string, v: Json, after: string)
    requires ReadStr(s) == Some((key, colon)) && At(colon, ':') && Read(colon[1..]) == Some((v, after))
    ensures At(after, '}') ==> ReadMembers(s) == Some((map[key := v], after[1..]))
    ensures At(after, ',') && ReadMembers(after[1..]).Some? && key !in ReadMembers(after[1..]).value.0 ==>
      ReadMembers(s) == Some((ReadMembers(after[1..]).value.0[key := v], ReadMembers(after[1..]).value.1))
  {}

  ghost function Pick(v: Json, keys: seq<string>): map<string, Json>
    requires v.Obj? && forall k :: k in keys ==> k in v.fields
  {
    map k | k in keys :: v.fields[k]
  }

  ghost predicate Distinct(keys: seq<string>) {
    forall i, j :: 0 <= i < j < |keys| ==> keys[i] != keys[j]
  }

  lemma {:induction false} ReadMembersInvertsPutMembers(v: Json, keys: seq<string>, rest: string)
    requires v.Obj? && keys != [] && forall k :: k in keys ==> k in v.fields
    requires Distinct(keys)
    ensures ReadMembers(PutMembers(v, keys, rest)) == Some((Pick(v, keys), rest))
    ensures PutMembers(v, keys, rest) != "" && PutMembers(v, keys, rest)[0] == '"'
    decreases v, 1, 2 * |keys|
  {
    hide ReadMembers, ReadStr, Read, ReadChars, PutChars;
    var key, others := keys[0], keys[1..];
    var more := PutMoreMembers(v, others, rest);
    var value := Put(v.fields[key], more);
    ReadStrInvertsPutStr(key, ":" + value);
    ReadInvertsPut(v.fields[key], more);
    assert (":" + value)[1..] == value;
    assert keys == [key] + others;
    if others == [] {
      assert Pick(v, keys) == map[key := v.fields[key]];
      assert more[1..] == rest;
    } else {
      ReadMembersInvertsPutMembers(v, others, rest);
      assert more[1..] == PutMembers(v, others, rest);
      assert key !in others;
      assert Pick(v, keys) == Pick(v, others)[key := v.fields[key]];
    }
    ReadMembersStep(PutMembers(v, keys, rest), key, ":" + value, v.fields[key], more);
  }

  /** Equal canonical texts come from equal values: reading either one back gives both. */
  lemma CanonicalIsInjective(v: Json, w: Json)
    requires Canonical(v) == Canonical(w)
    ensures v == w
  {
    ReadInvertsPut(v, "");
    ReadInvertsPut(w, "");
  }

  /******* Identifier text *******/

  /** The text of an object with three members, written out. */
  lemma CanonicalOfThree(v: Json, a: string, b: string, c: string)
    requires v.Obj? && v.fields.Keys == {a, b, c} && Before(a, b) && Before(b, c)
    ensures a in v.fields && b in v.fields && c in v.fields
    ensures Canonical(v) ==
      "{" + PutStr(a, ":" + Put(v.fields[a],
      "," + PutStr(b, ":" + Put(v.fields[b],
      "," + PutStr(c, ":" + Put(v.fields[c], "}" + ""))))))
  {
    BeforeIsTransitive(a, b, c);
    SortedKeysAreUnique(SortedKeys(v.fields.Keys), [a, b, c]);
    assert a in v.fields.Keys && b in v.fields.Keys && c in v.fields.Keys;
    hide SortedKeys, PutStr, Before;
    MembersOfThree(v, a, b, c);
  }

  lemma MembersOfThree(v: Json, a: string, b: string, c: string)
    requires v.Obj? && a in v.fields && b in v.fields && c in v.fields
    ensures PutMembers(v, [a, b, c], "") ==
      PutStr(a, ":" + Put(v.fields[a],
      "," + PutStr(b, ":" + Put(v.fields[b],
      "," + PutStr(c, ":" + Put(v.fields[c], "}" + ""))))))
  {
    hide PutStr;
    assert [a, b, c][1..] == [b, c] && [b, c][1..] == [c] && [c][1..] == [];
    assert PutMembers(v, [c], "") == PutStr(c, ":" + Put(v.fields[c], "}" + ""));
    assert PutMembers(v, [b, c], "") == PutStr(b, ":" + Put(v.fields[b], "," + PutMembers(v, [c], "")));
    assert PutMembers(v, [a, b, c], "") == PutStr(a, ":" + Put(v.fields[a], "," + PutMembers(v, [b, c], "")));
  }

  function IdText(id: Id): string {
    PutNat(id, "")
  }

  lemma IdTextIsInjective(a: Id, b: Id)
    requires IdText(a) == IdText(b)
    ensures a == b
  {
    ReadDigitsInvertsPutNat(a, "");
    ReadDigitsInvertsPutNat(b, "");
  }
}
