/**
 Canonical JSON (dsl/registry.go): object keys sorted, arrays in order, number tokens
 verbatim, strings escaped as Go's encoder does. The encoding is faithful: different
 values have different bytes. The grammar is that of sections 4 to 7 of RFC 8259.
 */
module Canonical {
  import Lexical
  import opened Definition

  /** A decoded value; numbers keep their token. */
  datatype Json =
    | JNull
    | JBool(b: bool)
    | JNumber(token: string)
    | JString(text: string)
    | JArray(elems: seq<Json>)
    | JObject(fields: map<string, Json>)

  predicate NumberChar(c: char) {
    '0' <= c <= '9' || c in "+-.eE"
  }

  /** What every number token of the grammar satisfies. */
  predicate NumberToken(t: string) {
    t != "" && ('0' <= t[0] <= '9' || t[0] == '-') && forall i | 0 <= i < |t| :: NumberChar(t[i])
  }

  predicate Proper(v: Json) {
    match v
    case JNumber(t) => NumberToken(t)
    case JArray(es) => forall i | 0 <= i < |es| :: Proper(es[i])
    case JObject(fs) => forall k <- fs :: Proper(fs[k])
    case _ => true
  }

  // --------------------------------------------------------------------- strings

  function HexDigit(d: nat): char
    requires d < 16
  {
    "0123456789abcdef"[d]
  }

  function Hex4(n: nat): string
    requires n < 0x10000
  {
    [HexDigit(n / 4096 % 16), HexDigit(n / 256 % 16), HexDigit(n / 16 % 16), HexDigit(n % 16)]
  }

  /** The escapes of Go's encoder, which also hides `<`, `>`, `&` and the two Unicode line
      separators. */
  function EscapeChar(c: char): string {
    var n := c as int;
    if c == '"' then "\\\""
    else if c == '\\' then "\\\\"
    else if n == 10 then "\\n"
    else if n == 13 then "\\r"
    else if n == 9 then "\\t"
    else if n == 8 then "\\b"
    else if n == 12 then "\\f"
    else if n < 32 || c in "<>&" || n == 0x2028 || n == 0x2029 then "\\u" + Hex4(n)
    else [c]
  }

  lemma HexDigitInjective(a: nat, b: nat)
    requires a < 16 && b < 16 && HexDigit(a) == HexDigit(b)
    ensures a == b
  {
  }

  lemma Nibbles(n: nat)
    requires n < 0x10000
    ensures n == 4096 * (n / 4096 % 16) + 256 * (n / 256 % 16) + 16 * (n / 16 % 16) + n % 16
  {
    assert n / 256 == n / 16 / 16 && n / 4096 == n / 256 / 16;
    assert n / 4096 < 16;
  }

  lemma Hex4Injective(a: nat, b: nat)
    requires a < 0x10000 && b < 0x10000 && Hex4(a) == Hex4(b)
    ensures a == b
  {
    hide HexDigit;
    assert Hex4(a)[0] == Hex4(b)[0] && Hex4(a)[1] == Hex4(b)[1] && Hex4(a)[2] == Hex4(b)[2] && Hex4(a)[3] == Hex4(b)[3];
    HexDigitInjective(a / 4096 % 16, b / 4096 % 16);
    HexDigitInjective(a / 256 % 16, b / 256 % 16);
    HexDigitInjective(a / 16 % 16, b / 16 % 16);
    HexDigitInjective(a % 16, b % 16);
    Nibbles(a);
    Nibbles(b);
  }

  /** One escaped character can be read off the front of a text in one way only. */
  lemma EscapeUnique(c: char, x: string, d: char, y: string)
    requires EscapeChar(c) + x == EscapeChar(d) + y
    ensures c == d && x == y
  {
    hide HexDigit;
    var s, t := EscapeChar(c) + x, EscapeChar(d) + y;
    assert s[0] == EscapeChar(c)[0] && t[0] == EscapeChar(d)[0];
    if s[0] == '\\' {
      assert s[1] == EscapeChar(c)[1] && t[1] == EscapeChar(d)[1];
      if s[1] == 'u' {
        assert s[2..6] == Hex4(c as int) && t[2..6] == Hex4(d as int);
        Hex4Injective(c as int, d as int);
      }
    }
    assert x == s[|EscapeChar(c)|..] && y == t[|EscapeChar(d)|..];
  }

  lemma EscapeNeverQuotes(c: char)
    ensures EscapeChar(c) != "" && EscapeChar(c)[0] != '"'
  {
  }

  /** A quoted string followed by `rest`. */
  function StringTo(s: string, rest: string): string {
    if s == "" then "\"" + rest else EscapeChar(s[0]) + StringTo(s[1..], rest)
  }

  lemma StringHead(s: string, r: string)
    ensures StringTo(s, r) != "" && (StringTo(s, r)[0] == '"' <==> s == "")
  {
    if s != "" {
      EscapeNeverQuotes(s[0]);
      assert StringTo(s, r)[0] == EscapeChar(s[0])[0];
    }
  }

  lemma {:induction false} StringUnique(s: string, r: string, t: string, u: string)
    requires StringTo(s, r) == StringTo(t, u)
    ensures s == t && r == u
    decreases |s|
  {
    StringHead(s, r);
    StringHead(t, u);
    if s == "" {
      assert r == StringTo(s, r)[1..] && u == StringTo(t, u)[1..];
    } else {
      EscapeUnique(s[0], StringTo(s[1..], r), t[0], StringTo(t[1..], u));
      StringUnique(s[1..], r, t[1..], u);
      assert s == [s[0]] + s[1..] && t == [t[0]] + t[1..];
    }
  }

  // ----------------------------------------------------------------- sorted keys

  ghost predicate Sorted(keys: seq<string>) {
    forall i, j | 0 <= i < j < |keys| :: Lexical.Less(keys[i], keys[j])
  }

  ghost predicate Lists(keys: seq<string>, ks: set<string>) {
    Sorted(keys) && forall k: string :: k in keys <==> k in ks
  }

  function Insert(k: string, keys: seq<string>): seq<string> {
    if keys == [] then [k]
    else if Lexical.Less(k, keys[0]) then [k] + keys
    else [keys[0]] + Insert(k, keys[1..])
  }

  lemma {:induction false} InsertLists(k: string, keys: seq<string>, ks: set<string>)
    requires Lists(keys, ks) && k !in ks
    ensures Lists(Insert(k, keys), ks + {k})
    decreases |keys|
  {
    if keys != [] {
      var h := keys[0];
      assert h in keys;
      Lexical.Trichotomy(k, h);
      assert keys == [h] + keys[1..];
      if Lexical.Less(k, h) {
        forall j | 0 <= j < |keys| ensures Lexical.Less(k, keys[j]) {
          if j > 0 {
            Lexical.Transitive(k, h, keys[j]);
          }
        }
      } else {
        assert h !in keys[1..] by {
          Lexical.Trichotomy(h, h);
        }
        InsertLists(k, keys[1..], ks - {h});
        forall x | x in Insert(k, keys[1..]) ensures Lexical.Less(h, x) {
          if x != k {
            assert x in keys[1..];
          }
        }
      }
    }
  }

  /** The keys of an object in canonical order. */
  ghost function SortKeys(ks: set<string>): (keys: seq<string>)
    ensures Lists(keys, ks)
    decreases |ks|
  {
    if ks == {} then []
    else
      var k :| k in ks;
      InsertLists(k, SortKeys(ks - {k}), ks - {k});
      assert ks - {k} + {k} == ks;
      Insert(k, SortKeys(ks - {k}))
  }

  lemma FirstListed(keys: seq<string>, ks: set<string>)
    requires Lists(keys, ks)
    ensures keys != [] ==> keys[0] in ks
  {
    if keys != [] {
      assert keys[0] in keys;
    }
  }

  /** A set of keys has one sorted listing, whatever order it was walked in. */
  lemma {:induction false} SortedUnique(a: seq<string>, b: seq<string>, ks: set<string>)
    requires Lists(a, ks) && Lists(b, ks)
    ensures a == b
    decreases |a|
  {
    FirstListed(b, ks);
    if a != [] {
      assert a[0] in a && a[0] in b && b[0] in b && b[0] in a;
      Lexical.Trichotomy(a[0], b[0]);
      assert a[0] == b[0] by {
        var i :| 0 <= i < |a| && a[i] == b[0];
        var j :| 0 <= j < |b| && b[j] == a[0];
      }
      Lexical.Trichotomy(a[0], a[0]);
      assert a == [a[0]] + a[1..] && b == [b[0]] + b[1..];
      assert a[0] !in a[1..] && b[0] !in b[1..];
      SortedUnique(a[1..], b[1..], ks - {a[0]});
    }
  }

  // -------------------------------------------------------------------- encoding

  /** The canonical bytes of a value, followed by `rest`. */
  ghost function EncodeTo(v: Json, rest: string): string
    decreases v, 1
  {
    match v
    case JNull => "null" + rest
    case JBool(b) => (if b then "true" else "false") + rest
    case JNumber(t) => t + rest
    case JString(s) => "\"" + StringTo(s, rest)
    case JArray(es) => "[" + ElemsTo(v, 0, rest)
    case JObject(fs) => "{" + FieldsTo(v, SortKeys(fs.Keys), rest)
  }

  /** The elements from index `i` on. */
  ghost function ElemsTo(v: Json, i: nat, rest: string): string
    requires v.JArray? && i <= |v.elems|
    decreases v, 0, |v.elems| - i
  {
    if i == |v.elems| then "]" + rest
    else EncodeTo(v.elems[i], (if i + 1 < |v.elems| then "," else "") + ElemsTo(v, i + 1, rest))
  }

  ghost function FieldsTo(v: Json, keys: seq<string>, rest: string): string
    requires v.JObject? && forall k <- keys :: k in v.fields
    decreases v, 0, |keys|
  {
    if keys == [] then "}" + rest
    else
      "\"" + StringTo(keys[0], ":" +
        EncodeTo(v.fields[keys[0]], (if |keys| > 1 then "," else "") + FieldsTo(v, keys[1..], rest)))
  }

  ghost function Encode(v: Json): string {
    EncodeTo(v, "")
  }

  // ------------------------------------------------------------------ it is JSON

  function Nibble(c: char): Option<nat> {
    if '0' <= c <= '9' then Some(c as int - '0' as int)
    else if 'a' <= c <= 'f' then Some(c as int - 'a' as int + 10)
    else if 'A' <= c <= 'F' then Some(c as int - 'A' as int + 10)
    else None
  }

  /** Four hexadecimal digits. */
  function Unhex4(t: string): Option<nat>
    requires |t| == 4
  {
    match (Nibble(t[0]), Nibble(t[1]), Nibble(t[2]), Nibble(t[3]))
    case (Some(a), Some(b), Some(c), Some(d)) => Some(4096 * a + 256 * b + 16 * c + d)
    case _ => None
  }

  /** The character an escape stands for, and how long the escape is: section 7 of RFC 8259.
      Halves of surrogate pairs are not read. */
  function Unescape(t: string): Option<(char, nat)> {
    if |t| < 2 || t[0] != '\\' then None
    else
      match t[1]
      case '"' => Some(('"', 2))
      case '\\' => Some(('\\', 2))
      case '/' => Some(('/', 2))
      case 'b' => Some((8 as char, 2))
      case 'f' => Some((12 as char, 2))
      case 'n' => Some((10 as char, 2))
      case 'r' => Some((13 as char, 2))
      case 't' => Some((9 as char, 2))
      case 'u' =>
        if |t| < 6 then None
        else
          var code := Unhex4(t[2..6]);
          if code.None? || code.value >= 0x10000 || 0xD800 <= code.value < 0xE000 then None else Some((code.value as char, 6))
      case _ => None
  }

  /** Reads a string up to its closing quote: the string and what follows. */
  function ReadString(t: string): Option<(string, string)>
    decreases |t|
  {
    if t == "" then None
    else if t[0] == '"' then Some(("", t[1..]))
    else if t[0] == '\\' then
      match Unescape(t)
      case None => None
      case Some((c, n)) =>
        if n > |t| || n == 0 then None
        else
          match ReadString(t[n..])
          case None => None
          case Some((s, rest)) => Some(([c] + s, rest))
    else if t[0] as int < 32 then None
    else
      match ReadString(t[1..])
      case None => None
      case Some((s, rest)) => Some(([t[0]] + s, rest))
  }

  lemma UnhexDigit(d: nat)
    requires d < 16
    ensures Nibble(HexDigit(d)) == Some(d)
  {
  }

  lemma UnhexHex(n: nat)
    requires n < 0x10000
    ensures Unhex4(Hex4(n)) == Some(n)
  {
    hide HexDigit, Nibble;
    UnhexDigit(n / 4096 % 16);
    UnhexDigit(n / 256 % 16);
    UnhexDigit(n / 16 % 16);
    UnhexDigit(n % 16);
    Nibbles(n);
  }

  lemma EscapeReads(c: char, rest: string)
    ensures var t := EscapeChar(c) + rest;
      if EscapeChar(c)[..1] == "\\" then Unescape(t) == Some((c, |EscapeChar(c)|)) else EscapeChar(c) == [c] && c != '"' && c as int >= 32
  {
    hide HexDigit, Nibble, Unhex4;
    var n, t := c as int, EscapeChar(c) + rest;
    if |EscapeChar(c)| == 6 {
      UnhexHex(n);
      assert EscapeChar(c) == "\\u" + Hex4(n);
      assert t[2..6] == Hex4(n) && n < 0x10000 && !(0xD800 <= n < 0xE000);
    } else {
      assert t[0] == EscapeChar(c)[0];
    }
  }

  /** The escapes are undone by reading them: a string is read back as it was. */
  lemma {:induction false} StringReads(s: string, rest: string)
    ensures ReadString(StringTo(s, rest)) == Some((s, rest))
    decreases |s|
  {
    hide EscapeChar, Unescape;
    var t := StringTo(s, rest);
    if s != "" {
      StringReads(s[1..], rest);
      EscapeReads(s[0], StringTo(s[1..], rest));
      EscapeNeverQuotes(s[0]);
      assert t[0] == EscapeChar(s[0])[0] && EscapeChar(s[0])[..1] == [t[0]];
      assert t[|EscapeChar(s[0])|..] == StringTo(s[1..], rest);
      assert s == [s[0]] + s[1..];
    }
  }

  /** The parts of an array or object with commas between them. */
  function Joined(parts: seq<string>): string {
    if parts == [] then "" else if |parts| == 1 then parts[0] else parts[0] + "," + Joined(parts[1..])
  }

  /** The text is a string that reads as `s`, and nothing more. */
  predicate StringText(t: string, s: string) {
    t != "" && t[0] == '"' && ReadString(t[1..]) == Some((s, ""))
  }

  /** The members of an object: each name, a colon and its value. */
  ghost function Paired(names: seq<string>, values: seq<string>): (parts: seq<string>)
    requires |names| == |values|
    ensures |parts| == |names| && forall i | 0 <= i < |names| :: parts[i] == names[i] + ":" + values[i]
  {
    seq(|names|, i requires 0 <= i < |names| => names[i] + ":" + values[i])
  }

  /** The text is a JSON text for the value, by the grammar of RFC 8259 without white space, its
      objects with their members once each in the order of their names. */
  ghost predicate Denotes(v: Json, t: string)
    decreases v
  {
    match v
    case JNull => t == "null"
    case JBool(b) => t == if b then "true" else "false"
    case JNumber(n) => t == n
    case JString(s) => StringText(t, s)
    case JArray(es) =>
      exists parts: seq<string> ::
        |parts| == |es| && t == "[" + Joined(parts) + "]" && forall i | 0 <= i < |es| :: Denotes(es[i], parts[i])
    case JObject(fs) =>
      exists keys: seq<string>, names: seq<string>, values: seq<string> ::
        && Lists(keys, fs.Keys) && |names| == |values| == |keys|
        && t == "{" + Joined(Paired(names, values)) + "}"
        && (forall i | 0 <= i < |keys| :: StringText(names[i], keys[i]))
        && forall i | 0 <= i < |keys| :: keys[i] in fs && Denotes(fs[keys[i]], values[i])
  }

  /** What is written after a value does not change how the value is written. */
  lemma {:induction false} EncodeRest(v: Json, r: string)
    ensures EncodeTo(v, r) == Encode(v) + r
    decreases v, 1
  {
    match v {
      case JString(s) => StringSplits(s, r);
      case JArray(es) => ElemsRest(v, 0, r);
      case JObject(fs) => FieldsRest(v, SortKeys(fs.Keys), r);
      case _ =>
    }
  }

  lemma {:induction false} ElemsRest(v: Json, i: nat, r: string)
    requires v.JArray? && i <= |v.elems|
    ensures ElemsTo(v, i, r) == ElemsTo(v, i, "") + r
    decreases v, 0, |v.elems| - i
  {
    hide EncodeTo;
    if i < |v.elems| {
      var comma := if i + 1 < |v.elems| then "," else "";
      ElemsRest(v, i + 1, r);
      EncodeRest(v.elems[i], comma + ElemsTo(v, i + 1, r));
      EncodeRest(v.elems[i], comma + ElemsTo(v, i + 1, ""));
    }
  }

  lemma {:induction false} FieldsRest(v: Json, keys: seq<string>, r: string)
    requires v.JObject? && forall k <- keys :: k in v.fields
    ensures FieldsTo(v, keys, r) == FieldsTo(v, keys, "") + r
    decreases v, 0, |keys|
  {
    hide EncodeTo, StringTo;
    if keys != [] {
      var comma := if |keys| > 1 then "," else "";
      var f := v.fields[keys[0]];
      FieldsRest(v, keys[1..], r);
      var long, short := comma + FieldsTo(v, keys[1..], r), comma + FieldsTo(v, keys[1..], "");
      EncodeRest(f, long);
      EncodeRest(f, short);
      StringSplits(keys[0], ":" + EncodeTo(f, long));
      StringSplits(keys[0], ":" + EncodeTo(f, short));
      assert long == short + r;
      assert EncodeTo(f, long) == EncodeTo(f, short) + r;
    }
  }

  lemma {:induction false} ElemsJoin(v: Json, i: nat, parts: seq<string>)
    requires v.JArray? && i <= |v.elems| && |parts| == |v.elems| && forall k | 0 <= k < |parts| :: parts[k] == Encode(v.elems[k])
    ensures ElemsTo(v, i, "") == Joined(parts[i..]) + "]"
    decreases |v.elems| - i
  {
    hide EncodeTo;
    if i < |v.elems| {
      var comma := if i + 1 < |v.elems| then "," else "";
      ElemsJoin(v, i + 1, parts);
      EncodeRest(v.elems[i], comma + ElemsTo(v, i + 1, ""));
      assert parts[i..][1..] == parts[i + 1..];
    }
  }

  /** One member of an object as the encoder writes it. */
  ghost function Field(v: Json, k: string): string
    requires v.JObject? && k in v.fields
  {
    Quote(k) + ":" + Encode(v.fields[k])
  }

  lemma {:induction false} FieldsJoin(v: Json, keys: seq<string>, parts: seq<string>)
    requires v.JObject? && (forall k <- keys :: k in v.fields)
    requires |parts| == |keys| && forall i | 0 <= i < |keys| :: parts[i] == Field(v, keys[i])
    ensures FieldsTo(v, keys, "") == Joined(parts) + "}"
    decreases |keys|
  {
    hide EncodeTo, StringTo;
    if keys != [] {
      var comma := if |keys| > 1 then "," else "";
      var f, after := v.fields[keys[0]], comma + FieldsTo(v, keys[1..], "");
      FieldsJoin(v, keys[1..], parts[1..]);
      EncodeRest(f, after);
      StringSplits(keys[0], ":" + EncodeTo(f, after));
      assert Field(v, keys[0]) + after == "\"" + (StringTo(keys[0], "") + (":" + (Encode(f) + after)));
    }
  }

  /** The canonical bytes are a JSON text for the value. */
  lemma {:induction false} EncodeDenotes(v: Json)
    ensures Denotes(v, Encode(v))
    decreases v, 1
  {
    hide StringTo, ReadString, Joined, ElemsTo, FieldsTo, Denotes;
    match v {
      case JArray(es) => ArrayDenotes(v);
      case JObject(fs) => ObjectDenotes(v, SortKeys(fs.Keys));
      case _ => PlainDenotes(v);
    }
  }

  lemma PlainDenotes(v: Json)
    requires !v.JArray? && !v.JObject?
    ensures Denotes(v, Encode(v))
  {
    if v.JString? {
      StringReads(v.text, "");
    }
  }

  lemma ArrayDenotes(v: Json)
    requires v.JArray?
    ensures Denotes(v, Encode(v))
    decreases v, 0
  {
    hide Joined, ElemsTo;
    var es := v.elems;
    var parts := seq(|es|, i requires 0 <= i < |es| => Encode(es[i]));
    ElemsJoin(v, 0, parts);
    assert parts[0..] == parts;
    forall i | 0 <= i < |es| ensures Denotes(es[i], parts[i]) {
      EncodeDenotes(es[i]);
    }
    ArrayText(v, parts, Encode(v));
  }

  lemma ArrayText(v: Json, parts: seq<string>, t: string)
    requires v.JArray? && |parts| == |v.elems| && t == "[" + Joined(parts) + "]"
    requires forall i | 0 <= i < |v.elems| :: Denotes(v.elems[i], parts[i])
    ensures Denotes(v, t)
  {
  }

  lemma ObjectDenotes(v: Json, keys: seq<string>)
    requires v.JObject? && keys == SortKeys(v.fields.Keys)
    ensures Denotes(v, Encode(v))
    decreases v, 0
  {
    hide StringTo, ReadString, Joined, FieldsTo, Denotes;
    var fs := v.fields;
    assert forall i | 0 <= i < |keys| :: keys[i] in keys && keys[i] in fs;
    var names := seq(|keys|, i requires 0 <= i < |keys| => "\"" + StringTo(keys[i], ""));
    var values := seq(|keys|, i requires 0 <= i < |keys| => Encode(fs[keys[i]]));
    var parts := Paired(names, values);
    FieldsJoin(v, keys, parts);
    forall i | 0 <= i < |keys| ensures StringText(names[i], keys[i]) && Denotes(fs[keys[i]], values[i]) {
      NameText(keys[i]);
      EncodeDenotes(fs[keys[i]]);
    }
    ObjectText(v, keys, names, values, Encode(v));
  }

  lemma NameText(k: string)
    ensures StringText("\"" + StringTo(k, ""), k)
  {
    StringReads(k, "");
  }

  lemma ObjectText(v: Json, keys: seq<string>, names: seq<string>, values: seq<string>, t: string)
    requires v.JObject? && Lists(keys, v.fields.Keys) && |names| == |values| == |keys|
    requires t == "{" + Joined(Paired(names, values)) + "}"
    requires forall i | 0 <= i < |keys| :: StringText(names[i], keys[i])
    requires forall i | 0 <= i < |keys| :: keys[i] in v.fields && Denotes(v.fields[keys[i]], values[i])
    ensures Denotes(v, t)
  {
    hide Joined, StringText, Lists, Paired;
  }

  // ----------------------------------------------------------------- faithfulness

  /** What may follow a value: the end, or a character no value starts or goes on with. */
  predicate Delimited(r: string) {
    r == "" || r[0] in ",]}"
  }

  /** The kind of a value shows in its first character. */
  predicate Starts(v: Json, c: char) {
    match v
    case JNull => c == 'n'
    case JBool(b) => c == if b then 't' else 'f'
    case JNumber(_) => '0' <= c <= '9' || c == '-'
    case JString(_) => c == '"'
    case JArray(_) => c == '['
    case JObject(_) => c == '{'
  }

  lemma ValueHead(v: Json, r: string)
    requires Proper(v)
    ensures EncodeTo(v, r) != "" && Starts(v, EncodeTo(v, r)[0])
  {
  }

  lemma TokenEnd(a: string, r: string)
    requires NumberToken(a) && Delimited(r)
    ensures forall i | 0 <= i < |a| :: NumberChar((a + r)[i])
    ensures |a + r| > |a| ==> !NumberChar((a + r)[|a|])
  {
  }

  /** A number token ends where the first other character stands. */
  lemma TokenUnique(a: string, r: string, b: string, t: string)
    requires NumberToken(a) && NumberToken(b) && Delimited(r) && Delimited(t) && a + r == b + t
    ensures a == b && r == t
  {
    var s := a + r;
    TokenEnd(a, r);
    TokenEnd(b, t);
    var k := if |a| < |b| then |a| else |b|;
    var probe := if k < |s| then NumberChar(s[k]) else true;
    assert a == s[..|a|] && b == s[..|b|] && r == s[|a|..] && t == s[|b|..];
  }

  /** A value can be read off the front of a text in one way only. */
  lemma {:induction false} ValueUnique(v: Json, r: string, w: Json, t: string)
    requires Proper(v) && Proper(w) && Delimited(r) && Delimited(t)
    requires EncodeTo(v, r) == EncodeTo(w, t)
    ensures v == w && r == t
    decreases v, 1
  {
    ValueHead(v, r);
    ValueHead(w, t);
    match v {
      case JNull =>
        assert r == EncodeTo(v, r)[4..] && t == EncodeTo(w, t)[4..];
      case JBool(b) =>
        var n := if b then 4 else 5;
        assert r == EncodeTo(v, r)[n..] && t == EncodeTo(w, t)[n..];
      case JNumber(a) =>
        TokenUnique(a, r, w.token, t);
      case JString(a) =>
        assert StringTo(a, r) == EncodeTo(v, r)[1..] && StringTo(w.text, t) == EncodeTo(w, t)[1..];
        StringUnique(a, r, w.text, t);
      case JArray(es) =>
        assert ElemsTo(v, 0, r) == EncodeTo(v, r)[1..] && ElemsTo(w, 0, t) == EncodeTo(w, t)[1..];
        ElemsUnique(v, r, w, t, 0);
      case JObject(fs) =>
        var a, b := SortKeys(fs.Keys), SortKeys(w.fields.Keys);
        assert FieldsTo(v, a, r) == EncodeTo(v, r)[1..] && FieldsTo(w, b, t) == EncodeTo(w, t)[1..];
        FieldsUnique(v, a, r, w, b, t);
        SameFields(fs, w.fields, a);
    }
  }

  lemma SameFields(m: map<string, Json>, n: map<string, Json>, keys: seq<string>)
    requires Lists(keys, m.Keys) && Lists(keys, n.Keys)
    requires forall k <- keys :: k in m && k in n && m[k] == n[k]
    ensures m == n
  {
    assert forall k: string :: k in m.Keys <==> k in keys;
    assert forall k: string :: k in n.Keys <==> k in keys;
    assert m.Keys == n.Keys;
  }

  lemma ElemsHead(v: Json, i: nat, r: string)
    requires v.JArray? && Proper(v) && i <= |v.elems|
    ensures ElemsTo(v, i, r) ==
      if i == |v.elems| then "]" + r else EncodeTo(v.elems[i], AfterElem(v, i, r))
    ensures ElemsTo(v, i, r) != "" && (ElemsTo(v, i, r)[0] == ']' <==> i == |v.elems|)
  {
    if i < |v.elems| {
      ValueHead(v.elems[i], AfterElem(v, i, r));
    }
  }

  lemma {:induction false} ElemsUnique(v: Json, r: string, w: Json, t: string, i: nat)
    requires v.JArray? && w.JArray? && Proper(v) && Proper(w) && i <= |v.elems| && i <= |w.elems|
    requires v.elems[..i] == w.elems[..i]
    requires Delimited(r) && Delimited(t) && ElemsTo(v, i, r) == ElemsTo(w, i, t)
    ensures v == w && r == t
    decreases v, 0, |v.elems| - i
  {
    hide EncodeTo, AfterElem, ElemsTo;
    ElemsHead(v, i, r);
    ElemsHead(w, i, t);
    if i == |v.elems| {
      assert r == ElemsTo(v, i, r)[1..] && t == ElemsTo(w, i, t)[1..];
      assert v.elems == v.elems[..i] && w.elems == w.elems[..i];
    } else {
      ValueUnique(v.elems[i], AfterElem(v, i, r), w.elems[i], AfterElem(w, i, t));
      ElemsEndAlike(v, i, r, w, t);
      assert v.elems[..i + 1] == v.elems[..i] + [v.elems[i]];
      assert w.elems[..i + 1] == w.elems[..i] + [w.elems[i]];
      ElemsUnique(v, r, w, t, i + 1);
    }
  }

  /** What follows element `i` of an array. */
  ghost function AfterElem(v: Json, i: nat, rest: string): (s: string)
    requires v.JArray? && i < |v.elems|
    ensures s == (if i + 1 < |v.elems| then "," else "") + ElemsTo(v, i + 1, rest)
    ensures Delimited(s)
  {
    (if i + 1 < |v.elems| then "," else "") + ElemsTo(v, i + 1, rest)
  }

  lemma ElemsEndAlike(v: Json, i: nat, r: string, w: Json, t: string)
    requires v.JArray? && w.JArray? && i < |v.elems| && i < |w.elems|
    requires AfterElem(v, i, r) == AfterElem(w, i, t)
    ensures ElemsTo(v, i + 1, r) == ElemsTo(w, i + 1, t)
  {
    var a, b := AfterElem(v, i, r), AfterElem(w, i, t);
    assert a[0] == if i + 1 < |v.elems| then ',' else ']';
    assert b[0] == if i + 1 < |w.elems| then ',' else ']';
    if i + 1 < |v.elems| {
      assert ElemsTo(v, i + 1, r) == a[1..] && ElemsTo(w, i + 1, t) == b[1..];
    } else {
      assert ElemsTo(v, i + 1, r) == a && ElemsTo(w, i + 1, t) == b;
    }
  }

  lemma {:induction false} FieldsUnique(v: Json, a: seq<string>, r: string, w: Json, b: seq<string>, t: string)
    requires v.JObject? && w.JObject? && Proper(v) && Proper(w)
    requires (forall k <- a :: k in v.fields) && (forall k <- b :: k in w.fields)
    requires Delimited(r) && Delimited(t) && FieldsTo(v, a, r) == FieldsTo(w, b, t)
    ensures a == b && r == t && forall k <- a :: v.fields[k] == w.fields[k]
    decreases v, 0, |a|
  {
    var x, y := FieldsTo(v, a, r), FieldsTo(w, b, t);
    if a == [] || b == [] {
      assert x[0] == if a == [] then '}' else '"';
      assert a == [] && b == [];
      assert r == x[1..] && t == y[1..];
    } else {
      assert x[1..] == StringTo(a[0], ":" + EncodeTo(v.fields[a[0]], AfterField(v, a, r)));
      assert y[1..] == StringTo(b[0], ":" + EncodeTo(w.fields[b[0]], AfterField(w, b, t)));
      StringUnique(a[0], ":" + EncodeTo(v.fields[a[0]], AfterField(v, a, r)), b[0], ":" + EncodeTo(w.fields[b[0]], AfterField(w, b, t)));
      AfterColon(EncodeTo(v.fields[a[0]], AfterField(v, a, r)), EncodeTo(w.fields[b[0]], AfterField(w, b, t)));
      ValueUnique(v.fields[a[0]], AfterField(v, a, r), w.fields[b[0]], AfterField(w, b, t));
      FieldsEndAlike(v, a, r, w, b, t);
      FieldsUnique(v, a[1..], r, w, b[1..], t);
      assert a == [a[0]] + a[1..] && b == [b[0]] + b[1..];
    }
  }

  lemma AfterColon(x: string, y: string)
    requires ":" + x == ":" + y
    ensures x == y
  {
    assert x == (":" + x)[1..] && y == (":" + y)[1..];
  }

  ghost function AfterField(v: Json, keys: seq<string>, rest: string): (s: string)
    requires v.JObject? && keys != [] && forall k <- keys :: k in v.fields
    ensures s == (if |keys| > 1 then "," else "") + FieldsTo(v, keys[1..], rest)
    ensures Delimited(s)
  {
    (if |keys| > 1 then "," else "") + FieldsTo(v, keys[1..], rest)
  }

  lemma FieldsEndAlike(v: Json, a: seq<string>, r: string, w: Json, b: seq<string>, t: string)
    requires v.JObject? && w.JObject? && a != [] && b != []
    requires (forall k <- a :: k in v.fields) && (forall k <- b :: k in w.fields)
    requires AfterField(v, a, r) == AfterField(w, b, t)
    ensures FieldsTo(v, a[1..], r) == FieldsTo(w, b[1..], t)
  {
    var x, y := AfterField(v, a, r), AfterField(w, b, t);
    assert x[0] == if |a| > 1 then ',' else '}';
    assert y[0] == if |b| > 1 then ',' else '}';
    if |a| > 1 {
      assert FieldsTo(v, a[1..], r) == x[1..] && FieldsTo(w, b[1..], t) == y[1..];
    } else {
      assert FieldsTo(v, a[1..], r) == x && FieldsTo(w, b[1..], t) == y;
    }
  }

  /** Values are equal exactly when their canonical bytes are. */
  lemma Faithful(v: Json, w: Json)
    requires Proper(v) && Proper(w)
    ensures Encode(v) == Encode(w) <==> v == w
  {
    if Encode(v) == Encode(w) {
      ValueUnique(v, "", w, "");
    }
  }

  // ------------------------------------------------------------------ the encoder

  /** Go's `json.Marshal` of a string. */
  function Quote(s: string): string {
    "\"" + StringTo(s, "")
  }

  lemma {:induction false} StringSplits(s: string, r: string)
    ensures StringTo(s, r) == StringTo(s, "") + r
  {
    if s != "" {
      StringSplits(s[1..], r);
    }
  }

  lemma Regroup(a: string, b: string, c: string, d: string)
    ensures "\"" + (a + (b + (c + d))) == "\"" + a + b + c + d
  {
    assert a + (b + (c + d)) == a + b + c + d;
  }

  lemma FieldStep(v: Json, keys: seq<string>, r: string)
    requires v.JObject? && keys != [] && forall k <- keys :: k in v.fields
    ensures FieldsTo(v, keys, r) == Field(v, keys[0]) + AfterField(v, keys, r)
    decreases v, 0, |keys|, 0
  {
    hide EncodeTo, StringTo, Encode, AfterField;
    var k, after := keys[0], AfterField(v, keys, r);
    EncodeRest(v.fields[k], after);
    StringSplits(k, ":" + EncodeTo(v.fields[k], after));
    Regroup(StringTo(k, ""), ":", Encode(v.fields[k]), after);
  }

  /** `sortedKeys`: the keys are met in any order and then sorted. */
  method SortedKeys(ks: set<string>) returns (keys: seq<string>)
    ensures Lists(keys, ks)
  {
    keys := [];
    var left := ks;
    while left != {}
      invariant left <= ks && Lists(keys, ks - left)
    {
      var k :| k in left;
      InsertLists(k, keys, ks - left);
      left := left - {k};
      assert ks - (left + {k}) + {k} == ks - left;
      keys := Insert(k, keys);
    }
    assert ks - left == ks;
  }

  /** `canonicalJSON`: the bytes do not depend on the order in which maps are walked. */
  method CanonicalJson(v: Json) returns (bytes: string)
    ensures bytes == Encode(v)
    ensures Denotes(v, bytes)
    decreases v, 1
  {
    hide Denotes;
    EncodeDenotes(v);
    match v {
      case JNull => bytes := "null";
      case JBool(b) => bytes := if b then "true" else "false";
      case JNumber(t) => bytes := t;
      case JString(s) => bytes := Quote(s);
      case JArray(_) => bytes := CanonicalArray(v);
      case JObject(_) => bytes := CanonicalObject(v);
    }
  }

  lemma ArrayForm(v: Json)
    requires v.JArray?
    ensures Encode(v) == "[" + ElemsTo(v, 0, "")
    ensures ElemsTo(v, |v.elems|, "") == "]"
  {
  }

  lemma WriteElem(v: Json, i: nat, before: string)
    requires v.JArray? && i < |v.elems|
    ensures before + ElemsTo(v, i, "") ==
      before + Encode(v.elems[i]) + (if i + 1 < |v.elems| then "," else "") + ElemsTo(v, i + 1, "")
  {
    EncodeRest(v.elems[i], AfterElem(v, i, ""));
  }

  method CanonicalArray(v: Json) returns (bytes: string)
    requires v.JArray?
    ensures bytes == Encode(v)
    decreases v, 0
  {
    hide Encode, ElemsTo, Denotes;
    ArrayForm(v);
    bytes := "[";
    for i := 0 to |v.elems|
      invariant bytes + (if 0 < i < |v.elems| then "," else "") + ElemsTo(v, i, "") == Encode(v)
    {
      if i > 0 {
        bytes := bytes + ",";
      }
      var e := CanonicalJson(v.elems[i]);
      WriteElem(v, i, bytes);
      bytes := bytes + e;
    }
    bytes := bytes + "]";
  }

  lemma ObjectForm(v: Json)
    requires v.JObject?
    ensures Encode(v) == "{" + FieldsTo(v, SortKeys(v.fields.Keys), "")
  {
  }

  lemma NoMoreFields(v: Json)
    requires v.JObject?
    ensures FieldsTo(v, [], "") == "}"
  {
  }

  lemma WriteField(v: Json, keys: seq<string>, i: nat, before: string)
    requires v.JObject? && i < |keys| && forall k <- keys :: k in v.fields
    ensures before + FieldsTo(v, keys[i..], "") ==
      before + Quote(keys[i]) + ":" + Encode(v.fields[keys[i]]) + (if i + 1 < |keys| then "," else "") + FieldsTo(v, keys[i + 1..], "")
  {
    hide Encode, Quote, FieldsTo;
    FieldStep(v, keys[i..], "");
    assert keys[i..][1..] == keys[i + 1..];
  }

  method CanonicalObject(v: Json) returns (bytes: string)
    requires v.JObject?
    ensures bytes == Encode(v)
    decreases v, 0
  {
    hide Encode, Quote, FieldsTo, Sorted, Denotes;
    var keys := SortedKeys(v.fields.Keys);
    ObjectForm(v);
    SortedUnique(keys, SortKeys(v.fields.Keys), v.fields.Keys);
    bytes := "{";
    assert keys[0..] == keys;
    for i := 0 to |keys|
      invariant bytes + (if 0 < i < |keys| then "," else "") + FieldsTo(v, keys[i..], "") == Encode(v)
    {
      if i > 0 {
        bytes := bytes + ",";
      }
      var value := CanonicalJson(v.fields[keys[i]]);
      WriteField(v, keys, i, bytes);
      bytes := bytes + Quote(keys[i]) + ":" + value;
    }
    NoMoreFields(v);
    assert keys[|keys|..] == [];
    bytes := bytes + "}";
  }
}
