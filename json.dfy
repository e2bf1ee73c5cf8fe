/**
 * JSON values as the runtime handles them after `encoding/json` has decoded
 * them into `interface{}` (objects become maps), the string escaping
 * `json.Marshal` applies, and the reader that undoes it.
 */
module Json {
  import opened Wrappers
  import opened Text

  datatype Json =
    | JNull
    | JBool(b: bool)
    | JNumber(text: string)
    | JString(s: string)
    | JArray(items: seq<Json>)
    | JObject(fields: map<string, Json>)

  /** Lower-case hexadecimal digit, as in the table `json.Marshal` uses. */
  function HexDigit(v: nat): (c: char)
    requires v < 16
  {
    if v < 10 then ('0' as int + v) as char else ('a' as int + v - 10) as char
  }

  function HexValue(c: char): (r: Option<nat>)
    ensures r.Some? ==> r.value < 16
  {
    if '0' <= c <= '9' then Some(c as int - '0' as int)
    else if 'a' <= c <= 'f' then Some(c as int - 'a' as int + 10)
    else if 'A' <= c <= 'F' then Some(c as int - 'A' as int + 10)
    else None
  }

  lemma HexRoundTrip(v: nat)
    requires v < 16
    ensures HexValue(HexDigit(v)) == Some(v)
  {
  }

  /** A byte `json.Marshal` writes as `\u00XX`: control bytes without a short escape and the HTML-sensitive `<`, `>`, `&`. */
  predicate NeedsUnicodeEscape(c: char) {
    (c < ' ' && c != '\n' && c != '\r' && c != '\t' && c != '\U{8}' && c != '\U{C}')
    || c == '<' || c == '>' || c == '&'
  }

  /** How `json.Marshal` writes one byte inside a string literal. */
  function EscapeChar(c: char): (r: string)
    ensures |r| >= 1 && r[0] != '"'
    ensures r[0] == '\\' || (r == [c] && c >= ' ')
  {
    if c == '"' then "\\\""
    else if c == '\\' then "\\\\"
    else if c == '\n' then "\\n"
    else if c == '\r' then "\\r"
    else if c == '\t' then "\\t"
    else if c == '\U{8}' then "\\b"
    else if c == '\U{C}' then "\\f"
    else if NeedsUnicodeEscape(c) then "\\u00" + [HexDigit(c as int / 16), HexDigit(c as int % 16)]
    else [c]
  }

  function EscapeAll(s: string): string {
    if s == [] then "" else EscapeChar(s[0]) + EscapeAll(s[1..])
  }

  /** `json.Marshal` of a Go string: the escaped bytes between double quotes. */
  function Quote(s: string): (r: string)
    ensures |r| >= 2 && r[0] == '"' && r[|r| - 1] == '"'
  {
    "\"" + EscapeAll(s) + "\""
  }

  /** The value of a four-digit hexadecimal escape. */
  function Hex4(a: char, b: char, c: char, d: char): Option<nat> {
    match (HexValue(a), HexValue(b), HexValue(c), HexValue(d))
    case (Some(x), Some(y), Some(z), Some(w)) => Some(((x * 16 + y) * 16 + z) * 16 + w)
    case _ => None
  }

  function ShortEscape(c: char): Option<char> {
    if c == '"' then Some('"')
    else if c == '\\' then Some('\\')
    else if c == '/' then Some('/')
    else if c == 'b' then Some('\U{8}')
    else if c == 'f' then Some('\U{C}')
    else if c == 'n' then Some('\n')
    else if c == 'r' then Some('\r')
    else if c == 't' then Some('\t')
    else None
  }

  /**
   * Reads the body of a string literal up to its closing quote: the decoded
   * characters and what follows the quote. None on a bare control byte, an
   * unknown escape, a surrogate `\u` escape or a missing closing quote.
   */
  function ReadChars(t: string): (r: Option<(string, string)>)
    ensures r.Some? ==> |r.value.1| < |t|
    decreases |t|
  {
    if t == [] then None
    else if t[0] == '"' then Some(("", t[1..]))
    else if t[0] < ' ' then None
    else if t[0] != '\\' then Prepend(t[0], ReadChars(t[1..]))
    else if |t| < 2 then None
    else if ShortEscape(t[1]).Some? then Prepend(ShortEscape(t[1]).value, ReadChars(t[2..]))
    else if t[1] != 'u' || |t| < 6 then None
    else match Hex4(t[2], t[3], t[4], t[5])
      case None => None
      case Some(v) =>
        if 0xD800 <= v < 0xE000 then None else Prepend(v as char, ReadChars(t[6..]))
  }

  function Prepend(c: char, r: Option<(string, string)>): Option<(string, string)> {
    match r
    case None => None
    case Some((s, rest)) => Some(([c] + s, rest))
  }

  /** Reads a string literal at the front of `t`: its value and what follows it. */
  function Unquote(t: string): Option<(string, string)> {
    if t == [] || t[0] != '"' then None else ReadChars(t[1..])
  }

  lemma EscapeCharRead(c: char, t: string)
    ensures ReadChars(EscapeChar(c) + t) == Prepend(c, ReadChars(t))
  {
    var e := EscapeChar(c) + t;
    if c == '"' || c == '\\' || c == '\n' || c == '\r' || c == '\t' || c == '\U{8}' || c == '\U{C}' {
      assert e[2..] == t;
    } else if NeedsUnicodeEscape(c) {
      var hi, lo := c as int / 16, c as int % 16;
      HexRoundTrip(hi);
      HexRoundTrip(lo);
      assert e[..6] == ['\\', 'u', '0', '0', HexDigit(hi), HexDigit(lo)];
      assert Hex4(e[2], e[3], e[4], e[5]) == Some(c as int);
      assert e[6..] == t;
    } else {
      assert e[1..] == t;
    }
  }

  lemma {:induction false} EscapeAllRead(s: string, t: string)
    ensures ReadChars(EscapeAll(s) + "\"" + t) == Some((s, t))
  {
    if s == [] {
      assert EscapeAll(s) + "\"" + t == "\"" + t;
      assert ("\"" + t)[1..] == t;
    } else {
      EscapeAllRead(s[1..], t);
      assert EscapeAll(s) + "\"" + t == EscapeChar(s[0]) + (EscapeAll(s[1..]) + "\"" + t);
      EscapeCharRead(s[0], EscapeAll(s[1..]) + "\"" + t);
      assert [s[0]] + s[1..] == s;
    }
  }

  /** Reading back what `Quote` wrote gives the string and leaves what followed untouched. */
  lemma QuoteRoundTrip(s: string, rest: string)
    ensures Unquote(Quote(s) + rest) == Some((s, rest))
  {
    var q := Quote(s) + rest;
    assert q[1..] == EscapeAll(s) + "\"" + rest;
    EscapeAllRead(s, rest);
  }

  /** Go's byte-wise string order, `a <= b`. */
  predicate Below(a: string, b: string)
    decreases |a|
  {
    a == [] || (b != [] && (a[0] < b[0] || (a[0] == b[0] && Below(a[1..], b[1..]))))
  }

  lemma {:induction false} BelowReflexive(a: string)
    ensures Below(a, a)
    decreases |a|
  {
    if a != [] { BelowReflexive(a[1..]); }
  }

  lemma {:induction false} BelowAntisymmetric(a: string, b: string)
    requires Below(a, b) && Below(b, a)
    ensures a == b
    decreases |a|
  {
    if a != [] {
      BelowAntisymmetric(a[1..], b[1..]);
      assert a == [a[0]] + a[1..] && b == [b[0]] + b[1..];
    }
  }

  lemma {:induction false} BelowTotal(a: string, b: string)
    ensures Below(a, b) || Below(b, a)
    decreases |a|
  {
    if a != [] && b != [] && a[0] == b[0] { BelowTotal(a[1..], b[1..]); }
  }

  lemma {:induction false} BelowTransitive(a: string, b: string, c: string)
    requires Below(a, b) && Below(b, c)
    ensures Below(a, c)
    decreases |a|
  {
    if a != [] && a[0] == b[0] && b[0] == c[0] { BelowTransitive(a[1..], b[1..], c[1..]); }
  }

  predicate IsLeast(k: string, keys: set<string>) {
    k in keys && forall j :: j in keys ==> Below(k, j)
  }

  lemma {:induction false} LeastExists(keys: set<string>)
    requires keys != {}
    ensures exists k :: IsLeast(k, keys)
    decreases |keys|
  {
    var x :| x in keys;
    if keys == {x} {
      BelowReflexive(x);
      assert IsLeast(x, keys);
    } else {
      LeastExists(keys - {x});
      var m :| IsLeast(m, keys - {x});
      BelowTotal(x, m);
      if Below(x, m) {
        BelowReflexive(x);
        forall j | j in keys ensures Below(x, j) {
          if j != x { BelowTransitive(x, m, j); }
        }
        assert IsLeast(x, keys);
      } else {
        assert IsLeast(m, keys);
      }
    }
  }

  function Least(keys: set<string>): (k: string)
    requires keys != {}
    ensures IsLeast(k, keys)
  {
    LeastExists(keys);
    var k :| IsLeast(k, keys);
    assert forall k' :: IsLeast(k', keys) ==> k' == k by {
      forall k' | IsLeast(k', keys) ensures k' == k {
        BelowAntisymmetric(k, k');
      }
    }
    k
  }

  function Sorted(keys: set<string>): (r: seq<string>)
    ensures forall i :: 0 <= i < |r| ==> r[i] in keys
    decreases |keys|
  {
    if keys == {} then [] else var k := Least(keys); [k] + Sorted(keys - {k})
  }

  /** The keys are listed each once, in Go's order: the order `fmt` prints a map in. */
  lemma {:induction false} SortedKeys(keys: set<string>)
    ensures var r := Sorted(keys);
      && (forall k :: k in keys <==> k in r)
      && (forall i, j :: 0 <= i < j < |r| ==> r[i] != r[j] && Below(r[i], r[j]))
    decreases |keys|
  {
    if keys != {} {
      var k := Least(keys);
      var rest := Sorted(keys - {k});
      SortedKeys(keys - {k});
      var r := Sorted(keys);
      assert r == [k] + rest;
      forall i, j | 0 <= i < j < |r| ensures r[i] != r[j] && Below(r[i], r[j]) {
        if i == 0 {
          assert r[j] == rest[j - 1];
        } else {
          assert r[i] == rest[i - 1] && r[j] == rest[j - 1];
        }
      }
      forall x | x in keys ensures x in r {
        if x != k { assert x in rest; }
      }
    }
  }

  /**
   * Go's `fmt.Sprintf("%s", v)` of a decoded JSON value: a string as itself,
   * a list as `[a b]` and an object as `map[k:v]` with its keys in order, each
   * element as `Element` prints it; `nil`, booleans and numbers get the
   * `%!s(...)` text of a wrong verb.
   */
  function VerbOf(j: Json): string
    decreases j, 1
  {
    match j
    case JString(s) => s
    case JNull => "%!s(<nil>)"
    case JBool(b) => if b then "%!s(bool=true)" else "%!s(bool=false)"
    case JNumber(t) => "%!s(float64=" + t + ")"
    case JArray(items) => "[" + Items(j, items) + "]"
    case JObject(fields) => "map[" + Entries(j, fields, Sorted(fields.Keys)) + "]"
  }

  /**
   * `%s` of a value found inside a list or a map: as `VerbOf`, except that a
   * nil element prints as `<nil>`, as fmt prints a nil interface it reaches
   * by reflection.
   */
  function Element(j: Json): string
    decreases j, 2
  {
    if j.JNull? then "<nil>" else VerbOf(j)
  }

  /** The elements of a list, separated by spaces. */
  function Items(parent: Json, items: seq<Json>): string
    requires forall i :: 0 <= i < |items| ==> items[i] < parent
    decreases parent, 0, |items|
  {
    if items == [] then ""
    else Element(items[0]) + (if |items| == 1 then "" else " " + Items(parent, items[1..]))
  }

  /** The `key:value` pairs of an object for the keys listed, separated by spaces. */
  function Entries(parent: Json, fields: map<string, Json>, keys: seq<string>): string
    requires forall k :: k in fields ==> fields[k] < parent
    requires forall i :: 0 <= i < |keys| ==> keys[i] in fields
    decreases parent, 0, |keys|
  {
    if keys == [] then ""
    else keys[0] + ":" + Element(fields[keys[0]]) + (if |keys| == 1 then "" else " " + Entries(parent, fields, keys[1..]))
  }

  /** The `%s` texts of a list's elements, one per element. */
  function ElementTexts(items: seq<Json>): (r: seq<string>)
    ensures |r| == |items|
    ensures forall i :: 0 <= i < |items| ==> r[i] == Element(items[i])
  {
    if items == [] then [] else [Element(items[0])] + ElementTexts(items[1..])
  }

  /** A non-empty list prints as `strings.Join` of its elements' texts with a space, in brackets. */
  lemma {:induction false} ListVerb(items: seq<Json>)
    requires items != []
    ensures VerbOf(JArray(items)) == "[" + JoinWith(ElementTexts(items), ' ') + "]"
  {
    ItemsJoin(JArray(items), items);
  }

  lemma {:induction false} ItemsJoin(parent: Json, items: seq<Json>)
    requires items != []
    requires forall i :: 0 <= i < |items| ==> items[i] < parent
    ensures Items(parent, items) == JoinWith(ElementTexts(items), ' ')
    decreases |items|
  {
    var t := ElementTexts(items);
    if |items| > 1 {
      ItemsJoin(parent, items[1..]);
      assert t[1..] == ElementTexts(items[1..]);
    }
  }

  /** `%s` of an interface value: a missing key is a nil interface. */
  function Verb(v: Option<Json>): string {
    match v
    case None => "%!s(<nil>)"
    case Some(j) => VerbOf(j)
  }

  /** Field lookup in a decoded object: `m[key]` and its `ok`. */
  function Get(m: map<string, Json>, key: string): Option<Json> {
    if key in m then Some(m[key]) else None
  }
}
