/** The values tools hand back: `ToolResult(success, data, error)` with `data` a Python dict
    of JSON-like values, and the keyword arguments a tool is executed with. */
module Base {
  import opened Wrappers
  import opened TextPrimitives

  /** The dynamic values that occur in result data. Python keeps `int` and `float` apart and
      prints them differently (`0` against `0.0`); every float a tool produces is a result of
      `round(x, 1)`, held here as a whole number of tenths. A dict keeps insertion order. */
  datatype Value =
    | VNone
    | VBool(b: bool)
    | VInt(i: int)
    | VTenths(tenths: int)
    | VStr(s: string)
    | VList(items: seq<Value>)
    | VDict(entries: seq<(string, Value)>)

  type Dict = seq<(string, Value)>

  /** `ToolResult`: `error` defaults to None and is not tied to `success` by the record. */
  datatype ToolResult = ToolResult(success: bool, data: Dict, error: Option<string>)

  /** A successful result with the given data, as every analyzer and cleaner builds it. */
  function Ok(data: Dict): (r: ToolResult)
    ensures r.success && r.error.None? && r.data == data
  {
    ToolResult(true, data, None)
  }

  /** A failed result with empty data. */
  function Fail(message: string): (r: ToolResult)
    ensures !r.success && r.error == Some(message) && r.data == []
  {
    ToolResult(false, [], Some(message))
  }

  /** `key in d`. */
  predicate HasKey(d: Dict, key: string) {
    exists i :: 0 <= i < |d| && d[i].0 == key
  }

  /** `d.get(key)`: the value of the first entry under key. */
  function Get(d: Dict, key: string): (v: Option<Value>)
    ensures v.Some? <==> HasKey(d, key)
    ensures v.Some? ==> exists i :: 0 <= i < |d| && d[i] == (key, v.value)
  {
    if d == [] then None
    else if d[0].0 == key then Some(d[0].1)
    else
      var v := Get(d[1..], key);
      assert v.Some? ==> exists i :: 0 <= i < |d[1..]| && d[1..][i] == (key, v.value);
      assert HasKey(d[1..], key) ==> HasKey(d, key) by {
        if HasKey(d[1..], key) {
          var i :| 0 <= i < |d[1..]| && d[1..][i].0 == key;
          assert d[i + 1].0 == key;
        }
      }
      v
  }

  /** Python truthiness of a value (`if data['phrases']:`). */
  predicate Truthy(v: Value) {
    match v
    case VNone => false
    case VBool(b) => b
    case VInt(i) => i != 0
    case VTenths(t) => t != 0
    case VStr(s) => s != []
    case VList(items) => items != []
    case VDict(entries) => entries != []
  }

  // ---------------------------------------------------------------------------------------
  // str() of a value

  /** `str(round(x, 1))` for a value held in tenths. */
  function TenthsToString(t: int): string {
    var sign := if t < 0 then "-" else "";
    var a := if t < 0 then -t else t;
    sign + NatToString(a / 10) + "." + [DigitChar(a % 10)]
  }

  // ---------------------------------------------------------------------------------------
  // repr() of a string

  /** The quote `repr` puts around s: `"` when s holds `'` but no `"`, `'` otherwise. */
  function QuoteOf(s: string): (q: char)
    ensures q == '"' <==> '\'' in s && '"' !in s
    ensures q == '"' || q == '\''
  {
    if '\'' in s && '"' !in s then '"' else '\''
  }

  /** The characters `repr` shows as they are: every character from the space on, except
      DEL, the C1 controls, the no-break space and the soft hyphen (up to U+00FF; see README,
      "Left out"). */
  predicate Printable(c: char) {
    ' ' <= c && c != '\U{007F}' && !('\U{0080}' <= c <= '\U{00A0}') && c != '\U{00AD}'
  }

  /** A lower-case hexadecimal digit. */
  function HexDigit(d: nat): (c: char)
    requires d < 16
    ensures '0' <= c <= '9' || 'a' <= c <= 'f'
    ensures HexValue(c) == d
  {
    if d < 10 then ('0' as int + d) as char else ('a' as int + d - 10) as char
  }

  /** The value of a lower-case hexadecimal digit (0 for any other character). */
  function HexValue(c: char): (d: nat)
    ensures d < 16
  {
    if '0' <= c <= '9' then c as int - '0' as int
    else if 'a' <= c <= 'f' then c as int - 'a' as int + 10
    else 0
  }

  /** How `repr` writes one character inside quotes q. */
  function EscapeChar(c: char, q: char): (e: string)
    requires q == '"' || q == '\''
    ensures forall j :: 0 <= j < |e| ==> Printable(e[j])
  {
    if c == q || c == '\\' then ['\\', c]
    else if c == '\t' then "\\t"
    else if c == '\n' then "\\n"
    else if c == '\r' then "\\r"
    else if !Printable(c) then "\\x" + [HexDigit(c as int / 16), HexDigit(c as int % 16)]
    else [c]
  }

  function Escape(s: string, q: char): (e: string)
    requires q == '"' || q == '\''
    ensures forall j :: 0 <= j < |e| ==> Printable(e[j])
  {
    if s == [] then [] else EscapeChar(s[0], q) + Escape(s[1..], q)
  }

  /** `repr(s)` for a string: quoted, with the quote, the backslash and the characters that
      are not printable escaped. */
  function StrRepr(s: string): (r: string)
    ensures |r| >= 2 && r[0] == r[|r| - 1] == QuoteOf(s)
    ensures forall j :: 0 <= j < |r| ==> Printable(r[j])
  {
    var q := QuoteOf(s);
    [q] + Escape(s, q) + [q]
  }

  /** Reading back the text between the quotes of a `repr`. */
  function Unescape(e: string): string {
    if e == [] then []
    else if e[0] == '\\' && |e| >= 2 then
      if e[1] == 't' then "\t" + Unescape(e[2..])
      else if e[1] == 'n' then "\n" + Unescape(e[2..])
      else if e[1] == 'r' then "\r" + Unescape(e[2..])
      else if e[1] == 'x' && |e| >= 4 then [(HexValue(e[2]) * 16 + HexValue(e[3])) as char] + Unescape(e[4..])
      else [e[1]] + Unescape(e[2..])
    else [e[0]] + Unescape(e[1..])
  }

  lemma UnescapeChar(c: char, q: char, rest: string)
    requires q == '"' || q == '\''
    ensures Unescape(EscapeChar(c, q) + rest) == [c] + Unescape(rest)
  {
    if c == q || c == '\\' {
      UnescapePair(c, c, rest);
    } else if c == '\t' {
      UnescapePair('t', c, rest);
    } else if c == '\n' {
      UnescapePair('n', c, rest);
    } else if c == '\r' {
      UnescapePair('r', c, rest);
    } else if !Printable(c) {
      UnescapeHex(c, rest);
    } else {
      var e := [c] + rest;
      assert e[1..] == rest;
    }
  }

  /** A two-character escape: a backslash and x, read back as c. */
  lemma UnescapePair(x: char, c: char, rest: string)
    requires x == 't' ==> c == '\t'
    requires x == 'n' ==> c == '\n'
    requires x == 'r' ==> c == '\r'
    requires x !in "tnr" ==> x == c && x != 'x'
    ensures Unescape(['\\', x] + rest) == [c] + Unescape(rest)
  {
    var e := ['\\', x] + rest;
    assert e[2..] == rest;
  }

  /** A `\xNN` escape reads back as the character it encodes. */
  lemma UnescapeHex(c: char, rest: string)
    requires c as int < 256
    ensures Unescape("\\x" + [HexDigit(c as int / 16), HexDigit(c as int % 16)] + rest) == [c] + Unescape(rest)
  {
    var e := "\\x" + [HexDigit(c as int / 16), HexDigit(c as int % 16)] + rest;
    assert e[4..] == rest;
  }

  /** Escaping loses nothing: the text between the quotes reads back as s. */
  lemma {:induction false} UnescapeEscape(s: string, q: char)
    requires q == '"' || q == '\''
    ensures Unescape(Escape(s, q)) == s
    decreases |s|
  {
    if s != [] {
      UnescapeEscape(s[1..], q);
      UnescapeChar(s[0], q, Escape(s[1..], q));
    }
  }

  /** `repr` of a string round-trips: the text between its quotes reads back as the string. */
  lemma StrReprRoundTrip(s: string)
    ensures var r := StrRepr(s); Unescape(r[1..|r| - 1]) == s
  {
    var q := QuoteOf(s);
    var r := StrRepr(s);
    assert r[1..|r| - 1] == Escape(s, q);
    UnescapeEscape(s, q);
  }

  /** `str(v)`: a string as it is, any other value as its `repr`. */
  function Str(v: Value): string {
    match v
    case VStr(s) => s
    case _ => Repr(v)
  }

  /** `repr(v)`, the form values take inside `str()` of a list or dict. */
  function Repr(v: Value): string
    decreases v, 1
  {
    match v
    case VNone => "None"
    case VBool(b) => if b then "True" else "False"
    case VInt(i) => IntToString(i)
    case VTenths(t) => TenthsToString(t)
    case VStr(s) => StrRepr(s)
    case VList(items) => "[" + ReprItems(v, items) + "]"
    case VDict(entries) => "{" + ReprEntries(v, entries) + "}"
  }

  function ReprItems(parent: Value, items: seq<Value>): string
    requires forall k :: 0 <= k < |items| ==> items[k] < parent
    decreases parent, 0, |items|
  {
    if items == [] then ""
    else if |items| == 1 then Repr(items[0])
    else Repr(items[0]) + ", " + ReprItems(parent, items[1..])
  }

  function ReprEntries(parent: Value, entries: seq<(string, Value)>): string
    requires forall k :: 0 <= k < |entries| ==> entries[k].1 < parent
    decreases parent, 0, |entries|
  {
    if entries == [] then ""
    else
      var item := StrRepr(entries[0].0) + ": " + Repr(entries[0].1);
      if |entries| == 1 then item else item + ", " + ReprEntries(parent, entries[1..])
  }

  /** The keyword arguments a tool can be executed with (`content`, `min_length`,
      `max_words`); an omitted one is None. */
  datatype Args = Args(content: Option<string>, minLength: Option<int>, maxWords: Option<int>)

  /** What calling `execute` does: return a result, or raise (a `TypeError` for a missing
      required argument). */
  datatype Outcome = Returned(result: ToolResult) | Raised(exception: string)

  /** `BaseTool.to_dict()`: exactly the tool's name and description. */
  function ToDict(name: string, description: string): (d: Dict)
    ensures |d| == 2 && Get(d, "name") == Some(VStr(name))
    ensures Get(d, "description") == Some(VStr(description))
  {
    [("name", VStr(name)), ("description", VStr(description))]
  }
}
