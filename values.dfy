/** The Python values that flow through the feedback code: what `json.loads`
    can produce, with the behaviour of `str()`, `repr()`, truthiness,
    iteration and `str.join` on them. */
module Values {
  import opened Wrappers
  import opened Strings
  import OrderedDict

  /** A JSON-decoded Python value. A float is carried by the text `str()`
      prints for it, since nothing here computes with floats; a dict is an
      insertion-ordered list of entries. */
  datatype Value =
    | Null
    | Bool(b: bool)
    | Int(i: int)
    | Float(text: string)
    | Str(s: string)
    | List(items: seq<Value>)
    | Dict(entries: seq<(string, Value)>)

  /** `type(v).__name__`, as it appears in `TypeError` messages. */
  function TypeName(v: Value): string
  {
    match v
    case Null => "NoneType"
    case Bool(_) => "bool"
    case Int(_) => "int"
    case Float(_) => "float"
    case Str(_) => "str"
    case List(_) => "list"
    case Dict(_) => "dict"
  }

  /** `bool(v)`. */
  predicate Truthy(v: Value)
  {
    match v
    case Null => false
    case Bool(b) => b
    case Int(i) => i != 0
    case Float(t) => t != "0.0" && t != "-0.0"
    case Str(s) => s != ""
    case List(xs) => xs != []
    case Dict(es) => es != []
  }

  /** A character above the ASCII range that `str.isprintable` rejects:
      the Latin-1 controls, no-break space and soft hyphen, the Unicode
      space, line and paragraph separators, the common format characters,
      the unassigned code points around them, the private-use area and the
      supplementary private-use planes. */
  predicate NonPrintableWide(c: char)
  {
    var n := c as int;
    || (0x80 <= n <= 0xa0) || n == 0xad
    || (0x600 <= n <= 0x605) || n == 0x61c || n == 0x6dd || n == 0x70f || n == 0x8e2 || n == 0x180e
    || n == 0x1680 || (0x2000 <= n <= 0x200f) || (0x2028 <= n <= 0x202f) || (0x205f <= n <= 0x206f)
    || n == 0x3000 || (0xe000 <= n <= 0xf8ff) || n == 0xfeff
    || (0xfff0 <= n <= 0xfffb) || (0xfffe <= n <= 0xffff) || n >= 0xf0000
  }

  /** A character `repr` writes as a numeric escape. */
  predicate NeedsNumericEscape(c: char)
  {
    (c < ' ' && c != '\n' && c != '\r' && c != '\t') || c == '\U{7f}' || NonPrintableWide(c)
  }

  /** `n` in exactly `width` lower-case hex digits (the low ones). */
  function Hex(n: nat, width: nat): (h: string)
    ensures |h| == width
    ensures forall k :: 0 <= k < width ==> '0' <= h[k] <= '9' || 'a' <= h[k] <= 'f'
    decreases width
  {
    if width == 0 then "" else Hex(n / 16, width - 1) + [HexDigit(n % 16)]
  }

  /** How `repr` writes one character inside a quoted string: the quote and
      the backslash escaped, `\n`, `\r` and `\t` by name, other
      non-printable characters as `\xNN`, `\uNNNN` or `\UNNNNNNNN`. */
  function EscapeChar(c: char, quote: char): string
  {
    if c == '\\' then "\\\\"
    else if c == quote then ['\\', quote]
    else if c == '\n' then "\\n"
    else if c == '\r' then "\\r"
    else if c == '\t' then "\\t"
    else if NeedsNumericEscape(c) then
      if c as int <= 0xff then "\\x" + Hex(c as int, 2)
      else if c as int <= 0xffff then "\\u" + Hex(c as int, 4)
      else "\\U" + Hex(c as int, 8)
    else [c]
  }

  /** A character that needs a numeric escape never appears raw in its
      escape, which is written in printable ASCII. */
  lemma EscapeHidesNonPrintable(c: char, quote: char)
    requires quote == '\'' || quote == '"'
    requires NeedsNumericEscape(c)
    ensures c !in EscapeChar(c, quote)
    ensures |EscapeChar(c, quote)| == if c as int <= 0xff then 4 else if c as int <= 0xffff then 6 else 10
  {
    var e := EscapeChar(c, quote);
    assert forall k :: 2 <= k < |e| ==> '0' <= e[k] <= '9' || 'a' <= e[k] <= 'f';
  }

  function HexDigit(n: nat): char
    requires n < 16
  {
    if n < 10 then DigitChar(n) else ('a' as int + n - 10) as char
  }

  function EscapeAll(s: string, quote: char): string
    decreases |s|
  {
    if s == [] then "" else EscapeChar(s[0], quote) + EscapeAll(s[1..], quote)
  }

  /** `repr(s)` for a string: single quotes unless the text contains a single
      quote and no double quote. */
  function QuoteString(s: string): string
  {
    var quote := if Contains(s, "'") && !Contains(s, "\"") then '"' else '\'';
    [quote] + EscapeAll(s, quote) + [quote]
  }

  /** `repr` escapes a next-line control as `\xNN`. */
  lemma EscapeNextLine()
    ensures EscapeChar('\U{85}', '\'') == "\\x85"
  {
    assert Hex(0x8, 1) == "8";
  }

  /** `repr` escapes the line separator as `\uNNNN`. */
  lemma EscapeLineSeparator()
    ensures EscapeChar('\U{2028}', '\'') == "\\u2028"
  {
    assert Hex(0x2, 1) == "2";
    assert Hex(0x20, 2) == "20";
    assert Hex(0x202, 3) == "202";
  }

  /** `repr` escapes a supplementary private-use character as `\UNNNNNNNN`. */
  lemma EscapePrivateUsePlane()
    ensures EscapeChar('\U{f0000}', '\'') == "\\U000f0000"
  {
    assert Hex(0, 3) == "000";
    assert Hex(0xf, 4) == "000f";
    assert Hex(0xf0, 5) == "000f0";
    assert Hex(0xf00, 6) == "000f00";
    assert Hex(0xf000, 7) == "000f000";
  }

  /** The escape reaches `repr` of a whole string. */
  lemma QuoteStringEscapesWide()
    ensures QuoteString("a\U{85}") == "'a\\x85'"
  {
    assert !Contains("a\U{85}", "'");
    EscapeNextLine();
    assert EscapeAll("a\U{85}", '\'') == "a" + EscapeAll("\U{85}", '\'');
  }

  /** `repr(v)`. */
  function Repr(v: Value): string
    decreases v
  {
    match v
    case Null => "None"
    case Bool(b) => if b then "True" else "False"
    case Int(i) => IntToString(i)
    case Float(t) => t
    case Str(s) => QuoteString(s)
    case List(xs) =>
      "[" + Join(", ", seq(|xs|, k requires 0 <= k < |xs| => Repr(xs[k]))) + "]"
    case Dict(es) =>
      "{" + Join(", ", seq(|es|, k requires 0 <= k < |es| =>
                                QuoteString(es[k].0) + ": " + Repr(es[k].1))) + "}"
  }

  /** `str(v)`, which f-strings use: a string is itself, anything else its repr. */
  function Show(v: Value): (r: string)
    ensures v.Str? ==> r == v.s
    ensures v.Int? ==> r == IntToString(v.i)
  {
    if v.Str? then v.s else Repr(v)
  }

  /** The items a `for` loop visits: a list's elements, a string's characters,
      a dict's keys; any other value raises `TypeError`. */
  function Iterate(v: Value): (r: Result<seq<Value>, string>)
    ensures r.Failure? <==> !(v.List? || v.Str? || v.Dict?)
    ensures v.List? ==> r == Success(v.items)
    ensures r.Failure? ==> r.error == "'" + TypeName(v) + "' object is not iterable"
  {
    match v
    case List(xs) => Success(xs)
    case Str(s) => Success(seq(|s|, k requires 0 <= k < |s| => Str([s[k]])))
    case Dict(es) =>
      var ks := OrderedDict.Keys(es);
      Success(seq(|ks|, k requires 0 <= k < |ks| => Str(ks[k])))
    case _ => Failure("'" + TypeName(v) + "' object is not iterable")
  }

  /** The texts of a list whose items are all strings. */
  function Texts(xs: seq<Value>): (r: seq<string>)
    requires forall k :: 0 <= k < |xs| ==> xs[k].Str?
    ensures |r| == |xs| && forall k :: 0 <= k < |xs| ==> r[k] == xs[k].s
  {
    seq(|xs|, k requires 0 <= k < |xs| => xs[k].s)
  }

  /** Index of the first item that is not a string, or `|xs|` when all are. */
  function FirstNonString(xs: seq<Value>): (n: nat)
    ensures n <= |xs|
    ensures forall k :: 0 <= k < n ==> xs[k].Str?
    ensures n < |xs| ==> !xs[n].Str?
    decreases |xs|
  {
    if xs == [] then 0
    else if !xs[0].Str? then 0
    else 1 + FirstNonString(xs[1..])
  }

  /** `sep.join(xs)`: the joined text when every item is a string, otherwise
      the `TypeError` naming the first offending item. */
  function JoinValues(sep: string, xs: seq<Value>): (r: Result<string, string>)
    ensures r.Success? <==> forall k :: 0 <= k < |xs| ==> xs[k].Str?
  {
    var n := FirstNonString(xs);
    if n == |xs| then Success(Join(sep, Texts(xs)))
    else Failure("sequence item " + NatToString(n) + ": expected str instance, "
                 + TypeName(xs[n]) + " found")
  }
}
