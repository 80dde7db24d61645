/** String helpers that the exporter takes from Python 2: `str.join`, `%-*s`
    padding, and `repr` of byte strings and of lists of optional strings. */
module Text {

  datatype Option<+T> = None | Some(value: T)

  /** Python truthiness of a value that is either `None` or a `str`. */
  predicate Truthy(o: Option<string>) {
    o.Some? && o.value != ""
  }

  predicate StartsWith(s: string, p: string) {
    |p| <= |s| && s[..|p|] == p
  }

  predicate EndsWith(s: string, p: string) {
    |p| <= |s| && s[|s| - |p|..] == p
  }

  function Spaces(n: nat): (r: string)
    ensures |r| == n
    ensures forall i :: 0 <= i < n ==> r[i] == ' '
  {
    if n == 0 then "" else Spaces(n - 1) + " "
  }

  /** `"%-*s" % (width, s)`: left-justify `s` in a field of `width` characters. */
  function Pad(s: string, width: int): (r: string)
    ensures |r| == if |s| < width then width else |s|
    ensures r[..|s|] == s
    ensures forall i :: |s| <= i < |r| ==> r[i] == ' '
  {
    if |s| < width then s + Spaces(width - |s|) else s
  }

  /** `sep.join(xs)`. */
  function Join(sep: string, xs: seq<string>): string
  {
    if |xs| == 0 then ""
    else if |xs| == 1 then xs[0]
    else Join(sep, xs[..|xs| - 1]) + sep + xs[|xs| - 1]
  }

  lemma AppendAssoc<T>(a: seq<T>, b: seq<T>, c: seq<T>)
    ensures a + b + c == a + (b + c)
  {
  }

  lemma {:induction false} JoinEndsWithLast(sep: string, xs: seq<string>)
    requires |xs| > 0
    ensures EndsWith(Join(sep, xs), xs[|xs| - 1])
  {
  }

  lemma Framed(a: string, b: string, c: string)
    ensures StartsWith(a + b + c, a) && EndsWith(a + b + c, c)
  {
    var s := a + b + c;
    assert s[..|a|] == a;
    assert s[|s| - |c|..] == c;
  }

  /** A suffix survives anything put in front of it and anything appended
      to both. */
  lemma EndsWithAppend(x: string, a: string, b: string, y: string)
    requires EndsWith(a, b)
    ensures EndsWith(x + a + y, b + y)
  {
    var s := x + a + y;
    assert s[|s| - |b + y|..] == a[|a| - |b|..] + y;
  }

  /** Every item followed by `t`: the text of a run of statements. */
  function Terminated(xs: seq<string>, t: string): string
  {
    if |xs| == 0 then "" else Terminated(xs[..|xs| - 1], t) + (xs[|xs| - 1] + t)
  }

  /** `sep.join(xs) + sep` puts `sep` after every item. */
  lemma {:induction false} JoinThenSeparator(sep: string, xs: seq<string>)
    requires |xs| > 0
    ensures Join(sep, xs) + sep == Terminated(xs, sep)
  {
    if |xs| > 1 {
      var init := xs[..|xs| - 1];
      JoinThenSeparator(sep, init);
      var x := xs[|xs| - 1];
      calc {
        Join(sep, xs) + sep;
        Join(sep, init) + sep + x + sep;
        { AppendAssoc(Join(sep, init) + sep, x, sep); }
        Terminated(init, sep) + (x + sep);
      }
    } else {
      assert xs[..0] == [];
    }
  }

  function HexDigit(d: nat): char
    requires d < 16
  {
    "0123456789abcdef"[d]
  }

  /** One character of a Python 2 byte-string `repr`, given the quote in use. */
  function ReprChar(c: char, quote: char): string
  {
    if c == quote || c == '\\' then ['\\', c]
    else if c == '\t' then "\\t"
    else if c == '\n' then "\\n"
    else if c == '\r' then "\\r"
    else if c < ' ' || (127 <= (c as int) < 256)
    then "\\x" + [HexDigit(c as int / 16), HexDigit(c as int % 16)]
    else [c]
  }

  function ReprBody(s: string, quote: char): string
  {
    if |s| == 0 then "" else ReprBody(s[..|s| - 1], quote) + ReprChar(s[|s| - 1], quote)
  }

  /** Python 2 `repr` of a byte string: single quotes, unless the string holds
      a single quote and no double quote. */
  function Repr(s: string): (r: string)
    ensures |r| >= 2 && (r[0] == '\'' || r[0] == '"') && r[|r| - 1] == r[0]
  {
    var quote := if '\'' in s && '"' !in s then '"' else '\'';
    [quote] + ReprBody(s, quote) + [quote]
  }

  /** `repr` of an element of a list that holds strings and `None`. */
  function ReprOption(o: Option<string>): string
  {
    match o
    case None => "None"
    case Some(s) => Repr(s)
  }

  /** `"%s" % xs` for a list `xs` of strings and `None`, which is `str(xs)`. */
  function ReprList(xs: seq<Option<string>>): (r: string)
    ensures StartsWith(r, "[") && EndsWith(r, "]")
  {
    var items := seq(|xs|, i requires 0 <= i < |xs| => ReprOption(xs[i]));
    "[" + Join(", ", items) + "]"
  }

  /** `"%s" % o` for `None` or a string. */
  function Str(o: Option<string>): string
  {
    match o
    case None => "None"
    case Some(s) => s
  }
}
