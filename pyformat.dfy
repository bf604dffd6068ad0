/**
  How Python renders values inside an f-string: `str(n)` for an integer and
  `str(xs)` for a list of strings, which is `repr` of each item between brackets.
 */
module PyFormat {
  import opened Wrappers
  import opened Text

  const Digits := "0123456789"
  const HexDigits := "0123456789abcdef"

  predicate IsDigit(c: char) {
    '0' <= c <= '9'
  }

  predicate AllDigits(s: string) {
    forall i :: 0 <= i < |s| ==> IsDigit(s[i])
  }

  /** Decimal digits of `n` without leading zeros (`str(n)` for `n >= 0`). */
  function NatToString(n: nat): string
  {
    if n < 10 then [Digits[n]] else NatToString(n / 10) + [Digits[n % 10]]
  }

  /** Python's `str(i)`: a minus sign for negative numbers, then the digits. */
  function IntToString(i: int): string
  {
    if i < 0 then "-" + NatToString(-i) else NatToString(i)
  }

  /** The number a string of decimal digits denotes. */
  function DecimalValue(s: string): nat
    requires AllDigits(s)
  {
    if s == [] then 0 else DecimalValue(s[..|s| - 1]) * 10 + (s[|s| - 1] as int - '0' as int)
  }

  /** Reads back what `IntToString` writes (Python's `int(s)` on canonical input). */
  function ParseInt(s: string): Option<int>
  {
    if |s| > 1 && s[0] == '-' && AllDigits(s[1..]) then Some(-(DecimalValue(s[1..]) as int))
    else if |s| > 0 && AllDigits(s) then Some(DecimalValue(s))
    else None
  }

  /** `NatToString` writes a non-empty run of digits, with no leading zero, that denotes `n`. */
  lemma {:induction false} NatToStringDigits(n: nat)
    ensures |NatToString(n)| > 0 && AllDigits(NatToString(n))
    ensures DecimalValue(NatToString(n)) == n
    ensures NatToString(n)[0] == '0' ==> n == 0
  {
    var s := NatToString(n);
    if n >= 10 {
      NatToStringDigits(n / 10);
      assert s[..|s| - 1] == NatToString(n / 10);
      assert s[0] == NatToString(n / 10)[0];
    }
  }

  /** Round trip: the decimal rendering of any integer reads back as that integer. */
  lemma IntToStringRoundTrip(i: int)
    ensures ParseInt(IntToString(i)) == Some(i)
  {
    var s := IntToString(i);
    if i < 0 {
      var t := NatToString(-i);
      NatToStringDigits(-i);
      assert s == "-" + t;
      assert s[1..] == t;
      assert |s| > 1 && s[0] == '-';
    } else {
      NatToStringDigits(i);
      assert IsDigit(s[0]);
    }
  }

  /** The quote Python's `repr` puts around a string: double only when the text has a single quote and no double quote. */
  function QuoteFor(s: string): char
  {
    if '\'' in s && '"' !in s then '"' else '\''
  }

  /** A character `repr` cannot show as itself inside quotes `q`. */
  predicate NeedsEscape(c: char, q: char) {
    c == q || c == '\\' || c < ' ' || c as int == 127
  }

  /** One character as `repr` writes it between quotes `q`. */
  function EscapeChar(c: char, q: char): string
  {
    if c == q || c == '\\' then ['\\', c]
    else if c == '\t' then "\\t"
    else if c == '\n' then "\\n"
    else if c == '\r' then "\\r"
    else if c < ' ' || c as int == 127 then "\\x" + [HexDigits[c as int / 16], HexDigits[c as int % 16]]
    else [c]
  }

  function Escape(s: string, q: char): string
  {
    if s == [] then "" else EscapeChar(s[0], q) + Escape(s[1..], q)
  }

  /** Python's `repr` of a string. */
  function StrRepr(s: string): string
  {
    var q := QuoteFor(s);
    [q] + Escape(s, q) + [q]
  }

  /** Python's `str` of a list of strings: `'[' + ', '.join(map(repr, xs)) + ']'`. */
  function ListRepr(xs: seq<string>): string
  {
    "[" + Join(seq(|xs|, i requires 0 <= i < |xs| => StrRepr(xs[i])), ", ") + "]"
  }

  /** A string `repr` shows verbatim: no backslash, no ASCII control character, not both kinds of quote. */
  predicate ShownVerbatim(s: string) {
    && (forall i :: 0 <= i < |s| ==> s[i] != '\\' && ' ' <= s[i] && s[i] as int != 127)
    && ('\'' !in s || '"' !in s)
  }

  /** Text with nothing to escape is copied unchanged. */
  lemma {:induction false} EscapeUnchanged(s: string, q: char)
    requires forall i :: 0 <= i < |s| ==> !NeedsEscape(s[i], q)
    ensures Escape(s, q) == s
  {
    if s != [] {
      assert !NeedsEscape(s[0], q);
      EscapeUnchanged(s[1..], q);
    }
  }

  /** A string shown verbatim is exactly its text between two quotes. */
  lemma StrReprVerbatim(s: string)
    requires ShownVerbatim(s)
    ensures StrRepr(s) == [QuoteFor(s)] + s + [QuoteFor(s)]
  {
    var q := QuoteFor(s);
    forall i | 0 <= i < |s|
      ensures !NeedsEscape(s[i], q)
    {
      assert s[i] in s;
    }
    EscapeUnchanged(s, q);
  }

  /** Every item `repr` shows verbatim occurs, as written, in the rendered list. */
  lemma ListReprContains(xs: seq<string>, i: nat)
    requires i < |xs| && ShownVerbatim(xs[i])
    ensures Contains(ListRepr(xs), xs[i])
  {
    var reprs := seq(|xs|, j requires 0 <= j < |xs| => StrRepr(xs[j]));
    JoinAt(reprs, ", ", i);
    StrReprVerbatim(xs[i]);
    var k := JoinOffset(reprs, ", ", i);
    ContainsAtConcat([], [QuoteFor(xs[i])] + xs[i] + [QuoteFor(xs[i])], [], xs[i], 1);
    assert [] + ([QuoteFor(xs[i])] + xs[i] + [QuoteFor(xs[i])]) + [] == reprs[i];
    ContainsAtConcat("[", Join(reprs, ", "), "]", reprs[i], k);
    ContainsAtTrans(ListRepr(xs), reprs[i], xs[i], 1 + k, 1);
  }
}
