/**
 * The handful of Python `str` and `int` operations the reply parsers rely on:
 * `str.isspace`, `str.strip()`, `str.startswith`, `str.split(" ", 1)`,
 * `str.split()`, `int(s)` and `str(n)` for integers.
 */
module PyText {
  import opened Wrappers

  /** `c.isspace()`: the characters Python treats as whitespace. */
  predicate IsSpace(c: char) {
    || c == ' '
    || ('\t' <= c <= '\r')
    || ('\U{1C}' <= c <= '\U{1F}')
    || c == '\U{85}' || c == '\U{A0}' || c == '\U{1680}'
    || ('\U{2000}' <= c <= '\U{200A}')
    || c == '\U{2028}' || c == '\U{2029}' || c == '\U{202F}' || c == '\U{205F}' || c == '\U{3000}'
  }

  predicate NoSpace(s: string) {
    forall k :: 0 <= k < |s| ==> !IsSpace(s[k])
  }

  predicate StartsWith(s: string, prefix: string) {
    |prefix| <= |s| && s[..|prefix|] == prefix
  }

  /** Number of whitespace characters at the start of `s`. */
  function LeadingSpaces(s: string): (n: nat)
    ensures n <= |s|
    ensures forall k :: 0 <= k < n ==> IsSpace(s[k])
    ensures n == |s| || !IsSpace(s[n])
  {
    if s == [] || !IsSpace(s[0]) then 0 else 1 + LeadingSpaces(s[1..])
  }

  /** Number of whitespace characters at the end of `s`. */
  function TrailingSpaces(s: string): (n: nat)
    ensures n <= |s|
    ensures forall k :: |s| - n <= k < |s| ==> IsSpace(s[k])
    ensures n == |s| || !IsSpace(s[|s| - 1 - n])
  {
    if s == [] || !IsSpace(s[|s| - 1]) then 0 else 1 + TrailingSpaces(s[..|s| - 1])
  }

  /**
   * `s.strip()`: `s` without its whitespace border. The result is the slice
   * of `s` that starts at the first non-whitespace character; everything
   * outside that slice is whitespace, and the slice neither starts nor ends
   * with whitespace.
   */
  function Strip(s: string): (r: string)
    ensures LeadingSpaces(s) + |r| <= |s|
    ensures r == s[LeadingSpaces(s)..LeadingSpaces(s) + |r|]
    ensures forall k :: 0 <= k < |s| && !(LeadingSpaces(s) <= k < LeadingSpaces(s) + |r|) ==> IsSpace(s[k])
    ensures r == [] || (!IsSpace(r[0]) && !IsSpace(r[|r| - 1]))
  {
    var t := s[LeadingSpaces(s)..];
    t[..|t| - TrailingSpaces(t)]
  }

  /** A string with no whitespace border is its own strip. */
  lemma StripUnbordered(s: string)
    requires s == [] || (!IsSpace(s[0]) && !IsSpace(s[|s| - 1]))
    ensures Strip(s) == s
  {
    if s != [] {
      assert LeadingSpaces(s) == 0;
      assert TrailingSpaces(s) == 0;
    }
  }

  /** `strip` is idempotent. */
  lemma StripIdempotent(s: string)
    ensures Strip(Strip(s)) == Strip(s)
  {
    StripUnbordered(Strip(s));
  }

  /** `s.strip() == ""` exactly when `s` is all whitespace. */
  lemma StripEmpty(s: string)
    ensures Strip(s) == "" <==> forall k :: 0 <= k < |s| ==> IsSpace(s[k])
  {
    if Strip(s) != "" {
      var i := LeadingSpaces(s);
      assert s[i] == Strip(s)[0];
    }
  }

  /** Index of the first `' '` in `s`, or `|s|` if there is none. */
  function IndexOfSpace(s: string): (i: nat)
    ensures i <= |s|
    ensures forall k :: 0 <= k < i ==> s[k] != ' '
    ensures i < |s| ==> s[i] == ' '
  {
    if s == [] || s[0] == ' ' then 0 else 1 + IndexOfSpace(s[1..])
  }

  /** `s.split(" ", 1)`: split at the first single space, at most once. */
  function SplitSpaceOnce(s: string): (parts: seq<string>)
    ensures 1 <= |parts| <= 2
    ensures |parts| == 2 <==> ' ' in s
    ensures |parts| == 1 ==> parts[0] == s
    ensures |parts| == 2 ==> s == parts[0] + " " + parts[1] && ' ' !in parts[0]
  {
    var i := IndexOfSpace(s);
    if i == |s| then [s] else [s[..i], s[i + 1..]]
  }

  /**
   * After a prefix `name + " "` with no space inside `name`, the second part
   * of `split(" ", 1)` is what follows the prefix.
   */
  lemma SplitAfterPrefix(s: string, name: string)
    requires ' ' !in name
    requires StartsWith(s, name + " ")
    ensures SplitSpaceOnce(s) == [name, s[|name| + 1..]]
  {
    assert s[|name|] == (name + " ")[|name|] == ' ';
    assert s[..|name|] == (name + " ")[..|name|] == name;
    forall k | 0 <= k < |name|
      ensures s[k] != ' '
    {
      assert s[k] == name[k] && name[k] in name;
    }
    assert IndexOfSpace(s) == |name|;
  }

  /** Length of the run of non-whitespace characters at the start of `s`. */
  function TokenLength(s: string): (n: nat)
    ensures n <= |s|
    ensures forall k :: 0 <= k < n ==> !IsSpace(s[k])
    ensures n == |s| || IsSpace(s[n])
  {
    if s == [] || IsSpace(s[0]) then 0 else 1 + TokenLength(s[1..])
  }

  /**
   * `s.split()`: the maximal runs of non-whitespace characters, in order.
   * Every part is non-empty and holds no whitespace.
   */
  function Split(s: string): (parts: seq<string>)
    ensures forall k :: 0 <= k < |parts| ==> parts[k] != "" && NoSpace(parts[k])
    decreases |s|
  {
    var t := s[LeadingSpaces(s)..];
    if t == [] then []
    else
      var n := TokenLength(t);
      [t[..n]] + Split(t[n..])
  }

  /** `" ".join` with a leading separator: `" a b c"` for `[a, b, c]`. */
  function Args(args: seq<string>): string {
    if args == [] then "" else " " + args[0] + Args(args[1..])
  }

  /**
   * A request line as the client formats it with an f-string:
   * `f"{name} {a0} {a1} ..."`.
   */
  function Command(name: string, args: seq<string>): string {
    name + Args(args)
  }

  predicate IsToken(s: string) {
    s != "" && NoSpace(s)
  }

  lemma LeadingSpacesOfToken(s: string)
    requires s != [] && !IsSpace(s[0])
    ensures LeadingSpaces(s) == 0
  {
  }

  lemma TokenLengthOfPrefix(tok: string, rest: string)
    requires NoSpace(tok)
    requires rest == [] || IsSpace(rest[0])
    ensures TokenLength(tok + rest) == |tok|
    decreases |tok|
  {
    if tok != [] {
      assert (tok + rest)[1..] == tok[1..] + rest;
      TokenLengthOfPrefix(tok[1..], rest);
    }
  }

  /** A leading token followed by whitespace or nothing is split off first. */
  lemma {:induction false} SplitToken(tok: string, rest: string)
    requires IsToken(tok)
    requires rest == [] || IsSpace(rest[0])
    ensures Split(tok + rest) == [tok] + Split(rest)
  {
    var s := tok + rest;
    LeadingSpacesOfToken(s);
    assert s[0..] == s;
    TokenLengthOfPrefix(tok, rest);
    assert s[..|tok|] == tok;
    assert s[|tok|..] == rest;
  }

  /** A single leading space is skipped by `split()`. */
  lemma SplitSkipsSpace(rest: string)
    requires rest == [] || !IsSpace(rest[0])
    ensures Split(" " + rest) == Split(rest)
  {
    var s := " " + rest;
    assert s[1..] == rest;
    assert LeadingSpaces(s) == 1 + LeadingSpaces(rest);
    assert LeadingSpaces(rest) == 0;
    assert rest[0..] == rest;
  }

  /** `split()` of `" " + tok + rest` when `tok` is a token and `rest` starts with whitespace or is empty. */
  lemma SplitSpacedToken(tok: string, rest: string)
    requires IsToken(tok)
    requires rest == [] || IsSpace(rest[0])
    ensures Split(" " + tok + rest) == [tok] + Split(rest)
  {
    var x := tok + rest;
    assert " " + tok + rest == " " + x;
    assert x[0] == tok[0] && !IsSpace(tok[0]);
    SplitSkipsSpace(x);
    SplitToken(tok, rest);
  }

  lemma {:induction false} SplitArgs(args: seq<string>)
    requires forall k :: 0 <= k < |args| ==> IsToken(args[k])
    ensures Split(Args(args)) == args
    decreases |args|
  {
    if args == [] {
      assert Split("") == [];
    } else {
      var tok, rest := args[0], args[1..];
      assert IsToken(tok);
      SplitArgs(rest);
      ArgsShape(rest);
      assert Args(args) == " " + tok + Args(rest);
      SplitSpacedToken(tok, Args(rest));
      assert [tok] + rest == args;
    }
  }

  /**
   * The client's request line splits back into its name and arguments when
   * none of them is empty or holds whitespace.
   */
  lemma {:induction false} SplitCommand(name: string, args: seq<string>)
    requires IsToken(name)
    requires forall k :: 0 <= k < |args| ==> IsToken(args[k])
    ensures Split(Command(name, args)) == [name] + args
  {
    var tail := Args(args);
    ArgsShape(args);
    SplitToken(name, tail);
    SplitArgs(args);
  }

  lemma ArgsShape(args: seq<string>)
    ensures Args(args) == [] <==> args == []
    ensures Args(args) != [] ==> Args(args)[0] == ' '
  {
  }

  /** A request line with one argument: `f"{name} {a}"`. */
  lemma CommandOfOne(name: string, a: string)
    ensures Command(name, [a]) == name + " " + a
  {
    assert Args([a]) == " " + a + Args([]);
  }

  /** A request line starts with its name followed by a space when it has arguments. */
  lemma CommandStartsWithName(name: string, args: seq<string>)
    requires args != []
    ensures StartsWith(Command(name, args), name + " ")
  {
    var prefix, rest := name + " ", args[0] + Args(args[1..]);
    assert Args(args) == " " + rest;
    assert Command(name, args) == prefix + rest;
    assert (prefix + rest)[..|prefix|] == prefix;
  }

  /** The last character of an argument list is the last character of its last argument. */
  lemma {:induction false} ArgsEnd(args: seq<string>)
    requires args != []
    requires forall k :: 0 <= k < |args| ==> IsToken(args[k])
    ensures !IsSpace(Args(args)[|Args(args)| - 1])
    decreases |args|
  {
    var t := Args(args[1..]);
    assert Args(args) == " " + args[0] + t;
    if |args| > 1 {
      ArgsEnd(args[1..]);
    }
  }

  /** A request line built from tokens has no whitespace at either end. */
  lemma CommandUnbordered(name: string, args: seq<string>)
    requires IsToken(name)
    requires forall k :: 0 <= k < |args| ==> IsToken(args[k])
    ensures var c := Command(name, args); c != [] && !IsSpace(c[0]) && !IsSpace(c[|c| - 1])
  {
    if args != [] {
      ArgsEnd(args);
    }
  }

  /** Stripping a line ending off a line with no whitespace border gives the line back. */
  lemma StripLine(s: string, ending: string)
    requires s == [] || (!IsSpace(s[0]) && !IsSpace(s[|s| - 1]))
    requires forall k :: 0 <= k < |ending| ==> IsSpace(ending[k])
    ensures Strip(s + ending) == s
  {
    var t := s + ending;
    var r := Strip(t);
    if s == [] {
      assert t == ending;
      StripEmpty(t);
    } else {
      assert !IsSpace(t[0]);
      assert LeadingSpaces(t) == 0;
      assert !IsSpace(t[|s| - 1]);
      assert |s| - 1 < |r|;
      assert forall k :: |s| <= k < |t| ==> IsSpace(t[k]) by {
        forall k | |s| <= k < |t| ensures IsSpace(t[k]) {
          assert t[k] == ending[k - |s|];
        }
      }
      assert r[|r| - 1] == t[|r| - 1];
      assert |r| <= |s|;
      assert r == t[..|s|];
      assert t[..|s|] == s;
    }
  }

  // ---------------------------------------------------------------------
  // Integers: str(n) and int(s)
  // ---------------------------------------------------------------------

  predicate IsDigit(c: char) {
    '0' <= c <= '9'
  }

  function DigitChar(d: nat): (c: char)
    requires d < 10
    ensures IsDigit(c) && (c as int) - ('0' as int) == d
  {
    ('0' as int + d) as char
  }

  /** The decimal digits of `n`, most significant first, without leading zeros. */
  function DecimalDigits(n: nat): (s: string)
    ensures s != []
    ensures forall k :: 0 <= k < |s| ==> IsDigit(s[k])
    ensures |s| > 1 ==> s[0] != '0'
  {
    if n < 10 then [DigitChar(n)] else DecimalDigits(n / 10) + [DigitChar(n % 10)]
  }

  /** `str(n)` for a Python `int`. */
  function FormatInt(n: int): (s: string)
    ensures IsToken(s)
  {
    if n < 0 then "-" + DecimalDigits(-n) else DecimalDigits(n)
  }

  /**
   * The digit body `int()` accepts in base 10: ASCII digits, with single
   * underscores allowed between two digits.
   */
  predicate DigitGroups(s: string) {
    && |s| > 0
    && IsDigit(s[0]) && IsDigit(s[|s| - 1])
    && (forall k :: 0 <= k < |s| ==> IsDigit(s[k]) || s[k] == '_')
    && (forall k :: 0 <= k < |s| - 1 ==> !(s[k] == '_' && s[k + 1] == '_'))
  }

  /** The value of a digit string, underscores ignored. */
  function DigitsValue(s: string): nat
    requires forall k :: 0 <= k < |s| ==> IsDigit(s[k]) || s[k] == '_'
  {
    if s == [] then 0
    else if s[|s| - 1] == '_' then DigitsValue(s[..|s| - 1])
    else
      assert IsDigit(s[|s| - 1]);
      10 * DigitsValue(s[..|s| - 1]) + ((s[|s| - 1] as int) - ('0' as int))
  }

  /**
   * `int(s)`: surrounding whitespace is ignored, then an optional sign and a
   * digit body. Any other text is a `ValueError`, here `None`.
   */
  function ParseInt(s: string): (r: Option<int>)
    ensures r.Some? ==> Strip(s) != ""
  {
    var t := Strip(s);
    if |t| > 0 && (t[0] == '-' || t[0] == '+') then
      if DigitGroups(t[1..]) then
        var magnitude: int := DigitsValue(t[1..]);
        Some(if t[0] == '-' then -magnitude else magnitude)
      else None
    else if DigitGroups(t) then Some(DigitsValue(t))
    else None
  }

  lemma {:induction false} DigitsValueOfDecimal(n: nat)
    ensures DigitGroups(DecimalDigits(n))
    ensures DigitsValue(DecimalDigits(n)) == n
  {
    var s := DecimalDigits(n);
    if n >= 10 {
      DigitsValueOfDecimal(n / 10);
      assert s[..|s| - 1] == DecimalDigits(n / 10);
    }
  }

  /** `int(str(n)) == n` for every integer `n`. */
  lemma {:induction false} ParseFormatInt(n: int)
    ensures ParseInt(FormatInt(n)) == Some(n)
  {
    var s := FormatInt(n);
    var m := if n < 0 then -n else n;
    DigitsValueOfDecimal(m);
    var d := DecimalDigits(m);
    assert !IsSpace(s[0]) && !IsSpace(s[|s| - 1]);
    StripUnbordered(s);
    if n < 0 {
      assert s[1..] == d;
    }
  }
}
