// Decimal printing and parsing, splitting on a separator, and the "lo-hi" block keys
// that nodes advertise and routers read back.
module Text {
  datatype Option<+T> = None | Some(value: T)

  datatype Range = Range(lo: nat, hi: nat)

  const DIGITS := "0123456789"

  predicate IsDigit(c: char) {
    '0' <= c <= '9'
  }

  predicate AllDigits(s: string) {
    forall i | 0 <= i < |s| :: IsDigit(s[i])
  }

  /** Decimal rendering of a natural, as an f-string prints it. */
  function Print(n: nat): (s: string)
    ensures |s| > 0 && AllDigits(s)
  {
    if n < 10 then [DIGITS[n]] else Print(n / 10) + [DIGITS[n % 10]]
  }

  function ToNat(s: string): nat
    requires AllDigits(s)
  {
    if s == [] then 0 else 10 * ToNat(s[..|s| - 1]) + (s[|s| - 1] as int - '0' as int)
  }

  lemma {:induction false} ToNatPrint(n: nat)
    ensures ToNat(Print(n)) == n
  {
    if n >= 10 {
      ToNatPrint(n / 10);
      var s := Print(n);
      assert s[..|s| - 1] == Print(n / 10);
    }
  }

  lemma DigitIs(d: nat)
    requires d < 10
    ensures DIGITS[d] == '0' + d as char
  {
  }

  /** A numeral without a superfluous zero in front is what printing its value gives. */
  lemma {:induction false} PrintToNat(s: string)
    requires s != "" && AllDigits(s) && (|s| > 1 ==> s[0] != '0')
    ensures Print(ToNat(s)) == s
  {
    hide Print;
    var n := |s| - 1;
    var front, d := s[..n], s[n] as int - '0' as int;
    assert s == front + [s[n]];
    DigitIs(d);
    if n > 0 {
      PrintToNat(front);
      NotZero(front);
      LastDigit(ToNat(front), d);
    } else {
      OneDigit(d);
    }
  }

  lemma OneDigit(d: nat)
    requires d < 10
    ensures Print(d) == [DIGITS[d]]
  {
  }

  lemma LastDigit(a: nat, d: nat)
    requires a > 0 && d < 10
    ensures Print(10 * a + d) == Print(a) + [DIGITS[d]]
  {
    assert (10 * a + d) / 10 == a && (10 * a + d) % 10 == d;
  }

  lemma {:induction false} NotZero(s: string)
    requires s != "" && AllDigits(s) && s[0] != '0'
    ensures ToNat(s) > 0
  {
    if |s| > 1 {
      NotZero(s[..|s| - 1]);
    }
  }

  lemma PrintInjective(a: nat, b: nat)
    requires Print(a) == Print(b)
    ensures a == b
  {
    ToNatPrint(a);
    ToNatPrint(b);
  }

  lemma PrefixedPrintInjective(prefix: string, a: nat, b: nat)
    requires prefix + Print(a) == prefix + Print(b)
    ensures a == b
  {
    assert (prefix + Print(a))[|prefix|..] == Print(a);
    assert (prefix + Print(b))[|prefix|..] == Print(b);
    PrintInjective(a, b);
  }

  predicate IsSpace(c: char) {
    c == ' ' || c == '\t' || c == '\n' || c == '\r'
  }

  function StripLeft(s: string): string {
    if s != "" && IsSpace(s[0]) then StripLeft(s[1..]) else s
  }

  function StripRight(s: string): string {
    if s != "" && IsSpace(s[|s| - 1]) then StripRight(s[..|s| - 1]) else s
  }

  function Strip(s: string): string {
    StripRight(StripLeft(s))
  }

  /** What is left begins and ends with what is not blank, and only blanks are gone. */
  ghost predicate IsStripped(s: string, t: string) {
    && (t != "" ==> !IsSpace(t[0]) && !IsSpace(t[|t| - 1]))
    && exists a, b :: Blanks(a) && Blanks(b) && s == a + t + b
  }

  predicate Blanks(s: string) {
    forall c | c in s :: IsSpace(c)
  }

  lemma {:induction false} StripsLeft(s: string) returns (a: string)
    ensures s == a + StripLeft(s) && Blanks(a)
    ensures StripLeft(s) != "" ==> !IsSpace(StripLeft(s)[0])
  {
    if s != "" && IsSpace(s[0]) {
      a := StripsLeft(s[1..]);
      assert s == [s[0]] + s[1..];
      a := [s[0]] + a;
    } else {
      a := "";
    }
  }

  lemma {:induction false} StripsRight(s: string) returns (b: string)
    ensures s == StripRight(s) + b && Blanks(b)
    ensures StripRight(s) != "" ==> !IsSpace(StripRight(s)[|StripRight(s)| - 1]) && StripRight(s)[0] == s[0]
  {
    if s != "" && IsSpace(s[|s| - 1]) {
      var n := |s| - 1;
      b := StripsRight(s[..n]);
      assert s == s[..n] + [s[n]];
      b := b + [s[n]];
    } else {
      b := "";
    }
  }

  lemma StripMeans(s: string)
    ensures IsStripped(s, Strip(s))
  {
    hide IsSpace, StripLeft, StripRight;
    var a := StripsLeft(s);
    var b := StripsRight(StripLeft(s));
    assert s == a + Strip(s) + b;
  }

  /** Python's int() on a string without a minus sign: surrounding blanks and a plus sign are accepted. */
  function ParseInt(s: string): Option<nat> {
    var t := Strip(s);
    var u := if t != "" && t[0] == '+' then t[1..] else t;
    if u != "" && AllDigits(u) then Some(ToNat(u)) else None
  }

  lemma ParseIntPrint(n: nat)
    ensures ParseInt(Print(n)) == Some(n)
  {
    assert Strip(Print(n)) == Print(n);
    ToNatPrint(n);
  }

  /** Python's str.split(sep) for a one-character separator: never empty, separators dropped. */
  function Split(s: string, sep: char): (parts: seq<string>)
    ensures |parts| > 0
  {
    if s == "" then [""]
    else
      var rest := Split(s[1..], sep);
      if s[0] == sep then [""] + rest
      else [[s[0]] + rest[0]] + rest[1..]
  }

  function Join(parts: seq<string>, sep: char): string {
    if parts == [] then ""
    else if |parts| == 1 then parts[0]
    else parts[0] + [sep] + Join(parts[1..], sep)
  }

  lemma {:induction false} SplitNoSeparator(s: string, sep: char)
    requires sep !in s
    ensures Split(s, sep) == [s]
  {
    if s != "" {
      assert forall c | c in s[1..] :: c in s;
      SplitNoSeparator(s[1..], sep);
      assert [s[0]] + s[1..] == s;
    }
  }

  lemma {:induction false} SplitFirst(s: string, rest: string, sep: char)
    requires sep !in s
    ensures Split(s + [sep] + rest, sep) == [s] + Split(rest, sep)
  {
    var whole := s + [sep] + rest;
    if s == "" {
      assert whole[1..] == rest;
    } else {
      assert forall c | c in s[1..] :: c in s;
      assert whole[0] == s[0] && whole[1..] == s[1..] + [sep] + rest;
      SplitFirst(s[1..], rest, sep);
      assert [s[0]] + s[1..] == s;
    }
  }

  /** Splitting undoes joining, for parts that do not contain the separator. */
  lemma {:induction false} SplitJoin(parts: seq<string>, sep: char)
    requires parts != []
    requires forall p | p in parts :: sep !in p
    ensures Split(Join(parts, sep), sep) == parts
  {
    if |parts| == 1 {
      SplitNoSeparator(parts[0], sep);
    } else {
      SplitFirst(parts[0], Join(parts[1..], sep), sep);
      SplitJoin(parts[1..], sep);
    }
  }

  /** Joining undoes splitting, and no part contains the separator. */
  lemma {:induction false} JoinSplit(s: string, sep: char)
    ensures Join(Split(s, sep), sep) == s
    ensures forall p | p in Split(s, sep) :: sep !in p
  {
    if s != "" {
      JoinSplit(s[1..], sep);
      var rest := Split(s[1..], sep);
      assert s == [s[0]] + s[1..];
      if s[0] == sep {
        JoinFront("", rest, sep);
      } else {
        JoinMore(s[0], rest, sep);
        assert rest == [rest[0]] + rest[1..];
      }
    }
  }

  lemma JoinFront(p: string, rest: seq<string>, sep: char)
    requires rest != []
    ensures Join([p] + rest, sep) == p + [sep] + Join(rest, sep)
  {
    assert ([p] + rest)[1..] == rest;
  }

  lemma JoinMore(c: char, rest: seq<string>, sep: char)
    requires rest != []
    ensures Join([[c] + rest[0]] + rest[1..], sep) == [c] + Join(rest, sep)
  {
    var more := [[c] + rest[0]] + rest[1..];
    assert more[1..] == rest[1..];
    if |rest| > 1 {
      assert [c] + (rest[0] + [sep] + Join(rest[1..], sep)) == [c] + rest[0] + [sep] + Join(rest[1..], sep);
    }
  }

  /** The block key f"{lo}-{hi}" of a decoder slab. */
  function Key(r: Range): string {
    Print(r.lo) + "-" + Print(r.hi)
  }

  /** The range a block key stands for; None unless it is two numbers joined by one dash. */
  function ParseKey(key: string): Option<Range> {
    var parts := Split(key, '-');
    if |parts| != 2 then None
    else
      var lo := ParseInt(parts[0]);
      var hi := ParseInt(parts[1]);
      if lo.Some? && hi.Some? then Some(Range(lo.value, hi.value)) else None
  }

  predicate Spells(key: string, lo: string, hi: string, r: Range) {
    && key == lo + "-" + hi && '-' !in lo && '-' !in hi
    && ParseInt(lo) == Some(r.lo) && ParseInt(hi) == Some(r.hi)
  }

  /** A key stands for a range exactly if it is two numerals around its only dash. */
  lemma ParseKeyMeans(key: string, r: Range)
    ensures ParseKey(key) == Some(r) <==> exists lo, hi :: Spells(key, lo, hi, r)
  {
    hide ParseInt, Split, Join;
    JoinSplit(key, '-');
    var parts := Split(key, '-');
    if ParseKey(key) == Some(r) {
      TwoParts(parts);
      assert key == parts[0] + "-" + parts[1];
      assert Spells(key, parts[0], parts[1], r);
    }
    if lo, hi :| Spells(key, lo, hi, r) {
      SplitFirst(lo, hi, '-');
      SplitNoSeparator(hi, '-');
      assert lo + ['-'] + hi == key;
    }
  }

  lemma TwoParts(parts: seq<string>)
    ensures |parts| == 2 ==> Join(parts, '-') == parts[0] + "-" + parts[1]
  {
    if |parts| == 2 {
      assert parts[1..] == [parts[1]];
      assert Join(parts[1..], '-') == parts[1];
    }
  }

  /** Digits, perhaps after a plus sign. */
  predicate Numeral(t: string, digits: string) {
    (t == digits || t == "+" + digits) && digits != "" && AllDigits(digits)
  }

  /** An accepted number is the numeral's value: of the text without surrounding blanks and one plus sign. */
  lemma ParseIntMeans(s: string, n: nat)
    ensures ParseInt(s) == Some(n) <==>
      exists t, u :: IsStripped(s, t) && Numeral(t, u) && ToNat(u) == n
  {
    StripMeans(s);
    hide Strip, IsStripped, ToNat;
    var t := Strip(s);
    var u := if t != "" && t[0] == '+' then t[1..] else t;
    assert t == u || t == "+" + u;
    assert u != "" && AllDigits(u) ==> Numeral(t, u);
    forall t', u' | IsStripped(s, t') && Numeral(t', u')
      ensures t' == t && u' == u
    {
      StripUnique(s, t, t');
      assert t'[0] == if t' == u' then u'[0] else '+';
      assert t' == "+" + u' ==> t'[1..] == u';
    }
  }

  /** There is only one way to strip. */
  lemma StripUnique(s: string, t: string, u: string)
    requires IsStripped(s, t) && IsStripped(s, u)
    ensures t == u
  {
    var a, b :| Blanks(a) && Blanks(b) && s == a + t + b;
    var c, d :| Blanks(c) && Blanks(d) && s == c + u + d;
    BlanksOutside(s, a, t, b);
    BlanksOutside(s, c, u, d);
    hide IsSpace, Blanks;
    assert t == s[|a|..|a| + |t|] && u == s[|c|..|c| + |u|];
  }

  lemma BlanksOutside(s: string, a: string, t: string, b: string)
    requires Blanks(a) && Blanks(b) && s == a + t + b
    requires t != "" ==> !IsSpace(t[0]) && !IsSpace(t[|t| - 1])
    ensures forall i | 0 <= i < |s| && (i < |a| || i >= |a| + |t|) :: IsSpace(s[i])
    ensures t != "" ==> !IsSpace(s[|a|]) && !IsSpace(s[|a| + |t| - 1])
  {
    hide IsSpace;
    forall i | 0 <= i < |s| && (i < |a| || i >= |a| + |t|)
      ensures IsSpace(s[i])
    {
      assert s[i] == if i < |a| then a[i] else b[i - |a| - |t|];
    }
  }

  lemma ParseKeyOfKey(r: Range)
    ensures ParseKey(Key(r)) == Some(r)
  {
    ParseIntPrint(r.lo);
    ParseIntPrint(r.hi);
    SplitFirst(Print(r.lo), Print(r.hi), '-');
    SplitNoSeparator(Print(r.hi), '-');
  }
}
