/** The parts of Go's `strings` and `strconv` packages that the model relies on,
    with Go's edge cases (a missing separator, empty pieces, overflow) spelled out. */
module GoStrings {
  import opened Wrappers

  /** strings.HasPrefix */
  predicate HasPrefix(s: string, prefix: string)
  {
    |prefix| <= |s| && s[..|prefix|] == prefix
  }

  /** strings.TrimPrefix */
  function TrimPrefix(s: string, prefix: string): (r: string)
    ensures HasPrefix(s, prefix) ==> s == prefix + r
    ensures !HasPrefix(s, prefix) ==> r == s
  {
    if HasPrefix(s, prefix) then s[|prefix|..] else s
  }

  /** Appending keeps a prefix. */
  lemma HasPrefixAppend(s: string, t: string, prefix: string)
    requires HasPrefix(s, prefix)
    ensures HasPrefix(s + t, prefix)
  {
    SliceOfConcat(s, t, |prefix|);
  }

  /** Position of the first `c` in `s`, or `|s|` when there is none. */
  function IndexOf(s: string, c: char): (i: nat)
    ensures i <= |s|
    ensures i < |s| ==> s[i] == c
    ensures forall j | 0 <= j < i :: s[j] != c
    ensures i == |s| <==> c !in s
  {
    if s == [] then 0 else if s[0] == c then 0 else 1 + IndexOf(s[1..], c)
  }

  lemma IndexOfAfterPrefix(a: string, c: char, b: string)
    requires c !in a
    ensures IndexOf(a + [c] + b, c) == |a|
  {
    var s := a + [c] + b;
    assert s[|a|] == c;
    assert forall j | 0 <= j < |a| :: s[j] == a[j];
  }

  /** Concatenation regroups freely; stated once, so proofs can use it
      without the solver rediscovering it by extensionality. */
  lemma ConcatAssoc<T>(x: seq<T>, y: seq<T>, z: seq<T>)
    ensures x + (y + z) == (x + y) + z
  {
  }

  /** Cutting a concatenation inside its first part. */
  lemma SliceOfConcat<T>(a: seq<T>, b: seq<T>, k: nat)
    requires k <= |a|
    ensures (a + b)[..k] == a[..k]
    ensures (a + b)[k..] == a[k..] + b
  {
  }

  /** strings.Split with a one-character separator: the result is never
      empty, and a string without the separator splits into `[s]`. */
  function Split(s: string, sep: char): (parts: seq<string>)
    ensures |parts| >= 1
    ensures forall k | 0 <= k < |parts| :: sep !in parts[k]
    decreases |s|
  {
    var i := IndexOf(s, sep);
    if i == |s| then [s] else [s[..i]] + Split(s[i + 1..], sep)
  }

  /** strings.Join with a one-character separator. */
  function Join(parts: seq<string>, sep: char): string
  {
    if |parts| == 0 then ""
    else if |parts| == 1 then parts[0]
    else parts[0] + [sep] + Join(parts[1..], sep)
  }

  /** Splitting and joining again gives back the original text. */
  lemma {:induction false} JoinSplit(s: string, sep: char)
    ensures Join(Split(s, sep), sep) == s
    decreases |s|
  {
    var i := IndexOf(s, sep);
    if i < |s| {
      var rest := Split(s[i + 1..], sep);
      JoinSplit(s[i + 1..], sep);
      var parts := [s[..i]] + rest;
      assert Split(s, sep) == parts;
      assert parts[1..] == rest;
      assert Join(parts, sep) == s[..i] + [sep] + Join(rest, sep);
      assert s == s[..i] + [sep] + s[i + 1..];
    }
  }

  /** Joining pieces free of the separator and splitting again gives back the pieces. */
  lemma {:induction false} SplitJoin(parts: seq<string>, sep: char)
    requires |parts| >= 1
    requires forall k | 0 <= k < |parts| :: sep !in parts[k]
    ensures Split(Join(parts, sep), sep) == parts
  {
    if |parts| > 1 {
      var head, rest := parts[0], parts[1..];
      assert sep !in head;
      var tail := Join(rest, sep);
      var s := head + [sep] + tail;
      assert Join(parts, sep) == s;
      IndexOfAfterPrefix(head, sep, tail);
      assert s[..|head|] == head;
      assert s[|head| + 1..] == tail;
      SplitJoin(rest, sep);
      assert Split(s, sep) == [head] + Split(tail, sep);
      assert parts == [head] + rest;
    }
  }

  /** A character other than the separator occurs in a join only through a part. */
  lemma {:induction false} JoinAvoids(parts: seq<string>, sep: char, c: char)
    requires c != sep && forall k | 0 <= k < |parts| :: c !in parts[k]
    ensures c !in Join(parts, sep)
  {
    if |parts| > 1 {
      JoinAvoids(parts[1..], sep, c);
    }
  }

  /** Splitting at a first separator peels off the text before it. */
  lemma SplitAtFirst(a: string, sep: char, b: string)
    requires sep !in a
    ensures Split(a + [sep] + b, sep) == [a] + Split(b, sep)
  {
    var s := a + [sep] + b;
    IndexOfAfterPrefix(a, sep, b);
    assert s[..|a|] == a;
    assert s[|a| + 1..] == b;
  }

  /** The prefix one longer than s[..i] ends in s[i]. */
  lemma PrefixSnoc<T>(s: seq<T>, i: nat)
    requires i < |s|
    ensures s[..i + 1] == s[..i] + [s[i]]
  {
  }

  /** Two pieces joined by the separator split back into the two. */
  lemma SplitTwo(a: string, b: string, sep: char)
    requires sep !in a && sep !in b
    ensures Split(a + [sep] + b, sep) == [a, b]
  {
    SplitAtFirst(a, sep, b);
    assert Split(b, sep) == [b];
  }

  /** Three pieces joined by the separator split back into the three. */
  lemma SplitThree(a: string, b: string, c: string, sep: char)
    requires sep !in a && sep !in b && sep !in c
    ensures Split(a + [sep] + (b + [sep] + c), sep) == [a, b, c]
  {
    SplitAtFirst(a, sep, b + [sep] + c);
    SplitAtFirst(b, sep, c);
    assert Split(c, sep) == [c];
  }

  /** A string without the separator splits into itself alone. */
  lemma SplitNone(s: string, sep: char)
    requires sep !in s
    ensures Split(s, sep) == [s]
  {
  }

  /** The first piece of a split is the text before the first separator. */
  lemma SplitFirst(s: string, sep: char)
    ensures Split(s, sep)[0] == s[..IndexOf(s, sep)]
  {
  }

  /** When the separator occurs, the second piece is the first piece of what follows it. */
  lemma SplitSecond(s: string, sep: char)
    requires sep in s
    ensures |Split(s, sep)| >= 2
    ensures Split(s, sep)[1] == Split(s[IndexOf(s, sep) + 1..], sep)[0]
  {
  }

  predicate IsDigit(c: char)
  {
    '0' <= c <= '9'
  }

  predicate AllDigits(s: string)
  {
    forall k | 0 <= k < |s| :: IsDigit(s[k])
  }

  /** A non-empty string of ASCII decimal digits. */
  predicate IsDecimal(s: string)
  {
    |s| > 0 && AllDigits(s)
  }

  function DigitValue(c: char): (d: nat)
    requires IsDigit(c)
    ensures d < 10
  {
    (c as int) - ('0' as int)
  }

  function DigitChar(d: nat): (c: char)
    requires d < 10
    ensures IsDigit(c) && DigitValue(c) == d
  {
    (('0' as int) + d) as char
  }

  /** The value of a digit string read in base 10 (leading zeros allowed). */
  function DecimalValue(s: string): nat
    requires AllDigits(s)
  {
    if s == [] then 0 else 10 * DecimalValue(s[..|s| - 1]) + DigitValue(s[|s| - 1])
  }

  /** The decimal form of a natural number, as fmt's `%d` and strconv.Itoa print it. */
  function NatToString(n: nat): (s: string)
    ensures IsDecimal(s)
  {
    if n < 10 then [DigitChar(n)] else NatToString(n / 10) + [DigitChar(n % 10)]
  }

  /** Printing in decimal and reading back gives the number. */
  lemma {:induction false} DecimalRoundTrip(n: nat)
    ensures DecimalValue(NatToString(n)) == n
  {
    var s := NatToString(n);
    if n >= 10 {
      DecimalRoundTrip(n / 10);
      assert s[..|s| - 1] == NatToString(n / 10);
    }
  }

  /** fmt's `%d` of an int: a minus sign for negative numbers. */
  function IntToString(n: int): string
  {
    if n < 0 then "-" + NatToString(-n) else NatToString(n)
  }

  const MaxInt64: int := 0x7fff_ffff_ffff_ffff
  const MinInt64: int := -0x8000_0000_0000_0000
  const MaxUint64: int := 0xffff_ffff_ffff_ffff

  function ClampInt64(v: int): int
  {
    if v > MaxInt64 then MaxInt64 else if v < MinInt64 then MinInt64 else v
  }

  /** The value strconv.Atoi returns (every caller in the model drops its error):
      an optionally signed digit string gives its value, clamped to the int64
      range on overflow; any other text gives 0. */
  function Atoi(s: string): (v: int)
    ensures MinInt64 <= v <= MaxInt64
  {
    if |s| > 0 && (s[0] == '+' || s[0] == '-') && IsDecimal(s[1..]) then
      var magnitude: int := DecimalValue(s[1..]);
      ClampInt64(if s[0] == '-' then -magnitude else magnitude)
    else if IsDecimal(s) then ClampInt64(DecimalValue(s))
    else 0
  }

  /** strconv.Atoi reads back what IntToString prints, for every int64. */
  lemma AtoiIntToString(n: int)
    requires MinInt64 <= n <= MaxInt64
    ensures Atoi(IntToString(n)) == n
  {
    if n < 0 {
      DecimalRoundTrip(-n);
      AtoiNegative(NatToString(-n));
    } else {
      DecimalRoundTrip(n);
      AtoiDecimal(NatToString(n));
    }
  }

  lemma AtoiDecimal(s: string)
    requires IsDecimal(s)
    ensures Atoi(s) == ClampInt64(DecimalValue(s))
  {
    assert IsDigit(s[0]);
  }

  lemma AtoiNegative(s: string)
    requires IsDecimal(s)
    ensures Atoi("-" + s) == ClampInt64(-(DecimalValue(s) as int))
  {
    assert ("-" + s)[1..] == s;
  }

  /** strconv.Atoi reads back a natural number printed in decimal. */
  lemma AtoiNatToString(n: nat)
    requires n <= MaxInt64
    ensures Atoi(NatToString(n)) == n
  {
    AtoiIntToString(n);
  }

  /** strconv.ParseUint(s, 10, 64): a digit string (no sign, no underscores)
      whose value fits in 64 bits; anything else is an error. */
  function ParseUint64(s: string): (r: Option<nat>)
    ensures r.Some? ==> r.value <= MaxUint64
  {
    if IsDecimal(s) && DecimalValue(s) <= MaxUint64 then Some(DecimalValue(s)) else None
  }

  /** unicode.IsSpace, the test strings.TrimSpace uses. */
  predicate IsSpace(c: char)
  {
    || '\U{0009}' <= c <= '\U{000D}' || c == ' ' || c == '\U{0085}' || c == '\U{00A0}'
    || c == '\U{1680}' || '\U{2000}' <= c <= '\U{200A}' || c == '\U{2028}' || c == '\U{2029}'
    || c == '\U{202F}' || c == '\U{205F}' || c == '\U{3000}'
  }

  function TrimLeftSpace(s: string): (r: string)
    ensures r == [] || !IsSpace(r[0])
    ensures |r| <= |s| && r == s[|s| - |r|..]
  {
    if s != [] && IsSpace(s[0]) then TrimLeftSpace(s[1..]) else s
  }

  function TrimRightSpace(s: string): (r: string)
    ensures r == [] || !IsSpace(r[|r| - 1])
    ensures |r| <= |s| && r == s[..|r|]
  {
    if s != [] && IsSpace(s[|s| - 1]) then TrimRightSpace(s[..|s| - 1]) else s
  }

  /** strings.TrimSpace: the text with leading and trailing white space removed. */
  function TrimSpace(s: string): (r: string)
    ensures r == [] || (!IsSpace(r[0]) && !IsSpace(r[|r| - 1]))
  {
    var l := TrimLeftSpace(s);
    var r := TrimRightSpace(l);
    assert r != [] ==> r[0] == l[0];
    r
  }

  /** Text that neither starts nor ends with white space is its own trim,
      also after one leading space. */
  lemma TrimSpaceUnpadded(t: string)
    requires t != [] && !IsSpace(t[0]) && !IsSpace(t[|t| - 1])
    ensures TrimSpace(t) == t && TrimSpace(" " + t) == t
  {
    assert TrimLeftSpace(t) == t;
    assert TrimRightSpace(t) == t;
    assert (" " + t)[1..] == t;
    assert TrimLeftSpace(" " + t) == t;
  }

  /** The same, for an optional single leading space. */
  lemma TrimSpaceOptionalPad(pad: string, t: string)
    requires pad == "" || pad == " "
    requires t != [] && !IsSpace(t[0]) && !IsSpace(t[|t| - 1])
    ensures TrimSpace(pad + t) == t
  {
    TrimSpaceUnpadded(t);
    if pad == "" {
      assert pad + t == t;
    }
  }

  /** Go's simple lower-case mapping, for the runes that can lower into ASCII:
      the ASCII capitals, U+0130 (dotted capital I) and U+212A (Kelvin sign).
      Every other rune is left as it is, so comparisons of the result with an
      ASCII word agree with strings.ToLower. */
  function LowerRune(c: char): char
  {
    if 'A' <= c <= 'Z' then ((c as int) + 32) as char
    else if c == '\U{0130}' then 'i'
    else if c == '\U{212A}' then 'k'
    else c
  }

  function ToLower(s: string): (r: string)
    ensures |r| == |s|
    ensures forall k | 0 <= k < |s| :: r[k] == LowerRune(s[k])
  {
    seq(|s|, k requires 0 <= k < |s| => LowerRune(s[k]))
  }

  /** Lower-casing works character by character, so it distributes over concatenation. */
  lemma ToLowerConcat(a: string, b: string)
    ensures ToLower(a + b) == ToLower(a) + ToLower(b)
  {
    assert forall k | 0 <= k < |a| :: (a + b)[k] == a[k];
  }
}
