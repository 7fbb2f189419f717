/**
 * The pieces of the Java platform the adapters lean on, written out so that their
 * edge cases are part of the model: 32-bit `int` arithmetic, `String.trim`,
 * `String.split` with a one-character separator, `Integer.parseInt`,
 * `Integer.toString`, `Arrays.toString` and `String.toUpperCase` on ASCII text.
 */
module JavaLang {
  import opened Wrappers

  const INT_MIN: int := -0x8000_0000
  const INT_MAX: int := 0x7fff_ffff

  /** A Java `int` (or the value of a non-null `Integer`). */
  type Int32 = x: int | INT_MIN <= x <= INT_MAX

  /** Java `int` arithmetic: the exact result reduced into the two's-complement range. */
  function Wrap32(x: int): (r: Int32)
    ensures INT_MIN <= x <= INT_MAX ==> r == x
    ensures (x - r) % 0x1_0000_0000 == 0
  {
    var m := x % 0x1_0000_0000;
    if m <= INT_MAX then m else m - 0x1_0000_0000
  }

  function Min(a: int, b: int): int { if a <= b then a else b }

  function Max(a: int, b: int): int { if a <= b then b else a }

  // ---------------------------------------------------------------------------
  // String.trim: strips every character up to and including U+0020 at both ends.

  /** Number of characters `trim` removes at the front. */
  function LeadingBlanks(s: string): (k: nat)
    ensures k <= |s|
    ensures forall i :: 0 <= i < k ==> s[i] <= ' '
    ensures k < |s| ==> s[k] > ' '
  {
    if |s| > 0 && s[0] <= ' ' then 1 + LeadingBlanks(s[1..]) else 0
  }

  /** Index just past the last character `trim` keeps (0 when all are blank). */
  function KeptEnd(s: string): (k: nat)
    ensures k <= |s|
    ensures forall i :: k <= i < |s| ==> s[i] <= ' '
    ensures k > 0 ==> s[k - 1] > ' '
  {
    if |s| > 0 && s[|s| - 1] <= ' ' then KeptEnd(s[..|s| - 1]) else |s|
  }

  /** `s.trim()`: the longest middle part of `s` that neither starts nor ends with a blank. */
  function Trim(s: string): (r: string)
    ensures r == [] || (r[0] > ' ' && r[|r| - 1] > ' ')
    ensures LeadingBlanks(s) + |r| <= |s|
    ensures r == s[LeadingBlanks(s)..LeadingBlanks(s) + |r|]
    ensures forall i :: LeadingBlanks(s) + |r| <= i < |s| ==> s[i] <= ' '
  {
    var st := LeadingBlanks(s);
    if st == |s| then [] else s[st..KeptEnd(s)]
  }

  /** Text that has nothing to trim is returned as it is. */
  lemma TrimUnpadded(s: string)
    requires s == [] || (s[0] > ' ' && s[|s| - 1] > ' ')
    ensures Trim(s) == s
  {
    if s != [] {
      assert LeadingBlanks(s) == 0;
      assert KeptEnd(s) == |s|;
    }
  }

  /** Trimming twice is trimming once. */
  lemma TrimIdempotent(s: string)
    ensures Trim(Trim(s)) == Trim(s)
  {
    TrimUnpadded(Trim(s));
  }

  // ---------------------------------------------------------------------------
  // Prefix, suffix and substring tests.

  predicate StartsWith(s: string, prefix: string)
  {
    |prefix| <= |s| && s[..|prefix|] == prefix
  }

  predicate EndsWith(s: string, suffix: string)
  {
    |suffix| <= |s| && s[|s| - |suffix|..] == suffix
  }

  /** `s.contains(part)`. */
  predicate Contains(s: string, part: string)
    decreases |s|
  {
    StartsWith(s, part) || (|s| > 0 && Contains(s[1..], part))
  }

  // ---------------------------------------------------------------------------
  // String.split with a one-character separator that is not a regex metacharacter.

  /** Index of the first `c` in `s`, or `|s|` when there is none. */
  function IndexOf(s: string, c: char): (k: nat)
    ensures k <= |s|
    ensures k < |s| ==> s[k] == c
    ensures forall i :: 0 <= i < k ==> s[i] != c
  {
    if |s| == 0 || s[0] == c then 0 else 1 + IndexOf(s[1..], c)
  }

  /** All the pieces between separators, empty pieces included. */
  function Pieces(s: string, sep: char): (r: seq<string>)
    ensures |r| > 0
    decreases |s|
  {
    var k := IndexOf(s, sep);
    if k == |s| then [s] else [s[..k]] + Pieces(s[k + 1..], sep)
  }

  /** The parts written one after the other with `sep` between neighbours. */
  function Join(parts: seq<string>, sep: string): string
  {
    if |parts| == 0 then ""
    else if |parts| == 1 then parts[0]
    else parts[0] + sep + Join(parts[1..], sep)
  }

  /** Drops empty strings from the end of a split result, as `split` with limit 0 does. */
  function DropTrailingEmpty(parts: seq<string>): (r: seq<string>)
    ensures |r| <= |parts| && r == parts[..|r|]
    ensures r == [] || r[|r| - 1] != []
    ensures forall i :: |r| <= i < |parts| ==> parts[i] == []
  {
    if |parts| > 0 && parts[|parts| - 1] == [] then DropTrailingEmpty(parts[..|parts| - 1]) else parts
  }

  /** `s.split(String.valueOf(sep))`: the whole string when the separator never occurs,
      otherwise the pieces less the trailing empty ones. */
  function Split(s: string, sep: char): seq<string>
  {
    if sep !in s then [s] else DropTrailingEmpty(Pieces(s, sep))
  }

  /** Splitting loses nothing: the pieces, joined back with the separator, are the text. */
  lemma {:induction false} JoinPieces(s: string, sep: char)
    ensures Join(Pieces(s, sep), [sep]) == s
    ensures forall p :: p in Pieces(s, sep) ==> sep !in p
    decreases |s|
  {
    var k := IndexOf(s, sep);
    if k == |s| {
      assert sep !in s;
    } else {
      JoinPieces(s[k + 1..], sep);
      assert s == s[..k] + [sep] + s[k + 1..];
    }
  }

  /** Pieces of a join of separator-free parts are those parts. */
  lemma {:induction false} PiecesOfJoin(parts: seq<string>, sep: char)
    requires |parts| > 0
    requires forall p :: p in parts ==> sep !in p
    ensures Pieces(Join(parts, [sep]), sep) == parts
    decreases |parts|
  {
    var s := Join(parts, [sep]);
    if |parts| == 1 {
      assert parts[0] in parts;
      assert sep !in s;
      assert IndexOf(s, sep) == |s|;
    } else {
      var p0 := parts[0];
      var rest := Join(parts[1..], [sep]);
      assert s == p0 + [sep] + rest;
      assert s[|p0|] == sep;
      assert p0 in parts;
      assert forall i :: 0 <= i < |p0| ==> s[i] == p0[i] && s[i] != sep;
      var k := IndexOf(s, sep);
      assert k == |p0|;
      assert s[..k] == p0;
      assert s[k + 1..] == rest;
      PiecesOfJoin(parts[1..], sep);
    }
  }

  /** `split` undoes a join of non-empty, separator-free parts. */
  lemma SplitOfJoin(parts: seq<string>, sep: char)
    requires |parts| > 0
    requires forall p :: p in parts ==> p != [] && sep !in p
    ensures Split(Join(parts, [sep]), sep) == parts
  {
    var s := Join(parts, [sep]);
    PiecesOfJoin(parts, sep);
    if |parts| > 1 {
      assert s == parts[0] + [sep] + Join(parts[1..], [sep]);
      assert s[|parts[0]|] == sep;
      assert parts[|parts| - 1] in parts;
    }
  }

  // ---------------------------------------------------------------------------
  // Integer.parseInt and Integer.toString on ASCII decimal text.

  predicate IsDigit(c: char) { '0' <= c <= '9' }

  predicate AllDigits(ds: string) { forall i :: 0 <= i < |ds| ==> IsDigit(ds[i]) }

  /** The value of a string of decimal digits, most significant first. */
  function DigitsValue(ds: string): nat
    requires AllDigits(ds)
  {
    if |ds| == 0 then 0
    else 10 * DigitsValue(ds[..|ds| - 1]) + (ds[|ds| - 1] as int - '0' as int)
  }

  /** `Integer.parseInt(s)`: an optional sign, at least one digit, and a value that fits
      an `int`; `None` stands for the `NumberFormatException`. */
  function ParseInt(s: string): (r: Option<Int32>)
    ensures r.Some? ==> |s| > 0
  {
    var signed := |s| > 0 && (s[0] == '-' || s[0] == '+');
    var ds := if signed then s[1..] else s;
    if |ds| == 0 || !AllDigits(ds) then None
    else
      var v: int := if signed && s[0] == '-' then -(DigitsValue(ds) as int) else DigitsValue(ds);
      if INT_MIN <= v <= INT_MAX then Some(v) else None
  }

  /** The decimal digits of `n` without leading zeros. */
  function Decimal(n: nat): (ds: string)
    ensures |ds| > 0 && AllDigits(ds)
  {
    if n < 10 then [('0' as int + n) as char]
    else Decimal(n / 10) + [('0' as int + n % 10) as char]
  }

  /** `Integer.toString(n)` (also `String.valueOf(n)`). */
  function IntToString(n: int): string
  {
    if n < 0 then "-" + Decimal(-n) else Decimal(n)
  }

  lemma {:induction false} DecimalValue(n: nat)
    ensures DigitsValue(Decimal(n)) == n
  {
    if n >= 10 {
      var ds := Decimal(n);
      assert ds[..|ds| - 1] == Decimal(n / 10);
      DecimalValue(n / 10);
    }
  }

  /** `parseInt` reads back what `toString` writes, for every `int`. */
  lemma ParseIntToString(n: Int32)
    ensures ParseInt(IntToString(n)) == Some(n)
  {
    if n < 0 {
      var m: nat := -(n as int);
      var s := IntToString(n);
      assert s[1..] == Decimal(m);
      DecimalValue(m);
    } else {
      var ds := Decimal(n);
      assert IsDigit(ds[0]);
      DecimalValue(n);
    }
  }

  /** `Arrays.toString` of a string array: "[a, b, c]". */
  function ArrayToString(parts: seq<string>): string
  {
    "[" + Join(parts, ", ") + "]"
  }

  // ---------------------------------------------------------------------------
  // String.toUpperCase, for the ASCII letters.

  function UpperChar(c: char): char
  {
    if 'a' <= c <= 'z' then (c as int - 32) as char else c
  }

  function ToUpperCase(s: string): (r: string)
    ensures |r| == |s|
    ensures forall i :: 0 <= i < |s| ==> r[i] == UpperChar(s[i])
  {
    seq(|s|, i requires 0 <= i < |s| => UpperChar(s[i]))
  }
}
