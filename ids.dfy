/**
 * Record identifiers. An id is written either in a 15-character form or in
 * an 18-character form whose last three characters encode, block by block,
 * which of the first fifteen characters are upper-case letters. Every id is
 * normalised to the 18-character form, and equality is equality of that
 * form.
 */
module Ids {
  import opened Common

  /** The 32 symbols the three check characters are drawn from. */
  const Alphabet: string := "ABCDEFGHIJKLMNOPQRSTUVWXYZ012345"

  /** The symbols of the alphabet: the 26 upper-case letters, then the digits 0 to 5. */
  predicate IsSymbol(c: char) {
    ('A' <= c <= 'Z') || ('0' <= c <= '5')
  }

  /** The symbol at position `k` of the alphabet, by arithmetic. */
  function Symbol(k: nat): (c: char)
    requires k < 32
    ensures IsSymbol(c)
  {
    if k < 26 then ('A' as int + k) as char else ('0' as int + k - 26) as char
  }

  lemma AlphabetShape()
    ensures |Alphabet| == 32
    ensures forall k :: 0 <= k < 32 ==> Alphabet[k] == Symbol(k)
  {
  }

  /** A normalised id; `id` is its 18-character form. */
  datatype SalesforceId = SalesforceId(id: string)

  /** The characters Python's `str.strip()` removes (`str.isspace`). */
  predicate IsSpace(c: char) {
    var n := c as int;
    (9 <= n <= 13) || (28 <= n <= 32) || n == 133 || n == 160 || n == 5760
    || (8192 <= n <= 8202) || n == 8232 || n == 8233 || n == 8239 || n == 8287 || n == 12288
  }

  predicate IsUpper(c: char) {
    'A' <= c <= 'Z'
  }

  /** Removes leading white space. */
  function StripStart(s: string): (r: string)
    ensures |r| <= |s| && r == s[|s| - |r|..]
    ensures forall i :: 0 <= i < |s| - |r| ==> IsSpace(s[i])
    ensures r == [] || !IsSpace(r[0])
  {
    if s != [] && IsSpace(s[0]) then StripStart(s[1..]) else s
  }

  /** Removes trailing white space. */
  function StripEnd(s: string): (r: string)
    ensures |r| <= |s| && r == s[..|r|]
    ensures forall i :: |r| <= i < |s| ==> IsSpace(s[i])
    ensures r == [] || !IsSpace(r[|r| - 1])
  {
    if s != [] && IsSpace(s[|s| - 1]) then StripEnd(s[..|s| - 1]) else s
  }

  /** Python's `str.strip()`. */
  function Strip(s: string): (r: string)
    ensures |r| <= |s|
    ensures r == [] || (!IsSpace(r[0]) && !IsSpace(r[|r| - 1]))
  {
    StripEnd(StripStart(s))
  }

  /** A string with no white space at either end is left as it is by `Strip`. */
  lemma StripUnchanged(s: string)
    requires s == [] || (!IsSpace(s[0]) && !IsSpace(s[|s| - 1]))
    ensures Strip(s) == s
  {
    assert StripStart(s) == s;
  }

  function Pow2(n: nat): (p: nat)
    ensures p >= 1
  {
    if n == 0 then 1 else 2 * Pow2(n - 1)
  }

  /**
   * The case mask of the first `n` characters of a block: bit `j` is set
   * exactly when character `j` is an upper-case letter.
   */
  function CaseBits(block: string, n: nat): (m: nat)
    requires n <= |block|
    ensures m < Pow2(n)
  {
    if n == 0 then 0
    else CaseBits(block, n - 1) + (if IsUpper(block[n - 1]) then Pow2(n - 1) else 0)
  }

  /** The check character of the 5-character block starting at `5 * i`. */
  function CheckChar(s: string, i: nat): (c: char)
    requires |s| == 15 && i < 3
    ensures IsSymbol(c)
  {
    assert Pow2(5) == 32;
    Symbol(CaseBits(s[5 * i .. 5 * i + 5], 5))
  }

  /** The three check characters appended to a 15-character id. */
  function Suffix(s: string): (r: string)
    requires |s| == 15
    ensures |r| == 3
    ensures forall i :: 0 <= i < 3 ==> r[i] == CheckChar(s, i)
  {
    [CheckChar(s, 0), CheckChar(s, 1), CheckChar(s, 2)]
  }

  /**
   * `SalesforceId(idstr)`: strip white space, extend a 15-character id by
   * its check characters, keep an 18-character id, reject any other length.
   */
  function FromString(idstr: string): (r: Result<SalesforceId, ValueError>)
    ensures r.Ok? <==> |Strip(idstr)| == 15 || |Strip(idstr)| == 18
    ensures r.Err? ==> r.error == InvalidId(idstr)
    ensures r.Ok? ==> |r.value.id| == 18 && r.value.id[..|Strip(idstr)|] == Strip(idstr)
    ensures r.Ok? && |Strip(idstr)| == 15 ==> r.value.id[15..] == Suffix(Strip(idstr))
  {
    var s := Strip(idstr);
    if |s| == 15 then Ok(SalesforceId(s + Suffix(s)))
    else if |s| == 18 then Ok(SalesforceId(s))
    else Err(InvalidId(idstr))
  }

  /** `SalesforceId.__eq__` against a string: the string is normalised first, which may raise. */
  function EqualsString(a: SalesforceId, other: string): (r: Result<bool, ValueError>)
    ensures r.Ok? <==> FromString(other).Ok?
    ensures r.Ok? ==> (r.value <==> a == FromString(other).value)
  {
    match FromString(other)
    case Ok(b) => Ok(a.id == b.id)
    case Err(e) => Err(e)
  }

  /**
   * The constructor as the source writes it: strip, then branch on the
   * length; the check characters are accumulated by two nested loops
   * (`CheckSuffix` and `BlockMask`).
   */
  method New(idstr: string) returns (r: Result<SalesforceId, ValueError>)
    ensures r == FromString(idstr)
  {
    var s := Strip(idstr);
    if |s| == 15 {
      var suffix := CheckSuffix(s);
      r := Ok(SalesforceId(s + suffix));
    } else if |s| == 18 {
      r := Ok(SalesforceId(s));
    } else {
      r := Err(InvalidId(idstr));
    }
  }

  /** The outer loop of the constructor: one check character per 5-character block. */
  method CheckSuffix(s: string) returns (suffix: string)
    requires |s| == 15
    ensures suffix == Suffix(s)
  {
    suffix := "";
    for i := 0 to 3
      invariant |suffix| == i
      invariant forall k :: 0 <= k < i ==> suffix[k] == CheckChar(s, k)
    {
      var baseTwo := BlockMask(s[5 * i .. 5 * i + 5]);
      AlphabetShape();
      suffix := suffix + [Alphabet[baseTwo]];
    }
  }

  /** The inner loop of the constructor: `baseTwo += 1 << j` for each upper-case character `j`. */
  method BlockMask(block: string) returns (baseTwo: nat)
    requires |block| == 5
    ensures baseTwo == CaseBits(block, 5) && baseTwo < 32
  {
    baseTwo := 0;
    var bit := 1;
    for j := 0 to 5
      invariant baseTwo == CaseBits(block, j)
      invariant bit == Pow2(j)
    {
      if IsUpper(block[j]) {
        baseTwo := baseTwo + bit;
      }
      bit := 2 * bit;
    }
    assert Pow2(5) == 32;
  }

  /** Two blocks with the same case mask have upper-case letters at the same places. */
  lemma {:induction false} CaseBitsInjective(a: string, b: string, n: nat)
    requires n <= |a| && n <= |b|
    requires CaseBits(a, n) == CaseBits(b, n)
    ensures forall j :: 0 <= j < n ==> (IsUpper(a[j]) <==> IsUpper(b[j]))
  {
    if n > 0 {
      var lowA, lowB := CaseBits(a, n - 1), CaseBits(b, n - 1);
      if IsUpper(a[n - 1]) != IsUpper(b[n - 1]) {
        // the one with bit n-1 set is at least Pow2(n-1), the other below it
        assert false;
      }
      CaseBitsInjective(a, b, n - 1);
    }
  }

  lemma SymbolDistinct(i: nat, j: nat)
    requires i < 32 && j < 32 && Symbol(i) == Symbol(j)
    ensures i == j
  {
  }

  /**
   * The check characters determine the case of every one of the fifteen
   * characters: two 15-character ids with equal suffixes have upper-case
   * letters at exactly the same positions.
   */
  lemma SuffixDeterminesCase(a: string, b: string)
    requires |a| == 15 && |b| == 15
    requires Suffix(a) == Suffix(b)
    ensures forall k :: 0 <= k < 15 ==> (IsUpper(a[k]) <==> IsUpper(b[k]))
  {
    forall k | 0 <= k < 15 ensures IsUpper(a[k]) <==> IsUpper(b[k]) {
      BlockCase(a, b, k / 5, k % 5);
    }
  }

  /** One character of the case lemma: the equal check characters of its block decide it. */
  lemma BlockCase(a: string, b: string, i: nat, j: nat)
    requires |a| == 15 && |b| == 15 && i < 3 && j < 5
    requires CheckChar(a, i) == CheckChar(b, i)
    ensures IsUpper(a[5 * i + j]) <==> IsUpper(b[5 * i + j])
  {
    var ba, bb := a[5 * i .. 5 * i + 5], b[5 * i .. 5 * i + 5];
    assert Pow2(5) == 32;
    SymbolDistinct(CaseBits(ba, 5), CaseBits(bb, 5));
    CaseBitsInjective(ba, bb, 5);
    assert ba[j] == a[5 * i + j] && bb[j] == b[5 * i + j];
  }

  /** ASCII lower-casing, as a case-insensitive store compares ids. */
  function Lower(c: char): char {
    if IsUpper(c) then (c as int + 32) as char else c
  }

  function LowerAll(s: string): (r: string)
    ensures |r| == |s| && forall i :: 0 <= i < |s| ==> r[i] == Lower(s[i])
  {
    seq(|s|, i requires 0 <= i < |s| => Lower(s[i]))
  }

  /** Two different strings of the same length differ at some position. */
  lemma DifferAt(a: string, b: string) returns (k: nat)
    requires |a| == |b| && a != b
    ensures k < |a| && a[k] != b[k]
  {
    k := 0;
    while k < |a| && a[k] == b[k]
      invariant k <= |a| && a[..k] == b[..k]
    {
      k := k + 1;
    }
  }

  /** Two characters that differ but lower-case alike differ in case. */
  lemma CaseOnlyDifference(x: char, y: char)
    requires x != y && Lower(x) == Lower(y)
    ensures IsUpper(x) != IsUpper(y)
  {
  }

  /** Lower-casing keeps distinct symbols of the alphabet distinct. */
  lemma LowerKeepsSymbolsApart(x: char, y: char)
    requires IsSymbol(x) && IsSymbol(y) && x != y
    ensures Lower(x) != Lower(y)
  {
  }

  /** Two ids that differ only in case have a block whose check characters differ. */
  lemma CaseDifferenceInBlock(a: string, b: string) returns (i: nat)
    requires |a| == 15 && |b| == 15
    requires a != b && LowerAll(a) == LowerAll(b)
    ensures i < 3 && CheckChar(a, i) != CheckChar(b, i)
  {
    var k := DifferAt(a, b);
    assert LowerAll(a)[k] == LowerAll(b)[k];
    CaseOnlyDifference(a[k], b[k]);
    i := k / 5;
    if CheckChar(a, i) == CheckChar(b, i) {
      BlockCase(a, b, i, k % 5);
      assert false;
    }
  }

  /**
   * The purpose of the 18-character form: two different 15-character ids that
   * differ only in letter case still differ after lower-casing once extended
   * by their check characters (`FromString` gives `s + Suffix(s)` for a
   * stripped 15-character `s`).
   */
  lemma LongFormIsCaseInsensitivelyUnique(a: string, b: string)
    requires |a| == 15 && |b| == 15
    requires a != b && LowerAll(a) == LowerAll(b)
    ensures LowerAll(a + Suffix(a)) != LowerAll(b + Suffix(b))
  {
    var i := CaseDifferenceInBlock(a, b);
    var la, lb := a + Suffix(a), b + Suffix(b);
    assert la[15 + i] == CheckChar(a, i);
    assert lb[15 + i] == CheckChar(b, i);
    LowerKeepsSymbolsApart(la[15 + i], lb[15 + i]);
    assert LowerAll(la)[15 + i] != LowerAll(lb)[15 + i];
  }

  /**
   * An id equals both of its textual forms: the 15-character string it was
   * built from and its own 18-character form.
   */
  lemma EqualToBothForms(s: string)
    requires |Strip(s)| == 15
    ensures FromString(s).Ok?
    ensures EqualsString(FromString(s).value, s) == Ok(true)
    ensures EqualsString(FromString(s).value, FromString(s).value.id) == Ok(true)
  {
    NormalisedIsFixedPoint(s);
  }

  /** Normalising an already normalised id changes nothing. */
  lemma NormalisedIsFixedPoint(s: string)
    requires FromString(s).Ok?
    ensures FromString(FromString(s).value.id) == FromString(s)
  {
    var t, long := Strip(s), FromString(s).value.id;
    if |t| == 15 {
      assert long == t + Suffix(t);
      assert long[0] == t[0];
      assert IsSymbol(long[17]);
      StripUnchanged(long);
    } else {
      assert long == t;
      StripUnchanged(t);
    }
  }
}
