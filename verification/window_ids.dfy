/**
 * The identifiers the window manager mints: `"WINDOW_"` followed by the decimal
 * value of its counter, as Swift's string interpolation of an unsigned integer
 * writes it (no sign, no leading zeros).
 */
module WindowIds {
  import opened Options

  const Prefix: string := "WINDOW_"

  predicate IsDigit(c: char) {
    '0' <= c <= '9'
  }

  predicate AllDigits(s: string) {
    forall i :: 0 <= i < |s| ==> IsDigit(s[i])
  }

  function DigitChar(d: nat): (c: char)
    requires d < 10
    ensures IsDigit(c) && c as int - '0' as int == d
  {
    ('0' as int + d) as char
  }

  function DigitValue(c: char): nat
    requires IsDigit(c)
  {
    c as int - '0' as int
  }

  /** The canonical decimal form of `n`: one or more digits, no leading zero. */
  function Decimal(n: nat): (s: string)
    ensures |s| >= 1 && AllDigits(s)
    ensures s[0] == '0' ==> s == "0"
    ensures n < 10 <==> |s| == 1
    decreases n
  {
    if n < 10 then [DigitChar(n)] else Decimal(n / 10) + [DigitChar(n % 10)]
  }

  /** The value a string of digits denotes, most significant digit first. */
  function DecimalValue(s: string): nat
    requires AllDigits(s)
  {
    if s == [] then 0 else DecimalValue(s[..|s| - 1]) * 10 + DigitValue(s[|s| - 1])
  }

  /** Reading back the decimal form gives the number that was written. */
  lemma {:induction false} DecimalRoundTrip(n: nat)
    ensures DecimalValue(Decimal(n)) == n
  {
    if n >= 10 {
      var s := Decimal(n);
      assert s[..|s| - 1] == Decimal(n / 10);
      DecimalRoundTrip(n / 10);
    }
  }

  /** Two numbers have the same decimal form exactly when they are equal. */
  lemma DecimalInjective(a: nat, b: nat)
    ensures Decimal(a) == Decimal(b) <==> a == b
  {
    if Decimal(a) == Decimal(b) {
      DecimalRoundTrip(a);
      DecimalRoundTrip(b);
    }
  }

  /** The identifier `newId` formats from counter value `n`. */
  function MintedId(n: nat): string {
    Prefix + Decimal(n)
  }

  /** The counter value a minted identifier was formatted from, if `s` has that form. */
  function MintedIndex(s: string): Option<nat> {
    if |s| > |Prefix| && s[..|Prefix|] == Prefix && AllDigits(s[|Prefix|..])
    then Some(DecimalValue(s[|Prefix|..]))
    else None
  }

  /** `MintedIndex` undoes `MintedId`. */
  lemma MintedIndexOfMintedId(n: nat)
    ensures MintedIndex(MintedId(n)) == Some(n)
  {
    var s := MintedId(n);
    assert s[..|Prefix|] == Prefix;
    assert s[|Prefix|..] == Decimal(n);
    DecimalRoundTrip(n);
  }

  /** Distinct counter values give distinct identifiers. */
  lemma MintedIdInjective(a: nat, b: nat)
    ensures MintedId(a) == MintedId(b) <==> a == b
  {
    if MintedId(a) == MintedId(b) {
      MintedIndexOfMintedId(a);
      MintedIndexOfMintedId(b);
    }
  }

  /** The identifiers minted by the first `n` calls of `newId`, in order. */
  function MintedUpTo(n: nat): (ids: seq<string>)
    ensures |ids| == n
    ensures forall i :: 0 <= i < n ==> ids[i] == MintedId(i)
  {
    if n == 0 then [] else MintedUpTo(n - 1) + [MintedId(n - 1)]
  }

  /** However many identifiers have been minted, no two of them are equal. */
  lemma MintedPairwiseDistinct(n: nat)
    ensures forall i, j :: 0 <= i < j < n ==> MintedUpTo(n)[i] != MintedUpTo(n)[j]
  {
    forall i, j | 0 <= i < j < n
      ensures MintedUpTo(n)[i] != MintedUpTo(n)[j]
    {
      MintedIdInjective(i, j);
    }
  }

  /**
   * The live keys that still lie ahead of a counter at `n`: those that parse
   * as a minted identifier of index `n` or more.
   */
  function Pending(keys: set<string>, n: nat): set<string> {
    set k | k in keys && MintedIndex(k).Some? && MintedIndex(k).value >= n
  }

  /** When the identifier for `n` is live, moving past `n` leaves strictly fewer pending keys. */
  lemma PendingShrinks(keys: set<string>, n: nat)
    requires MintedId(n) in keys
    ensures |Pending(keys, n + 1)| < |Pending(keys, n)|
  {
    MintedIndexOfMintedId(n);
    var ahead, now := Pending(keys, n + 1), Pending(keys, n);
    assert MintedId(n) in now;
    SubsetCardinality(ahead, now - {MintedId(n)});
  }

  lemma {:induction false} SubsetCardinality<T>(a: set<T>, b: set<T>)
    requires a <= b
    ensures |a| <= |b|
    decreases b
  {
    if a != {} {
      var x :| x in a;
      SubsetCardinality(a - {x}, b - {x});
    }
  }
}
