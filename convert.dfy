/** The token converter: pure functions that turn one argument token into an
    integer, an inclusive integer range or a key/value pair, and the ASCII key
    lowercasing used by string maps. */
module Convert {
  import opened Errors

  /** Bounds of Go's `int` on a 64-bit platform, the range `strconv.Atoi` accepts. */
  const MinInt: int := -0x8000_0000_0000_0000
  const MaxInt: int := 0x7fff_ffff_ffff_ffff

  predicate InIntRange(n: int) { MinInt <= n <= MaxInt }

  // ---------------------------------------------------------------------------
  // Decimal integers
  // ---------------------------------------------------------------------------

  predicate IsDigit(c: char) { '0' <= c <= '9' }

  predicate AllDigits(s: string) { forall i :: 0 <= i < |s| ==> IsDigit(s[i]) }

  function DigitValue(c: char): nat
    requires IsDigit(c)
  {
    c as int - '0' as int
  }

  function DigitChar(d: nat): (c: char)
    requires d < 10
    ensures IsDigit(c) && DigitValue(c) == d
  {
    ('0' as int + d) as char
  }

  /** The number a run of decimal digits denotes, most significant digit first. */
  function DigitsValue(s: string): nat
    requires AllDigits(s)
  {
    if s == [] then 0 else DigitsValue(s[..|s| - 1]) * 10 + DigitValue(s[|s| - 1])
  }

  predicate HasSign(s: string) { |s| > 0 && (s[0] == '+' || s[0] == '-') }

  /** The token without its optional leading sign. */
  function Unsigned(s: string): string { if HasSign(s) then s[1..] else s }

  /** An optional '+' or '-' followed by at least one decimal digit. */
  predicate IsDecimal(s: string) { Unsigned(s) != [] && AllDigits(Unsigned(s)) }

  /** Signed decimal parsing with the acceptance rules of Go's `strconv.Atoi`:
      an optional sign, one or more digits and nothing else, and a value that
      fits a 64-bit `int`. */
  function ParseInt(s: string): (r: Maybe<int>)
    ensures r.Some? ==> IsDecimal(s) && InIntRange(r.value)
  {
    if !IsDecimal(s) then None
    else
      var magnitude: int := DigitsValue(Unsigned(s));
      var v: int := if s[0] == '-' then -magnitude else magnitude;
      if InIntRange(v) then Some(v) else None
  }

  /** Decimal digits of a natural number, without leading zeros. */
  function FormatNat(n: nat): (s: string)
    ensures |s| > 0 && AllDigits(s)
  {
    if n < 10 then [DigitChar(n)] else FormatNat(n / 10) + [DigitChar(n % 10)]
  }

  /** The canonical decimal rendering of an integer (Go's `strconv.Itoa`). */
  function FormatInt(n: int): (s: string)
    ensures |s| > 0 && '.' !in s && '=' !in s
  {
    var digits := if n < 0 then FormatNat(-n) else FormatNat(n);
    assert '.' !in digits && '=' !in digits by {
      forall i | 0 <= i < |digits| ensures IsDigit(digits[i]) { }
    }
    if n < 0 then "-" + digits else digits
  }

  lemma {:induction false} DigitsValueOfFormat(n: nat)
    ensures DigitsValue(FormatNat(n)) == n
  {
    if n >= 10 {
      var s := FormatNat(n);
      assert s[..|s| - 1] == FormatNat(n / 10);
      DigitsValueOfFormat(n / 10);
    }
  }

  /** Parsing inverts formatting on every value a Go `int` can hold. */
  lemma ParseFormatRoundTrip(n: int)
    requires InIntRange(n)
    ensures ParseInt(FormatInt(n)) == Some(n)
  {
    if n < 0 {
      DigitsValueOfFormat(-n);
      assert Unsigned(FormatInt(n)) == FormatNat(-n);
    } else {
      DigitsValueOfFormat(n);
      var s := FormatNat(n);
      assert IsDigit(s[0]);
      assert Unsigned(s) == s;
    }
  }

  /** A character that is neither a digit nor a leading sign, such as the 'x'
      of "123x" or of "x", makes the token unparsable. */
  lemma NonDigitRejected(s: string, i: nat)
    requires i < |s| && !IsDigit(s[i])
    requires i > 0 || !HasSign(s)
    ensures ParseInt(s) == None
  {
    if HasSign(s) {
      assert Unsigned(s)[i - 1] == s[i];
    } else {
      assert Unsigned(s)[i] == s[i];
    }
  }

  /** Values outside the 64-bit range are rejected, as `strconv.Atoi` does. */
  lemma OutOfRangeRejected(s: string)
    requires IsDecimal(s)
    requires var m: int := DigitsValue(Unsigned(s)); !InIntRange(if s[0] == '-' then -m else m)
    ensures ParseInt(s) == None
  {
  }

  // ---------------------------------------------------------------------------
  // Integer ranges "lo..hi"
  // ---------------------------------------------------------------------------

  /** The inclusive ascending run lo, lo+1, ..., hi (empty when lo > hi). */
  function Range(lo: int, hi: int): (r: seq<int>)
    decreases hi - lo
    ensures |r| == if lo <= hi then hi - lo + 1 else 0
    ensures forall k :: 0 <= k < |r| ==> r[k] == lo + k
  {
    if lo > hi then [] else [lo] + Range(lo + 1, hi)
  }

  /** The expansion of a range is strictly ascending and bounded by its ends. */
  lemma RangeAscending(lo: int, hi: int, i: nat, j: nat)
    requires i < j < |Range(lo, hi)|
    ensures lo <= Range(lo, hi)[i] < Range(lo, hi)[j] <= hi
  {
  }

  predicate DotsAt(s: string, i: int) { 0 <= i && i + 1 < |s| && s[i] == '.' && s[i + 1] == '.' }

  predicate ContainsDots(s: string) { exists i :: 0 <= i < |s| && DotsAt(s, i) }

  /** Splits a token at the first occurrence of "..", as `strings.SplitN(s, "..", 2)`
      does; None when the token holds no "..". */
  function SplitRange(s: string): (r: Maybe<(string, string)>)
    ensures r.None? <==> !ContainsDots(s)
    ensures r.Some? ==> r.value.0 + ".." + r.value.1 == s
    ensures r.Some? ==> DotsAt(s, |r.value.0|) && forall i :: 0 <= i < |r.value.0| ==> !DotsAt(s, i)
  {
    if |s| < 2 then
      assert forall i :: !DotsAt(s, i);
      None
    else if s[0] == '.' && s[1] == '.' then
      assert DotsAt(s, 0);
      Some(([], s[2..]))
    else
      assert !DotsAt(s, 0);
      assert forall i :: DotsAt(s, i + 1) <==> DotsAt(s[1..], i);
      match SplitRange(s[1..])
      case None =>
        assert forall i :: 0 < i ==> !DotsAt(s, i) by {
          forall i | 0 < i ensures !DotsAt(s, i) { assert !DotsAt(s[1..], i - 1); }
        }
        None
      case Some((lo, hi)) =>
        assert DotsAt(s[1..], |lo|);
        assert forall i :: 0 < i <= |lo| ==> !DotsAt(s, i) by {
          forall i | 0 < i <= |lo| ensures !DotsAt(s, i) { assert !DotsAt(s[1..], i - 1); }
        }
        Some(([s[0]] + lo, hi))
  }

  /** Joining two dot-free parts with ".." and splitting again gives them back. */
  lemma {:induction false} SplitRangeJoin(lo: string, hi: string)
    requires '.' !in lo
    ensures SplitRange(lo + ".." + hi) == Some((lo, hi))
  {
    var s := lo + ".." + hi;
    if lo == [] {
      assert s == ".." + hi;
    } else {
      assert s[0] == lo[0] && s[1..] == lo[1..] + ".." + hi;
      SplitRangeJoin(lo[1..], hi);
      assert [lo[0]] + lo[1..] == lo;
    }
  }

  /** The integers one IntRepeat token stands for: a single integer, or the
      inclusive expansion of "lo..hi". None when either end does not parse or
      the range is reversed. */
  function TokenInts(token: string): (r: Maybe<seq<int>>)
    ensures r.Some? ==> |r.value| > 0
    ensures r.Some? ==> forall k :: 0 <= k < |r.value| ==> InIntRange(r.value[k])
    ensures r.Some? ==> forall k :: 0 < k < |r.value| ==> r.value[k] == r.value[k - 1] + 1
  {
    match SplitRange(token)
    case Some((lo, hi)) =>
      (match (ParseInt(lo), ParseInt(hi))
       case (Some(a), Some(b)) => if a <= b then Some(Range(a, b)) else None
       case _ => None)
    case None =>
      match ParseInt(token)
      case Some(n) => Some([n])
      case None => None
  }

  lemma TokenIntsSingle(n: int)
    requires InIntRange(n)
    ensures TokenInts(FormatInt(n)) == Some([n])
  {
    assert !ContainsDots(FormatInt(n));
    ParseFormatRoundTrip(n);
  }

  /** A well-formed ascending range token expands to exactly hi - lo + 1
      ascending integers starting at lo. */
  lemma TokenIntsRange(lo: int, hi: int)
    requires InIntRange(lo) && InIntRange(hi) && lo <= hi
    ensures TokenInts(FormatInt(lo) + ".." + FormatInt(hi)) == Some(Range(lo, hi))
    ensures |Range(lo, hi)| == hi - lo + 1
  {
    SplitRangeJoin(FormatInt(lo), FormatInt(hi));
    ParseFormatRoundTrip(lo);
    ParseFormatRoundTrip(hi);
  }

  /** A reversed range is rejected rather than expanded downwards. */
  lemma TokenIntsReversed(lo: int, hi: int)
    requires InIntRange(lo) && InIntRange(hi) && lo > hi
    ensures TokenInts(FormatInt(lo) + ".." + FormatInt(hi)) == None
  {
    SplitRangeJoin(FormatInt(lo), FormatInt(hi));
    ParseFormatRoundTrip(lo);
    ParseFormatRoundTrip(hi);
  }

  /** A range with an end that does not parse is rejected. */
  lemma TokenIntsBadEnd(lo: string, hi: string)
    requires '.' !in lo
    requires ParseInt(lo) == None || ParseInt(hi) == None
    ensures TokenInts(lo + ".." + hi) == None
  {
    SplitRangeJoin(lo, hi);
  }

  /** The IntRepeat token list: the concatenation of the integers of every
      token, in token order, or the conversion error of the first token that
      does not convert. */
  function ParseIntList(tokens: seq<string>, calledAs: string): (r: Result<seq<int>>)
    ensures r.Ok? ==> |r.value| >= |tokens|
    ensures r.Ok? ==> forall k :: 0 <= k < |r.value| ==> InIntRange(r.value[k])
  {
    if tokens == [] then Ok([])
    else
      match ParseIntList(tokens[..|tokens| - 1], calledAs)
      case Err(e) => Err(e)
      case Ok(xs) =>
        match TokenInts(tokens[|tokens| - 1])
        case None => Err(ConvertToInt(calledAs, tokens[|tokens| - 1]))
        case Some(ys) => Ok(xs + ys)
  }

  /** The token list converts exactly when every token does; otherwise the
      error is the conversion error of the first token that does not. */
  lemma {:induction false} ParseIntListOutcome(tokens: seq<string>, calledAs: string)
    ensures ParseIntList(tokens, calledAs).Ok? <==> forall j :: 0 <= j < |tokens| ==> TokenInts(tokens[j]).Some?
    ensures ParseIntList(tokens, calledAs).Err? ==>
      exists j :: 0 <= j < |tokens| && FirstBadToken(tokens, j) &&
                  ParseIntList(tokens, calledAs).error == ConvertToInt(calledAs, tokens[j])
  {
    if tokens != [] {
      var init, last := tokens[..|tokens| - 1], tokens[|tokens| - 1];
      assert forall j :: 0 <= j < |init| ==> init[j] == tokens[j];
      ParseIntListOutcome(init, calledAs);
      match ParseIntList(init, calledAs)
      case Err(e) =>
        var j :| 0 <= j < |init| && FirstBadToken(init, j) && e == ConvertToInt(calledAs, init[j]);
        assert FirstBadToken(tokens, j);
      case Ok(xs) =>
        if TokenInts(last).None? {
          assert FirstBadToken(tokens, |tokens| - 1);
        }
    }
  }

  /** A single token converts to its own integers or to its own error. */
  lemma ParseIntListSingle(token: string, calledAs: string)
    ensures ParseIntList([token], calledAs) ==
      if TokenInts(token).Some? then Ok(TokenInts(token).value) else Err(ConvertToInt(calledAs, token))
  {
    assert [token][..0] == [];
    if TokenInts(token).Some? {
      assert [] + TokenInts(token).value == TokenInts(token).value;
    }
  }

  /** Token j does not convert and every token before it does. */
  predicate FirstBadToken(tokens: seq<string>, j: int)
    requires 0 <= j < |tokens|
  {
    TokenInts(tokens[j]).None? && forall i :: 0 <= i < j ==> TokenInts(tokens[i]).Some?
  }

  /** Sequencing of two conversions: the first error wins, otherwise the
      values append in order. */
  function AppendResults(r1: Result<seq<int>>, r2: Result<seq<int>>): Result<seq<int>>
  {
    match r1
    case Err(e) => Err(e)
    case Ok(xs) =>
      match r2
      case Err(e) => Err(e)
      case Ok(ys) => Ok(xs + ys)
  }

  /** Converting two token lists one after the other is converting their
      concatenation: the values append in token order, and the first error wins. */
  lemma {:induction false} ParseIntListConcat(a: seq<string>, b: seq<string>, calledAs: string)
    ensures ParseIntList(a + b, calledAs) == AppendResults(ParseIntList(a, calledAs), ParseIntList(b, calledAs))
    decreases |b|
  {
    if b == [] {
      assert a + b == a;
      var ra := ParseIntList(a, calledAs);
      if ra.Ok? { assert ra.value + [] == ra.value; }
    } else {
      var b', t := b[..|b| - 1], b[|b| - 1];
      assert (a + b)[..|a + b| - 1] == a + b';
      assert (a + b)[|a + b| - 1] == t;
      ParseIntListConcat(a, b', calledAs);
      var ra, rb' := ParseIntList(a, calledAs), ParseIntList(b', calledAs);
      if ra.Ok? && rb'.Ok? && TokenInts(t).Some? {
        assert ra.value + rb'.value + TokenInts(t).value == ra.value + (rb'.value + TokenInts(t).value);
      }
    }
  }

  // ---------------------------------------------------------------------------
  // key=value tokens
  // ---------------------------------------------------------------------------

  /** Splits a token at its first '='; None when it has none. */
  function SplitKeyValue(s: string): (r: Maybe<(string, string)>)
    ensures r.None? <==> '=' !in s
    ensures r.Some? ==> r.value.0 + "=" + r.value.1 == s && '=' !in r.value.0
  {
    if s == [] then None
    else if s[0] == '=' then Some(([], s[1..]))
    else
      match SplitKeyValue(s[1..])
      case None => None
      case Some((k, v)) => Some(([s[0]] + k, v))
  }

  /** Joining an '='-free key to any value and splitting again gives both back,
      the value verbatim even when it holds further '=' characters. */
  lemma {:induction false} SplitKeyValueJoin(key: string, value: string)
    requires '=' !in key
    ensures SplitKeyValue(key + "=" + value) == Some((key, value))
  {
    var s := key + "=" + value;
    if key == [] {
      assert s == "=" + value;
    } else {
      assert s[0] == key[0] && s[1..] == key[1..] + "=" + value;
      SplitKeyValueJoin(key[1..], value);
      assert [key[0]] + key[1..] == key;
    }
  }

  // ---------------------------------------------------------------------------
  // Key lowercasing
  // ---------------------------------------------------------------------------

  predicate IsUpper(c: char) { 'A' <= c <= 'Z' }

  function LowerChar(c: char): (l: char)
    ensures !IsUpper(l)
  {
    if IsUpper(c) then (c as int + 32) as char else c
  }

  /** ASCII lowercasing, character by character. */
  function ToLower(s: string): (r: string)
    ensures |r| == |s|
    ensures forall i :: 0 <= i < |s| ==> r[i] == LowerChar(s[i])
  {
    if s == [] then [] else [LowerChar(s[0])] + ToLower(s[1..])
  }

  /** Lowercasing leaves no upper-case letter, changes nothing that has none,
      and therefore is idempotent. */
  lemma ToLowerNormalises(s: string)
    ensures forall i :: 0 <= i < |s| ==> !IsUpper(ToLower(s)[i])
    ensures (forall i :: 0 <= i < |s| ==> !IsUpper(s[i])) ==> ToLower(s) == s
    ensures ToLower(ToLower(s)) == ToLower(s)
  {
  }
}
