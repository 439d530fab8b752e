/**
 * Shared vocabulary of the ArcSDE layer adapter: MapServer's return codes,
 * ArcSDE status codes, rectangles and points, and the fixed strings and
 * state identifiers the adapter uses.
 */
module SdeCore {

  datatype Option<T> = None | Some(value: T)

  /** Status codes an ArcSDE call can return (SE_SUCCESS, SE_FINISHED, ...). */
  datatype Status =
    | Success          // SE_SUCCESS
    | Finished         // SE_FINISHED: no more rows in the stream
    | NullValue        // SE_NULL_VALUE: the fetched column is NULL
    | InvalidRelease   // SE_INVALID_RELEASE: client and server releases differ
    | Failed(code: int)

  /** The error class MapServer records with msSetError. */
  datatype ErrorKind = MemErr | MiscErr | SdeErr

  /** What a layer operation returns to MapServer: MS_SUCCESS, MS_FAILURE or MS_DONE. */
  datatype MsResult = MsSuccess | MsFailure(kind: ErrorKind) | MsDone

  datatype Point = Point(x: real, y: real)

  /** A line (or polygon ring) of MapServer's shapeObj: its points in order. */
  type Line = seq<Point>

  /** rectObj / SE_ENVELOPE. */
  datatype Rect = Rect(minx: real, miny: real, maxx: real, maxy: real)

  /** MS_SDE_NULLSTRING: the text of a NULL attribute. */
  const NullString: string := "<null>"
  /** MS_SDE_SHAPESTRING: the text of a shape-valued attribute. */
  const ShapeString: string := "<shape>"
  /** MS_SDE_ROW_ID_COLUMN: the row-id column used when none is registered. */
  const DefaultRowIdColumn: string := "SE_ROW_ID"

  /** SE_DEFAULT_STATE_ID, from the ArcSDE headers. */
  const DefaultStateId: int := -4

  /** True when the layer is not pinned to a version's state. */
  predicate IsDefaultState(stateId: int) { stateId == DefaultStateId }

  /** C string equality (strcmp(a, b) == 0); a NULL operand matches nothing. */
  predicate SameName(a: Option<string>, b: Option<string>)
  {
    a.Some? && b.Some? && a.value == b.value
  }
}

/**
 * The C library's string services the adapter relies on: strcasecmp in the
 * C locale and the decimal rendering of sprintf("%ld").
 */
module Text {

  /** tolower in the C locale: only 'A'..'Z' change. */
  function Lower(c: char): (r: char)
    ensures 'A' <= c <= 'Z' ==> 'a' <= r <= 'z' && r as int == c as int + 32
    ensures !('A' <= c <= 'Z') ==> r == c
  {
    if 'A' <= c <= 'Z' then (c as int + 32) as char else c
  }

  /** strcasecmp(a, b) == 0. */
  predicate EqualsIgnoreCase(a: string, b: string)
  {
    |a| == |b| && forall i :: 0 <= i < |a| ==> Lower(a[i]) == Lower(b[i])
  }

  /** Case-insensitive equality is an equivalence: what the cache lookup relies on. */
  lemma EqualsIgnoreCaseIsEquivalence(a: string, b: string, c: string)
    ensures EqualsIgnoreCase(a, a)
    ensures EqualsIgnoreCase(a, b) ==> EqualsIgnoreCase(b, a)
    ensures EqualsIgnoreCase(a, b) && EqualsIgnoreCase(b, c) ==> EqualsIgnoreCase(a, c)
  {
  }

  /**
   * strcasecmp equality is equality after lower-casing both strings: an
   * independent description of what the case-insensitive lookups compare.
   */
  lemma {:induction false} EqualsIgnoreCaseIffSameLower(a: string, b: string)
    ensures EqualsIgnoreCase(a, b) <==> LowerString(a) == LowerString(b)
  {
    if LowerString(a) == LowerString(b) {
      forall i | 0 <= i < |a| ensures Lower(a[i]) == Lower(b[i]) {
        assert LowerString(a)[i] == LowerString(b)[i];
      }
    }
    if EqualsIgnoreCase(a, b) {
      assert forall i :: 0 <= i < |a| ==> LowerString(a)[i] == LowerString(b)[i];
    }
  }

  function LowerString(a: string): (r: string)
    ensures |r| == |a| && forall i :: 0 <= i < |a| ==> r[i] == Lower(a[i])
  {
    seq(|a|, i requires 0 <= i < |a| => Lower(a[i]))
  }

  predicate IsDigit(c: char) { '0' <= c <= '9' }

  function DigitChar(d: nat): (c: char)
    requires d < 10
    ensures IsDigit(c) && c as int - '0' as int == d
  {
    ('0' as int + d) as char
  }

  /** Decimal digits of a non-negative number, most significant first. */
  function NatToDecimal(n: nat): (s: string)
    ensures |s| > 0
    ensures forall i :: 0 <= i < |s| ==> IsDigit(s[i])
    decreases n
  {
    if n < 10 then [DigitChar(n)] else NatToDecimal(n / 10) + [DigitChar(n % 10)]
  }

  /** sprintf("%ld", n). */
  function LongToDecimal(n: int): (s: string)
  {
    if n < 0 then "-" + NatToDecimal(-n) else NatToDecimal(n)
  }

  /** The value of a string of decimal digits. */
  function ParseNat(s: string): nat
    requires forall i :: 0 <= i < |s| ==> IsDigit(s[i])
  {
    if |s| == 0 then 0
    else
      assert IsDigit(s[|s| - 1]);
      ParseNat(s[..|s| - 1]) * 10 + (s[|s| - 1] as int - '0' as int)
  }

  /** strtol on the text sprintf("%ld") produces. */
  function ParseLong(s: string): int
  {
    if |s| > 0 && s[0] == '-' && forall i :: 1 <= i < |s| ==> IsDigit(s[i]) then
      -(ParseNat(s[1..]) as int)
    else if forall i :: 0 <= i < |s| ==> IsDigit(s[i]) then
      ParseNat(s)
    else
      0
  }

  lemma {:induction false} NatToDecimalRoundTrip(n: nat)
    ensures ParseNat(NatToDecimal(n)) == n
    decreases n
  {
    if n >= 10 {
      var s := NatToDecimal(n / 10);
      var t := NatToDecimal(n);
      NatToDecimalRoundTrip(n / 10);
      assert t == s + [DigitChar(n % 10)];
      assert t[..|t| - 1] == s;
    }
  }

  /** The decimal text of a row id reads back as that row id. */
  lemma LongToDecimalRoundTrip(n: int)
    ensures ParseLong(LongToDecimal(n)) == n
  {
    if n < 0 {
      var s := LongToDecimal(n);
      assert s[1..] == NatToDecimal(-n);
      NatToDecimalRoundTrip(-n);
    } else {
      NatToDecimalRoundTrip(n);
    }
  }

  /** A decimal rendering never reads as one of the adapter's sentinel texts. */
  lemma DecimalIsNotSentinel(n: int, sentinel: string)
    requires |sentinel| > 0 && sentinel[0] == '<'
    ensures LongToDecimal(n) != sentinel
  {
    var s := LongToDecimal(n);
    if n >= 0 {
      assert IsDigit(s[0]);
    } else {
      assert s[0] == '-';
    }
  }
}
