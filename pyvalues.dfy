/** The Python values the core hands around: arguments of views (the input of
    `HashableTuple`), the results of vary-on-view value functions, and what
    `HashableTuple` normalises them to. */
module PyValues {

  /** A value after `HashableTuple._create_one`: a tuple, a byte string (`str`),
      a unicode string, or an object kept as it was (represented by its `repr`). */
  datatype Norm =
    | NTuple(items: seq<Norm>)
    | NStr(s: string)
    | NUnicode(u: string)
    | NOther(repr: string)

  /** A Python value as `HashableTuple._create_one` distinguishes it. Dictionary keys
      are strings; a set is given in its iteration order. */
  datatype PyValue =
    | PyBool(b: bool)
    | PyInt(i: int)                  // an int, or a long when outside [MinInt, MaxInt]
    | PyStr(s: string)
    | PyUnicode(u: string)
    | PyList(elems: seq<PyValue>)
    | PyTuple(elems: seq<PyValue>)
    | PySet(elems: seq<PyValue>)
    | PyDict(entries: map<string, PyValue>)
    | PyCallable(name: string)       // a class, function or method, known by its __name__
    | PyHashable(items: seq<Norm>)   // an existing HashableTuple, already normalised
    | PyOther(repr: string)          // any other object

  /** `sys.maxint` of a 64-bit Python 2 build: larger integers (and smaller than
      `MinInt`) are of type `long`, not `int`. */
  const MaxInt := 0x7FFF_FFFF_FFFF_FFFF
  const MinInt := -MaxInt - 1

  function DigitChar(d: nat): char
    requires d < 10
  {
    ['0', '1', '2', '3', '4', '5', '6', '7', '8', '9'][d]
  }

  /** The decimal digits of a natural number, most significant first. */
  function NatDigits(n: nat): (r: string)
    ensures |r| >= 1
    ensures forall i :: 0 <= i < |r| ==> '0' <= r[i] <= '9'
    ensures r[0] == '0' ==> n == 0
  {
    if n < 10 then [DigitChar(n)] else NatDigits(n / 10) + [DigitChar(n % 10)]
  }

  /** `str(i)` (equally `unicode(i)`) for a Python integer. */
  function Decimal(i: int): (r: string)
    ensures forall k :: 0 <= k < |r| ==> r[k] == '-' || '0' <= r[k] <= '9'
  {
    if i < 0 then "-" + NatDigits(-i) else NatDigits(i)
  }

  lemma {:induction false} NatDigitsInjective(m: nat, n: nat)
    requires NatDigits(m) == NatDigits(n)
    ensures m == n
  {
    if m >= 10 && n >= 10 {
      var a, b := NatDigits(m), NatDigits(n);
      assert a[..|a| - 1] == NatDigits(m / 10) && b[..|b| - 1] == NatDigits(n / 10);
      NatDigitsInjective(m / 10, n / 10);
      assert DigitChar(m % 10) == a[|a| - 1] == b[|b| - 1] == DigitChar(n % 10);
    }
  }

  /** Distinct integers have distinct decimal spellings. */
  lemma DecimalInjective(i: int, j: int)
    requires Decimal(i) == Decimal(j)
    ensures i == j
  {
    if i < 0 && j < 0 {
      assert NatDigits(-i) == Decimal(i)[1..] == Decimal(j)[1..] == NatDigits(-j);
      NatDigitsInjective(-i, -j);
    } else if i >= 0 && j >= 0 {
      NatDigitsInjective(i, j);
    }
  }

  /** `str(True)` and `str(False)`. */
  function BoolText(b: bool): string
  {
    if b then "True" else "False"
  }
}
