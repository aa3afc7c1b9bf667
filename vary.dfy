/** The key fragments of decorators/utils.py: `_quotify_function` (a value made into
    a `;`-terminated, percent-escaped fragment), `_combine_functions` (fragments
    concatenated in order) and `HashableTuple` (view arguments normalised for
    `simple_response_cache`). */
module Vary {
  import opened Sorting
  import opened Text
  import opened PyValues
  import opened Http

  /** A Python 2 `str`: every character is a byte. */
  type Bytes = s: string | forall i | 0 <= i < |s| :: s[i] as int < 256

  /** What a vary-on-view value function returns: a bool, an int or a byte string. */
  datatype Scalar = Bool(b: bool) | Int(i: int) | Text(s: Bytes)

  /** A value function: called with the view's request and arguments. */
  type ValueFn = (RequestInfo, ViewArgs) -> Scalar

  /** `str(value)`. */
  function Str(v: Scalar): Bytes
  {
    match v
    case Bool(b) => BoolText(b)
    case Int(i) => Decimal(i)
    case Text(s) => s
  }

  // ---------------------------------------------------------------------------
  // urllib.quote (Python 2, default safe='/')

  /** Characters `urllib.quote` leaves alone: letters, digits, `_.-` and `/`. */
  predicate Safe(c: char)
  {
    'A' <= c <= 'Z' || 'a' <= c <= 'z' || '0' <= c <= '9' || c == '_' || c == '.' || c == '-' || c == '/'
  }

  function HexDigit(d: nat): char
    requires d < 16
  {
    "0123456789ABCDEF"[d]
  }

  predicate IsHex(c: char)
  {
    '0' <= c <= '9' || 'A' <= c <= 'F' || 'a' <= c <= 'f'
  }

  function HexValue(c: char): (v: nat)
    requires IsHex(c)
    ensures v < 16
  {
    if c <= '9' then c as int - '0' as int
    else if c <= 'F' then c as int - 'A' as int + 10
    else c as int - 'a' as int + 10
  }

  /** The escape `%XX` of one byte, upper-case hex. */
  function Escape(c: char): (r: string)
    requires c as int < 256
  {
    "%" + [HexDigit(c as int / 16), HexDigit(c as int % 16)]
  }

  function QuoteChar(c: char): string
    requires c as int < 256
  {
    if Safe(c) then [c] else Escape(c)
  }

  /** `urllib.quote(s)`: every byte outside the safe set becomes `%XX`. */
  function Quote(s: Bytes): (r: string)
    ensures forall k :: 0 <= k < |r| ==> Safe(r[k]) || r[k] == '%'
    ensures |s| <= |r| <= 3 * |s|
  {
    if s == [] then "" else QuoteChar(s[0]) + Quote(s[1..])
  }

  /** `urllib.unquote(t)`: a `%` followed by two hex digits (either case) becomes
      that byte; anything else is kept. */
  function Unquote(t: string): string
    decreases |t|
  {
    if t == [] then ""
    else if |t| >= 3 && t[0] == '%' && IsHex(t[1]) && IsHex(t[2]) then
      [(HexValue(t[1]) * 16 + HexValue(t[2])) as char] + Unquote(t[3..])
    else [t[0]] + Unquote(t[1..])
  }

  /** Quoting loses nothing: `unquote(quote(s)) == s` for every byte string. */
  lemma {:induction false} UnquoteQuote(s: Bytes)
    ensures Unquote(Quote(s)) == s
  {
    if s != [] {
      var c, q := s[0], Quote(s[1..]);
      UnquoteQuote(s[1..]);
      if Safe(c) {
        assert (QuoteChar(c) + q)[1..] == q;
      } else {
        var e := Escape(c);
        var hi, lo := c as int / 16, c as int % 16;
        assert e[1] == HexDigit(hi) && e[2] == HexDigit(lo);
        assert HexValue(HexDigit(hi)) == hi && HexValue(HexDigit(lo)) == lo;
        assert (e + q)[3..] == q;
      }
    }
  }

  /** A string of safe characters is its own quotation. */
  lemma {:induction false} QuoteKeepsSafe(s: Bytes)
    requires forall k :: 0 <= k < |s| ==> Safe(s[k])
    ensures Quote(s) == s
  {
    if s != [] {
      QuoteKeepsSafe(s[1..]);
      assert [s[0]] + s[1..] == s;
    }
  }

  /** Distinct byte strings quote differently. */
  lemma QuoteInjective(s: Bytes, t: Bytes)
    requires Quote(s) == Quote(t)
    ensures s == t
  {
    UnquoteQuote(s);
    UnquoteQuote(t);
  }

  // ---------------------------------------------------------------------------
  // _quotify_function

  /** The fragment `'%s;' % quote(str(value))`. */
  function Fragment(v: Scalar): (r: string)
    ensures |r| >= 1 && r[|r| - 1] == ';'
    ensures forall k :: 0 <= k < |r| - 1 ==> r[k] != ';'
  {
    Quote(Str(v)) + ";"
  }

  /** `_quotify_function(g)`: the value function turned into a fragment producer. */
  function Quotify(g: ValueFn): VaryFn
  {
    (r: RequestInfo, a: ViewArgs) => Fragment(g(r, a))
  }

  /** A fragment determines `str` of its value: drop the `;` and unquote. */
  function DecodeFragment(p: string): string
  {
    if p == [] then "" else Unquote(p[..|p| - 1])
  }

  lemma DecodeFragmentInverts(v: Scalar)
    ensures DecodeFragment(Fragment(v)) == Str(v)
  {
    assert Fragment(v)[..|Fragment(v)| - 1] == Quote(Str(v));
    UnquoteQuote(Str(v));
  }

  // ---------------------------------------------------------------------------
  // Splitting a header made of fragments

  /** A piece ending in its only `;`. */
  predicate Terminated(p: string)
  {
    |p| >= 1 && p[|p| - 1] == ';' && forall k :: 0 <= k < |p| - 1 ==> p[k] != ';'
  }

  function Join(pieces: seq<string>): string
  {
    if pieces == [] then "" else pieces[0] + Join(pieces[1..])
  }

  /** Cuts a string after every `;`; a tail without `;` is kept as a last piece. */
  function SplitTerminated(s: string): seq<string>
    decreases |s|
  {
    if s == [] then []
    else
      var i := IndexOf(s, ';');
      if i == |s| then [s] else [s[..i + 1]] + SplitTerminated(s[i + 1..])
  }

  /** A terminated piece in front is cut off whole. */
  lemma SplitFirstPiece(p: string, rest: string)
    requires Terminated(p)
    ensures SplitTerminated(p + rest) == [p] + SplitTerminated(rest)
  {
    var s := p + rest;
    assert IndexOf(s, ';') == |p| - 1 by {
      assert s[|p| - 1] == ';';
      assert forall k :: 0 <= k < |p| - 1 ==> s[k] == p[k];
    }
    assert s[..|p|] == p && s[|p|..] == rest;
  }

  /** Unique splitting: `;`-terminated pieces are recovered exactly from their
      concatenation. */
  lemma {:induction false} SplitJoin(pieces: seq<string>)
    requires forall k :: 0 <= k < |pieces| ==> Terminated(pieces[k])
    ensures SplitTerminated(Join(pieces)) == pieces
  {
    if pieces != [] {
      SplitFirstPiece(pieces[0], Join(pieces[1..]));
      SplitJoin(pieces[1..]);
    }
  }

  /** The fragments of a sequence of values, in order. */
  function Fragments(vs: seq<Scalar>): (ps: seq<string>)
    ensures |ps| == |vs|
    ensures forall k :: 0 <= k < |vs| ==> ps[k] == Fragment(vs[k])
  {
    seq(|vs|, k requires 0 <= k < |vs| => Fragment(vs[k]))
  }

  /** The `str` of each value. */
  function Strs(vs: seq<Scalar>): (ss: seq<Bytes>)
    ensures |ss| == |vs|
    ensures forall k :: 0 <= k < |vs| ==> ss[k] == Str(vs[k])
  {
    seq(|vs|, k requires 0 <= k < |vs| => Str(vs[k]))
  }

  /** The header decoded back into the `str` of each value. */
  function Decode(header: string): (ss: seq<string>)
  {
    var pieces := SplitTerminated(header);
    seq(|pieces|, k requires 0 <= k < |pieces| => DecodeFragment(pieces[k]))
  }

  /** A header built from fragments decodes to the values' `str`, in order. */
  lemma DecodeJoinedFragments(vs: seq<Scalar>)
    ensures Decode(Join(Fragments(vs))) == Strs(vs)
  {
    SplitJoin(Fragments(vs));
    forall k | 0 <= k < |vs| ensures DecodeFragment(Fragments(vs)[k]) == Str(vs[k]) {
      DecodeFragmentInverts(vs[k]);
    }
  }

  /** So a composed header pins every component: equal headers mean equal values
      under `str`, component by component. */
  lemma JoinedFragmentsInjective(vs: seq<Scalar>, ws: seq<Scalar>)
    requires Join(Fragments(vs)) == Join(Fragments(ws))
    ensures Strs(vs) == Strs(ws)
  {
    DecodeJoinedFragments(vs);
    DecodeJoinedFragments(ws);
  }

  // ---------------------------------------------------------------------------
  // _combine_functions

  /** What `_combine_functions(*fs)` returns for one call: each result in turn. */
  function ConcatResults(fs: seq<VaryFn>, r: RequestInfo, a: ViewArgs): string
  {
    if fs == [] then "" else ConcatResults(fs[..|fs| - 1], r, a) + fs[|fs| - 1](r, a)
  }

  /** `_combine_functions(*fs)`. */
  function Combine(fs: seq<VaryFn>): VaryFn
  {
    (r: RequestInfo, a: ViewArgs) => ConcatResults(fs, r, a)
  }

  /** The loop of the combined function: `result` starts empty and each function's
      result is appended. */
  method CallCombined(fs: seq<VaryFn>, r: RequestInfo, a: ViewArgs) returns (result: string)
    ensures result == ConcatResults(fs, r, a)
  {
    result := "";
    for i := 0 to |fs|
      invariant result == ConcatResults(fs[..i], r, a)
    {
      assert fs[..i + 1][..i] == fs[..i];
      result := result + fs[i](r, a);
    }
    assert fs[..|fs|] == fs;
  }

  /** Concatenation distributes over splitting the function list, so nested
      combinations flatten. */
  lemma {:induction false} ConcatResultsAppend(fs: seq<VaryFn>, gs: seq<VaryFn>, r: RequestInfo, a: ViewArgs)
    ensures ConcatResults(fs + gs, r, a) == ConcatResults(fs, r, a) + ConcatResults(gs, r, a)
    decreases |gs|
  {
    if gs == [] {
      assert fs + gs == fs;
    } else {
      var init := gs[..|gs| - 1];
      assert (fs + gs)[..|fs + gs| - 1] == fs + init;
      ConcatResultsAppend(fs, init, r, a);
    }
  }

  /** Quotified value functions, in order. */
  function QuotifyAll(gs: seq<ValueFn>): (fs: seq<VaryFn>)
    ensures |fs| == |gs|
    ensures forall k :: 0 <= k < |gs| ==> fs[k] == Quotify(gs[k])
  {
    seq(|gs|, k requires 0 <= k < |gs| => Quotify(gs[k]))
  }

  /** The values of `gs` at one request. */
  function ValuesAt(gs: seq<ValueFn>, r: RequestInfo, a: ViewArgs): (vs: seq<Scalar>)
    ensures |vs| == |gs|
    ensures forall k :: 0 <= k < |gs| ==> vs[k] == gs[k](r, a)
  {
    seq(|gs|, k requires 0 <= k < |gs| => gs[k](r, a))
  }

  lemma {:induction false} JoinAppend(ps: seq<string>, p: string)
    ensures Join(ps + [p]) == Join(ps) + p
  {
    if ps != [] {
      assert (ps + [p])[1..] == ps[1..] + [p];
      JoinAppend(ps[1..], p);
    }
  }

  /** One more value function adds its fragment at the end of the joined header. */
  lemma JoinedFragmentsSnoc(gs: seq<ValueFn>, r: RequestInfo, a: ViewArgs)
    requires |gs| >= 1
    ensures Join(Fragments(ValuesAt(gs, r, a)))
         == Join(Fragments(ValuesAt(gs[..|gs| - 1], r, a))) + Fragment(gs[|gs| - 1](r, a))
  {
    var init, last := gs[..|gs| - 1], gs[|gs| - 1];
    FragmentsSnoc(gs, r, a);
    JoinAppend(Fragments(ValuesAt(init, r, a)), Fragment(last(r, a)));
  }

  lemma FragmentsSnoc(gs: seq<ValueFn>, r: RequestInfo, a: ViewArgs)
    requires |gs| >= 1
    ensures Fragments(ValuesAt(gs, r, a)) == Fragments(ValuesAt(gs[..|gs| - 1], r, a)) + [Fragment(gs[|gs| - 1](r, a))]
  {
    var vs, us := ValuesAt(gs, r, a), ValuesAt(gs[..|gs| - 1], r, a);
    assert vs == us + [gs[|gs| - 1](r, a)];
    FragmentsAppend(us, gs[|gs| - 1](r, a));
  }

  lemma FragmentsAppend(vs: seq<Scalar>, v: Scalar)
    ensures Fragments(vs + [v]) == Fragments(vs) + [Fragment(v)]
  {
    assert |Fragments(vs + [v])| == |Fragments(vs) + [Fragment(v)]|;
  }

  lemma {:induction false} CombinedQuotifiedJoin(gs: seq<ValueFn>, r: RequestInfo, a: ViewArgs)
    ensures ConcatResults(QuotifyAll(gs), r, a) == Join(Fragments(ValuesAt(gs, r, a)))
  {
    if gs != [] {
      var init, last := gs[..|gs| - 1], gs[|gs| - 1];
      var fs := QuotifyAll(gs);
      assert ConcatResults(fs, r, a) == ConcatResults(QuotifyAll(init), r, a) + Fragment(last(r, a)) by {
        assert fs[..|fs| - 1] == QuotifyAll(init);
        assert fs[|fs| - 1](r, a) == Quotify(last)(r, a) == Fragment(last(r, a));
      }
      CombinedQuotifiedJoin(init, r, a);
      JoinedFragmentsSnoc(gs, r, a);
    }
  }

  /** Combining quotified functions yields the joined fragments of their values,
      which decode back to those values. */
  lemma CombinedQuotified(gs: seq<ValueFn>, r: RequestInfo, a: ViewArgs)
    ensures ConcatResults(QuotifyAll(gs), r, a) == Join(Fragments(ValuesAt(gs, r, a)))
    ensures Decode(ConcatResults(QuotifyAll(gs), r, a)) == Strs(ValuesAt(gs, r, a))
  {
    CombinedQuotifiedJoin(gs, r, a);
    DecodeJoinedFragments(ValuesAt(gs, r, a));
  }

  // ---------------------------------------------------------------------------
  // HashableTuple

  /** `HashableTuple._create_one(item)`. A `long` is not an `int` for the
      `isinstance` test, so it is kept as it is and hashed through its `repr`, which
      ends in `L`. */
  function Normalize(v: PyValue): (n: Norm)
    ensures (v.PyList? || v.PyTuple? || v.PySet?) ==> n.NTuple? && |n.items| == |v.elems|
    ensures v.PyDict? ==> n.NTuple? && |n.items| == |v.entries|
    decreases v
  {
    match v
    case PyHashable(items) => NTuple(items)
    case PyList(es) => NTuple(seq(|es|, k requires 0 <= k < |es| => Normalize(es[k])))
    case PyTuple(es) => NTuple(seq(|es|, k requires 0 <= k < |es| => Normalize(es[k])))
    case PySet(es) => NTuple(seq(|es|, k requires 0 <= k < |es| => Normalize(es[k])))
    case PyDict(m) =>
      var ks := SortedKeys(m.Keys);
      NTuple(seq(|ks|, k requires 0 <= k < |ks| => NTuple([NStr(ks[k]), Normalize(m[ks[k]])])))
    case PyCallable(name) => NStr(name)
    case PyBool(b) => NUnicode(BoolText(b))
    case PyInt(i) => if MinInt <= i <= MaxInt then NUnicode(Decimal(i)) else NOther(Decimal(i) + "L")
    case PyStr(s) => NUnicode(s)
    case PyUnicode(u) => NUnicode(u)
    case PyOther(r) => NOther(r)
  }

  /** Containers normalise element by element: a list, tuple or set becomes the tuple
      of its normalised elements, in order, and a dict the tuple of its
      `(key, normalised value)` pairs in sorted key order. */
  lemma NormalizeItems(v: PyValue)
    ensures (v.PyList? || v.PyTuple? || v.PySet?) ==>
      && Normalize(v).NTuple? && |Normalize(v).items| == |v.elems|
      && forall k :: 0 <= k < |v.elems| ==> Normalize(v).items[k] == Normalize(v.elems[k])
    ensures v.PyDict? ==>
      var ks := SortedKeys(v.entries.Keys);
      && Normalize(v).NTuple? && |Normalize(v).items| == |ks|
      && forall k :: 0 <= k < |ks| ==> ks[k] in v.entries && Normalize(v).items[k] == NTuple([NStr(ks[k]), Normalize(v.entries[ks[k]])])
  {
  }

  /** `HashableTuple((args, kwargs))`: the constructor wraps its one argument in a
      tuple, so the pair sits two tuples deep inside the result. */
  function HashableKey(va: ViewArgs): Norm
  {
    NTuple([NTuple([NTuple([Normalize(PyTuple(va.args)), Normalize(PyDict(va.kwargs))])])])
  }

  /** `HashableTuple((args, kwargs)).hash`. */
  function Signature(env: Env, va: ViewArgs): string
  {
    env.sha256(env.repr(HashableKey(va)))
  }

  /** A dictionary becomes its `(key, normalised value)` pairs in sorted key order,
      whatever order its keys were inserted in: any strictly increasing listing of
      its keys gives the same pairs. */
  lemma DictFollowsKeyOrder(m: map<string, PyValue>, ks: seq<string>)
    requires StrictlySorted(ks)
    requires forall k :: k in ks <==> k in m
    ensures forall k :: 0 <= k < |ks| ==> ks[k] in m
    ensures Normalize(PyDict(m)) == NTuple(seq(|ks|, k requires 0 <= k < |ks| => NTuple([NStr(ks[k]), Normalize(m[ks[k]])])))
  {
    SortedUnique(ks, m.Keys);
  }

  /** Lists, tuples and sets with the same elements in the same order normalise alike,
      and an existing HashableTuple is kept as it is. */
  lemma ContainersNormaliseAlike(es: seq<PyValue>, items: seq<Norm>)
    ensures Normalize(PyList(es)) == Normalize(PyTuple(es)) == Normalize(PySet(es))
    ensures Normalize(PyHashable(items)) == NTuple(items)
  {
  }

  /** Ints, booleans and strings all normalise to unicode text: `1`, `'1'` and `u'1'`
      are one key, and so are `True` and `'True'`; a class, function or method
      becomes its `__name__` as a byte string, which a string argument never equals. */
  lemma ScalarsNormaliseToText(i: int, b: bool, name: string)
    requires MinInt <= i <= MaxInt
    ensures Normalize(PyInt(i)) == Normalize(PyStr(Decimal(i))) == Normalize(PyUnicode(Decimal(i)))
    ensures Normalize(PyBool(b)) == Normalize(PyStr(BoolText(b)))
    ensures Normalize(PyCallable(name)) == NStr(name) != Normalize(PyStr(name))
  {
  }

  /** A `long` keeps its own `repr`, so it never shares a normal form with the
      string of its digits, nor with any `int`. */
  lemma LongsKeepRepr(i: int, j: int, t: string)
    requires i < MinInt || MaxInt < i
    ensures Normalize(PyInt(i)) == NOther(Decimal(i) + "L")
    ensures Normalize(PyInt(i)) != Normalize(PyStr(t)) && Normalize(PyInt(i)) != Normalize(PyUnicode(t))
    ensures MinInt <= j <= MaxInt ==> Normalize(PyInt(i)) != Normalize(PyInt(j))
  {
  }

  /** The signature depends on the arguments only through their normal forms: calls
      whose arguments normalise alike share a signature. */
  lemma SignatureIgnoresSpelling(env: Env, v1: ViewArgs, v2: ViewArgs)
    requires Normalize(PyTuple(v1.args)) == Normalize(PyTuple(v2.args))
    requires Normalize(PyDict(v1.kwargs)) == Normalize(PyDict(v2.kwargs))
    ensures Signature(env, v1) == Signature(env, v2)
  {
  }
}
