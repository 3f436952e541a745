/** Job keys: `get_key` in candidatos/cache.py. A key is
    `dataset/category/key_base`, then the positional arguments, then the keyword
    arguments as `name=value` in ascending name order, each piece preceded by `-`
    unless the key built so far ends in `/`. */
module Keys {
  import opened Values

  /** A positional argument of a decorated call: a string, another scalar
      (int, float, bool), or any other object such as `self`. */
  datatype Arg = Text(s: string) | Scalar | Object

  /** A keyword argument. */
  type Binding = (string, Param)

  // ---------------------------------------------------------------------------
  // Python's string order (code point by code point, a proper prefix first)

  predicate StrLt(a: string, b: string)
  {
    if |a| == 0 then |b| > 0
    else if |b| == 0 then false
    else if a[0] != b[0] then a[0] < b[0]
    else StrLt(a[1..], b[1..])
  }

  lemma {:induction false} StrLtAsymmetric(a: string, b: string)
    ensures !(StrLt(a, b) && StrLt(b, a))
  {
    if |a| > 0 && |b| > 0 && a[0] == b[0] {
      StrLtAsymmetric(a[1..], b[1..]);
    }
  }

  lemma {:induction false} StrLtTransitive(a: string, b: string, c: string)
    requires StrLt(a, b) && StrLt(b, c)
    ensures StrLt(a, c)
  {
    if |a| > 0 && |b| > 0 && |c| > 0 && a[0] == b[0] && b[0] == c[0] {
      StrLtTransitive(a[1..], b[1..], c[1..]);
    }
  }

  lemma {:induction false} StrLtTotal(a: string, b: string)
    requires a != b
    ensures StrLt(a, b) || StrLt(b, a)
  {
    if |a| > 0 && |b| > 0 && a[0] == b[0] {
      assert a == [a[0]] + a[1..] && b == [b[0]] + b[1..];
      StrLtTotal(a[1..], b[1..]);
    }
  }

  // ---------------------------------------------------------------------------
  // `sorted(kwargs.items())`

  /** Insert `b` before the first binding whose name is not below its own. */
  function Insert(b: Binding, s: seq<Binding>): (r: seq<Binding>)
    ensures |r| == |s| + 1
  {
    if s == [] then [b]
    else if StrLt(s[0].0, b.0) then [s[0]] + Insert(b, s[1..])
    else [b] + s
  }

  function SortBindings(s: seq<Binding>): (r: seq<Binding>)
    ensures |r| == |s|
  {
    if s == [] then [] else Insert(s[0], SortBindings(s[1..]))
  }

  /** No two keyword arguments share a name, as in any Python call. */
  predicate DistinctNames(s: seq<Binding>)
  {
    forall i, j :: 0 <= i < j < |s| ==> s[i].0 != s[j].0
  }

  predicate StrictlySorted(s: seq<Binding>)
  {
    forall i, j :: 0 <= i < j < |s| ==> StrLt(s[i].0, s[j].0)
  }

  lemma {:induction false} InsertFacts(b: Binding, s: seq<Binding>)
    requires StrictlySorted(s)
    requires forall i :: 0 <= i < |s| ==> s[i].0 != b.0
    ensures StrictlySorted(Insert(b, s))
    ensures multiset(Insert(b, s)) == multiset(s) + multiset{b}
  {
    InsertPermutation(b, s);
    if s == [] {
    } else if StrLt(s[0].0, b.0) {
      var t := Insert(b, s[1..]);
      InsertFacts(b, s[1..]);
      forall k | 0 <= k < |t|
        ensures StrLt(s[0].0, t[k].0)
      {
        assert t[k] in multiset(s[1..]) + multiset{b};
        if t[k] != b {
          var m :| 0 <= m < |s[1..]| && s[1..][m] == t[k];
          assert s[m + 1] == t[k];
        }
      }
      ConsSorted(s[0], t);
    } else {
      StrLtTotal(s[0].0, b.0);
      forall j | 0 <= j < |s| ensures StrLt(b.0, s[j].0) {
        if j > 0 {
          StrLtTransitive(b.0, s[0].0, s[j].0);
        }
      }
      ConsSorted(b, s);
    }
  }

  lemma ConsSorted(x: Binding, t: seq<Binding>)
    requires StrictlySorted(t)
    requires forall k :: 0 <= k < |t| ==> StrLt(x.0, t[k].0)
    ensures StrictlySorted([x] + t)
  {
  }

  /** `sorted` returns the same bindings. */
  lemma {:induction false} SortPermutes(s: seq<Binding>)
    ensures multiset(SortBindings(s)) == multiset(s)
  {
    if s != [] {
      SortPermutes(s[1..]);
      InsertPermutation(s[0], SortBindings(s[1..]));
      assert s == [s[0]] + s[1..];
    }
  }

  /** With distinct names, `sorted` orders the bindings strictly by name. */
  lemma {:induction false} SortSorts(s: seq<Binding>)
    requires DistinctNames(s)
    ensures StrictlySorted(SortBindings(s))
  {
    if s != [] {
      var t := SortBindings(s[1..]);
      SortSorts(s[1..]);
      SortPermutes(s[1..]);
      forall i | 0 <= i < |t| ensures t[i].0 != s[0].0 {
        assert t[i] in multiset(s[1..]);
        var m :| 0 <= m < |s[1..]| && s[1..][m] == t[i];
        assert s[m + 1] == t[i];
      }
      InsertFacts(s[0], t);
    }
  }

  lemma {:induction false} InsertPermutation(b: Binding, s: seq<Binding>)
    ensures multiset(Insert(b, s)) == multiset(s) + multiset{b}
  {
    if s != [] {
      assert s == [s[0]] + s[1..];
      if StrLt(s[0].0, b.0) {
        InsertPermutation(b, s[1..]);
      }
    }
  }

  /** Two strictly sorted sequences holding the same bindings are the same
      sequence. */
  lemma {:induction false} StrictlySortedUnique(a: seq<Binding>, b: seq<Binding>)
    requires StrictlySorted(a) && StrictlySorted(b)
    requires multiset(a) == multiset(b)
    ensures a == b
  {
    assert |a| == |multiset(a)| == |b|;
    if a != [] {
      SortedHeadsEqual(a, b);
      assert a == [a[0]] + a[1..] && b == [b[0]] + b[1..];
      assert multiset(a[1..]) == multiset(b[1..]) by {
        assert multiset(a[1..]) == multiset(a) - multiset{a[0]};
        assert multiset(b[1..]) == multiset(b) - multiset{b[0]};
      }
      StrictlySortedUnique(a[1..], b[1..]);
    }
  }

  /** The least binding comes first in both. */
  lemma SortedHeadsEqual(a: seq<Binding>, b: seq<Binding>)
    requires StrictlySorted(a) && StrictlySorted(b)
    requires multiset(a) == multiset(b)
    requires a != [] && b != []
    ensures a[0] == b[0]
  {
    assert b[0] in a by { assert b[0] in multiset(b); }
    assert a[0] in b by { assert a[0] in multiset(a); }
    if a[0] != b[0] {
      var i :| 0 <= i < |a| && a[i] == b[0];
      var j :| 0 <= j < |b| && b[j] == a[0];
      assert StrLt(a[0].0, a[i].0);
      assert StrLt(b[0].0, b[j].0);
      StrLtAsymmetric(a[0].0, b[0].0);
      assert false;
    }
  }

  /** `sorted(kwargs.items())` does not depend on the order in which the keyword
      arguments were written. */
  lemma SortIgnoresCallOrder(k1: seq<Binding>, k2: seq<Binding>)
    requires DistinctNames(k1) && DistinctNames(k2)
    requires multiset(k1) == multiset(k2)
    ensures SortBindings(k1) == SortBindings(k2)
  {
    SortPermutes(k1);
    SortPermutes(k2);
    SortSorts(k1);
    SortSorts(k2);
    StrictlySortedUnique(SortBindings(k1), SortBindings(k2));
  }

  // ---------------------------------------------------------------------------
  // Building the key

  /** The separator written before a piece: `-` exactly when the key is
      non-empty and does not end in `/`. */
  function Sep(key: string): (r: string)
    ensures r == "-" <==> NeedsDash(key)
    ensures r == "" <==> !NeedsDash(key)
  {
    if NeedsDash(key) then "-" else ""
  }

  /** `key and not key.endswith("/")`. */
  predicate NeedsDash(key: string)
  {
    |key| > 0 && key[|key| - 1] != '/'
  }

  /** `key` with every piece appended in turn, each after its separator. */
  function AppendAll(key: string, pieces: seq<string>): string
  {
    if pieces == [] then key
    else
      var init := AppendAll(key, pieces[..|pieces| - 1]);
      init + Sep(init) + pieces[|pieces| - 1]
  }

  lemma AppendAllSnoc(key: string, pieces: seq<string>, piece: string)
    ensures var init := AppendAll(key, pieces);
            AppendAll(key, pieces + [piece]) == init + Sep(init) + piece
  {
    assert (pieces + [piece])[..|pieces|] == pieces;
  }

  function Prefix(dataset: string, category: string, keyBase: string): string
  {
    dataset + "/" + category + "/" + keyBase
  }

  /** The pieces contributed by `args[..n]`: a leading non-scalar is skipped;
      `key += arg` raises `TypeError` for anything but a string. */
  function PositionalPrefix(args: seq<Arg>, n: nat): Result<seq<string>>
    requires n <= |args|
  {
    if n == 0 then Ok([])
    else
      match PositionalPrefix(args, n - 1)
      case Err(e) => Err(e)
      case Ok(ps) =>
        if n == 1 && args[0].Object? then Ok(ps)
        else if args[n - 1].Text? then Ok(ps + [args[n - 1].s])
        else Err(TypeError)
  }

  function PositionalPieces(args: seq<Arg>): Result<seq<string>>
  {
    PositionalPrefix(args, |args|)
  }

  /** `f"{argkey}={argval}"`. */
  function KeywordPiece(b: Binding): string
  {
    b.0 + "=" + Render(b.1)
  }

  /** The `name=value` pieces of bindings, in their order. */
  function Pieces(bindings: seq<Binding>): (r: seq<string>)
    ensures |r| == |bindings|
  {
    if bindings == [] then []
    else Pieces(bindings[..|bindings| - 1]) + [KeywordPiece(bindings[|bindings| - 1])]
  }

  function KeywordPieces(kwargs: seq<Binding>): (r: seq<string>)
    ensures |r| == |kwargs|
  {
    Pieces(SortBindings(kwargs))
  }

  /** The key `get_key` returns, or the exception it raises. */
  function KeyOf(dataset: string, category: string, keyBase: string,
                 args: seq<Arg>, kwargs: seq<Binding>): Result<string>
  {
    match PositionalPieces(args)
    case Err(e) => Err(e)
    case Ok(ps) => Ok(AppendAll(Prefix(dataset, category, keyBase), ps + KeywordPieces(kwargs)))
  }

  lemma {:induction false} PositionalErrStays(args: seq<Arg>, n: nat, m: nat)
    requires n <= m <= |args|
    requires PositionalPrefix(args, n).Err?
    ensures PositionalPrefix(args, m) == Err(TypeError)
    decreases m
  {
    if m > n {
      PositionalErrStays(args, n, m - 1);
    } else {
      PositionalErrIsTypeError(args, n);
    }
  }

  lemma {:induction false} PositionalErrIsTypeError(args: seq<Arg>, n: nat)
    requires n <= |args|
    ensures PositionalPrefix(args, n).Err? ==> PositionalPrefix(args, n) == Err(TypeError)
  {
    if n > 0 {
      PositionalErrIsTypeError(args, n - 1);
    }
  }

  /** A leading non-scalar argument is skipped. */
  lemma PositionalSkipStep(args: seq<Arg>)
    requires |args| > 0 && args[0].Object?
    ensures PositionalPrefix(args, 1) == Ok([])
  {
  }

  /** A string argument past the skipped leading one extends the pieces. */
  lemma PositionalTextStep(args: seq<Arg>, i: nat, done: seq<string>)
    requires i < |args| && PositionalPrefix(args, i) == Ok(done)
    requires !(i == 0 && args[0].Object?) && args[i].Text?
    ensures PositionalPrefix(args, i + 1) == Ok(done + [args[i].s])
  {
  }

  /** The body shared by both loops of `get_key`: a dash unless the key is
      empty or ends in `/`, then the piece. */
  method AppendPiece(key: string, piece: string) returns (r: string)
    ensures r == key + Sep(key) + piece
  {
    r := key;
    if NeedsDash(r) {
      r := r + "-";
    } else {
      assert r + "" == r;
    }
    r := r + piece;
  }

  /** The first loop of `get_key`: append the positional arguments to `key`. */
  method AppendPositional(key0: string, args: seq<Arg>) returns (r: Result<string>)
    ensures PositionalPieces(args).Err? ==> r == Err(TypeError)
    ensures PositionalPieces(args).Ok? ==> r == Ok(AppendAll(key0, PositionalPieces(args).value))
  {
    var key := key0;
    ghost var done: seq<string> := [];
    var i := 0;
    assert PositionalPrefix(args, 0) == Ok(done);
    while i < |args|
      invariant 0 <= i <= |args|
      invariant PositionalPrefix(args, i) == Ok(done)
      invariant key == AppendAll(key0, done)
    {
      var arg := args[i];
      if i == 0 && arg.Object? {
        PositionalSkipStep(args);
        i := i + 1;
        continue;
      }
      if !arg.Text? {
        PositionalErrStays(args, i + 1, |args|);
        return Err(TypeError);
      }
      key := AppendPiece(key, arg.s);
      AppendAllSnoc(key0, done, arg.s);
      PositionalTextStep(args, i, done);
      done := done + [arg.s];
      i := i + 1;
    }
    r := Ok(key);
  }

  /** The second loop of `get_key`: append `name=value` for each binding of
      the already sorted keyword arguments. */
  method AppendKeywords(key0: string, sorted: seq<Binding>) returns (key: string)
    ensures key == AppendAll(key0, Pieces(sorted))
  {
    key := key0;
    ghost var done: seq<string> := [];
    var j := 0;
    assert sorted[..0] == [];
    while j < |sorted|
      invariant 0 <= j <= |sorted|
      invariant done == Pieces(sorted[..j])
      invariant key == AppendAll(key0, done)
    {
      assert sorted[..j + 1][..j] == sorted[..j];
      var piece := KeywordPiece(sorted[j]);
      key := AppendPiece(key, piece);
      AppendAllSnoc(key0, done, piece);
      done := done + [piece];
      j := j + 1;
    }
    assert sorted[..|sorted|] == sorted;
  }

  lemma {:induction false} AppendAllConcat(key: string, ps: seq<string>, qs: seq<string>)
    ensures AppendAll(key, ps + qs) == AppendAll(AppendAll(key, ps), qs)
    decreases |qs|
  {
    if qs == [] {
      assert ps + qs == ps;
    } else {
      var init := qs[..|qs| - 1];
      assert (ps + qs)[..|ps + qs| - 1] == ps + init;
      AppendAllConcat(key, ps, init);
    }
  }

  /** `get_key`: `dataset/category/key_base`, then the positional and keyword
      pieces; the result is exactly the key that `KeyOf` describes. */
  method GetKey(dataset: string, category: string, keyBase: string,
                args: seq<Arg>, kwargs: seq<Binding>) returns (r: Result<string>)
    ensures r == KeyOf(dataset, category, keyBase, args, kwargs)
  {
    var key := dataset + "/" + category + "/" + keyBase;
    var positional := AppendPositional(key, args);
    if positional.Err? {
      PositionalErrIsTypeError(args, |args|);
      return positional;
    }
    key := AppendKeywords(positional.value, SortBindings(kwargs));
    AppendAllConcat(Prefix(dataset, category, keyBase), PositionalPieces(args).value, KeywordPieces(kwargs));
    r := Ok(key);
  }

  // ---------------------------------------------------------------------------
  // What the key looks like

  lemma {:induction false} AppendAllExtends(key: string, pieces: seq<string>)
    ensures key <= AppendAll(key, pieces)
  {
    if pieces != [] {
      AppendAllExtends(key, pieces[..|pieces| - 1]);
    }
  }

  /** After a `key_base` that is non-empty and does not end in `/`, the
      first piece comes after a dash. */
  lemma DashAfterBase(dataset: string, category: string, keyBase: string, pieces: seq<string>)
    requires keyBase != "" && keyBase[|keyBase| - 1] != '/'
    requires |pieces| > 0
    ensures Prefix(dataset, category, keyBase) + "-" <= AppendAll(Prefix(dataset, category, keyBase), pieces)
  {
    var p := Prefix(dataset, category, keyBase);
    assert p[|p| - 1] == keyBase[|keyBase| - 1];
    DashAfter(p, pieces);
  }

  /** A key that needs a dash is followed by one, then the pieces. */
  lemma DashAfter(key: string, pieces: seq<string>)
    requires NeedsDash(key) && |pieces| > 0
    ensures key + "-" <= AppendAll(key, pieces)
  {
    var first := AppendAll(key, [pieces[0]]);
    assert first == key + "-" + pieces[0] by {
      assert [pieces[0]][..0] == [];
      assert AppendAll(key, []) == key;
      assert Sep(key) == "-";
    }
    AppendAllConcat(key, [pieces[0]], pieces[1..]);
    assert [pieces[0]] + pieces[1..] == pieces;
    AppendAllExtends(first, pieces[1..]);
  }

  /** Every key starts with `dataset/category/key_base`. */
  lemma KeyStartsWithPrefix(dataset: string, category: string, keyBase: string,
                            args: seq<Arg>, kwargs: seq<Binding>)
    ensures var r := KeyOf(dataset, category, keyBase, args, kwargs);
            r.Ok? ==> Prefix(dataset, category, keyBase) <= r.value
  {
    var r := PositionalPieces(args);
    if r.Ok? {
      AppendAllExtends(Prefix(dataset, category, keyBase), r.value + KeywordPieces(kwargs));
    }
  }

  /** The arguments `get_key` turns into pieces: all of them, or all but the
      first when the first is not a scalar. */
  function Kept(args: seq<Arg>): seq<Arg>
  {
    if |args| > 0 && args[0].Object? then args[1..] else args
  }

  lemma {:induction false} PositionalPrefixShape(args: seq<Arg>, n: nat)
    requires n <= |args|
    ensures var k := if n > 0 && args[0].Object? then 1 else 0;
            PositionalPrefix(args, n).Ok? <==> forall i :: k <= i < n ==> args[i].Text?
    ensures var k := if n > 0 && args[0].Object? then 1 else 0;
            PositionalPrefix(args, n).Ok? ==>
              PositionalPrefix(args, n).value == seq(n - k, i requires 0 <= i < n - k => args[k + i].s)
  {
    if n > 0 {
      PositionalPrefixShape(args, n - 1);
    }
  }

  /** The first positional argument is skipped if and only if it is not a
      scalar; every kept argument must be a string and is appended verbatim. */
  lemma PositionalPiecesShape(args: seq<Arg>)
    ensures PositionalPieces(args).Ok? <==> forall a :: a in Kept(args) ==> a.Text?
    ensures PositionalPieces(args).Ok? ==>
              PositionalPieces(args).value == seq(|Kept(args)|, i requires 0 <= i < |Kept(args)| => Kept(args)[i].s)
    ensures PositionalPieces(args).Err? ==> PositionalPieces(args) == Err(TypeError)
  {
    PositionalPrefixShape(args, |args|);
    PositionalErrIsTypeError(args, |args|);
    var k := if |args| > 0 && args[0].Object? then 1 else 0;
    var kept := Kept(args);
    assert kept == args[k..];
    KeptText(args, k);
    if PositionalPieces(args).Ok? {
      var pieces := PositionalPieces(args).value;
      var strings := seq(|kept|, i requires 0 <= i < |kept| => kept[i].s);
      forall i | 0 <= i < |kept| ensures pieces[i] == strings[i] {
        assert kept[i] == args[k + i];
      }
    }
  }

  /** Every argument from `k` on is a string exactly when every element of
      that suffix is. */
  lemma KeptText(args: seq<Arg>, k: nat)
    requires k <= |args|
    ensures (forall a :: a in args[k..] ==> a.Text?) <==> (forall i :: k <= i < |args| ==> args[i].Text?)
  {
    if forall a :: a in args[k..] ==> a.Text? {
      forall i | k <= i < |args| ensures args[i].Text? {
        assert args[k..][i - k] in args[k..];
      }
    }
  }

  /** `get_key` gives the same key however the keyword arguments were ordered
      in the call. */
  lemma KeyIgnoresKeywordOrder(dataset: string, category: string, keyBase: string,
                               args: seq<Arg>, k1: seq<Binding>, k2: seq<Binding>)
    requires DistinctNames(k1) && DistinctNames(k2)
    requires multiset(k1) == multiset(k2)
    ensures KeyOf(dataset, category, keyBase, args, k1) == KeyOf(dataset, category, keyBase, args, k2)
  {
    SortIgnoresCallOrder(k1, k2);
  }

  /** An empty `key_base` leaves the key ending in `/`, so the first piece gets
      no dash; a `key_base` that does not end in `/` gets one. */
  lemma FirstPieceSeparator(dataset: string, category: string, keyBase: string, piece: string)
    ensures AppendAll(Prefix(dataset, category, keyBase), [piece]) ==
            if keyBase == "" || keyBase[|keyBase| - 1] == '/'
            then Prefix(dataset, category, keyBase) + piece
            else Prefix(dataset, category, keyBase) + "-" + piece
  {
    var p := Prefix(dataset, category, keyBase);
    assert [piece][..0] == [];
    assert p[|p| - 1] == if keyBase == "" then '/' else keyBase[|keyBase| - 1];
  }

  /** A call with only keyword arguments and a non-empty `key_base` not ending
      in `/` puts a dash before the first keyword piece. */
  lemma {:induction false} KeywordOnlyKey(dataset: string, category: string, keyBase: string,
                                          name: string, value: Param)
    requires keyBase != "" && keyBase[|keyBase| - 1] != '/'
    ensures KeyOf(dataset, category, keyBase, [], [(name, value)]) ==
            Ok(Prefix(dataset, category, keyBase) + "-" + (name + "=" + Render(value)))
  {
    var piece := name + "=" + Render(value);
    assert PositionalPieces([]) == Ok([]);
    assert SortBindings([(name, value)]) == [(name, value)];
    assert KeywordPieces([(name, value)]) == [piece];
    assert [] + [piece] == [piece];
    FirstPieceSeparator(dataset, category, keyBase, piece);
  }
}
