/** The `MinimizeMethod` wrapper of methods.py: a minimisation method chosen by
    name for one benchmark function, with the keyword arguments it hands to the
    inner (local) minimiser and a call entry point that runs the outer
    (global, restarting) loop around it. */
module MinimizeMethods {
  import opened Results

  // ---------------------------------------------------------------------------
  // Lower-casing of method names

  /** `c.lower()` for an ASCII character; every other character is returned
      unchanged. */
  function LowerChar(c: char): (d: char)
    ensures 'A' <= c <= 'Z' ==> d as int == c as int + 32
    ensures !('A' <= c <= 'Z') ==> d == c
  {
    if 'A' <= c <= 'Z' then (c as int + 32) as char else c
  }

  /** The upper-case partner of a lower-case ASCII letter. */
  function UpperChar(c: char): char
  {
    if 'a' <= c <= 'z' then (c as int - 32) as char else c
  }

  /** `s.lower()`, character by character. */
  function Lower(s: string): (t: string)
    ensures |t| == |s|
    ensures forall i :: 0 <= i < |s| ==> t[i] == LowerChar(s[i])
  {
    seq(|s|, i requires 0 <= i < |s| => LowerChar(s[i]))
  }

  /** The two SciPy methods the wrapper refuses because they offer no
      per-step callback. */
  const UNSUPPORTED: seq<string> := ["anneal", "cobyla"]

  /** The test of `_setup_method`: `name.lower() in ['anneal', 'cobyla']`.
      Both refused names have six letters, so only six-character names can
      be refused. */
  predicate Unsupported(name: string): (refused: bool)
    ensures refused ==> |name| == 6
  {
    Lower(name) in UNSUPPORTED
  }

  /** `name` is `word` with each letter in either case. */
  predicate SpelledAs(name: string, word: string)
  {
    |name| == |word| &&
    forall i :: 0 <= i < |word| ==> name[i] == word[i] || name[i] == UpperChar(word[i])
  }

  /** For a word of lower-case letters, lower-casing a name yields the word
      exactly when the name spells the word in any mixture of cases. */
  lemma LowerIsWordIff(name: string, word: string)
    requires forall i :: 0 <= i < |word| ==> 'a' <= word[i] <= 'z'
    ensures Lower(name) == word <==> SpelledAs(name, word)
  {
    if SpelledAs(name, word) {
      forall i | 0 <= i < |word|
        ensures Lower(name)[i] == word[i]
      {
        assert name[i] == word[i] || name[i] == UpperChar(word[i]);
      }
    }
    if Lower(name) == word {
      forall i | 0 <= i < |word|
        ensures name[i] == word[i] || name[i] == UpperChar(word[i])
      {
        assert LowerChar(name[i]) == word[i];
      }
    }
  }

  /** A name is refused exactly when it spells "anneal" or "cobyla" in any
      mixture of upper- and lower-case letters. */
  lemma UnsupportedSpellings(name: string)
    ensures Unsupported(name) <==> SpelledAs(name, "anneal") || SpelledAs(name, "cobyla")
  {
    LowerIsWordIff(name, "anneal");
    LowerIsWordIff(name, "cobyla");
  }

  /** Refusal depends on the name only up to case. */
  lemma UnsupportedIgnoresCase(name: string)
    ensures Unsupported(Lower(name)) <==> Unsupported(name)
  {
    assert Lower(Lower(name)) == Lower(name);
  }

  // ---------------------------------------------------------------------------
  // Minimizer keyword arguments

  /** One `(low, high)` pair of the search box. */
  datatype Bound = Bound(low: real, high: real)

  /** The box every coordinate is searched in. */
  const DEFAULT_BOUND: Bound := Bound(-6.0, 6.0)

  /** Callbacks are caller-supplied callables; the model names each by a
      handle. */
  datatype Callback = Callback(id: nat)

  /** A value in the `minimizer_kwargs` dictionary. */
  datatype Kwarg =
    | BoundsArg(bounds: seq<Bound>)
      /** The two "ineq" constraints `min(x + box) >= 0` and
          `min(-(x - box)) >= 0`, given by their half-width `box` only. */
    | ConstraintsArg(box: int)
      /** The `options` dictionary; it holds only `rhoend`, the benchmark
          function's required precision. */
    | OptionsArg(rhoend: real)
    | MethodArg(selector: string)
    | CallbackArg(callback: Option<Callback>)

  const BOUNDS := "bounds"
  const CONSTRAINTS := "constraints"
  const OPTIONS := "options"
  const METHOD := "method"
  const CALLBACK := "callback"

  /** Half-width of the box the two constraints enforce. */
  const CONSTRAINT_BOX := 5

  /** `[(-6., +6.) for d in range(dim)]`. */
  function SearchBox(dim: nat): (box: seq<Bound>)
    ensures |box| == dim
    ensures forall i :: 0 <= i < |box| ==> box[i] == Bound(-6.0, 6.0)
  {
    seq(dim, _ => DEFAULT_BOUND)
  }

  /** The keyword arguments the constructor sets up before the method name is
      resolved. */
  function DefaultKwargs(dim: nat, precision: real): (kw: map<string, Kwarg>)
    ensures kw.Keys == {BOUNDS, CONSTRAINTS, OPTIONS}
    ensures kw[BOUNDS] == BoundsArg(SearchBox(dim))
    ensures kw[CONSTRAINTS] == ConstraintsArg(CONSTRAINT_BOX)
    ensures kw[OPTIONS] == OptionsArg(precision)
  {
    map[BOUNDS := BoundsArg(SearchBox(dim)),
        CONSTRAINTS := ConstraintsArg(CONSTRAINT_BOX),
        OPTIONS := OptionsArg(precision)]
  }

  /** The error `_setup_method` raises. */
  datatype Error = UnsupportedMethod(name: string)

  /** `_setup_method`: refuse the two callback-less methods, otherwise store the
      name verbatim under "method" and leave every other argument alone. */
  function SetupMethod(kw: map<string, Kwarg>, name: string): (r: Result<map<string, Kwarg>, Error>)
    ensures r.Failure? <==> Unsupported(name)
    ensures r.Failure? ==> r.error == UnsupportedMethod(name)
    ensures r.Success? ==> r.value.Keys == kw.Keys + {METHOD}
    ensures r.Success? ==> r.value[METHOD] == MethodArg(name)
    ensures r.Success? ==> forall k :: k in kw && k != METHOD ==> r.value[k] == kw[k]
  {
    if Unsupported(name) then Failure(UnsupportedMethod(name))
    else Success(kw[METHOD := MethodArg(name)])
  }

  /** A constructed wrapper: the name given, the dimension of the benchmark
      function it was built for, and the inner minimiser's arguments. The
      outer loop is supplied at call time (see `Call`). */
  datatype MinimizeMethod = MinimizeMethod(name: string, dim: nat, minimizerKwargs: map<string, Kwarg>)

  /** `MinimizeMethod(name, fi)` for a benchmark function of dimension `dim`
      and required precision `precision`: fails with the unsupported-method
      error exactly for the refused names, and otherwise yields a wrapper whose
      search box has one (-6, +6) pair per dimension and whose method selector
      is the name as given. */
  method Create(name: string, dim: nat, precision: real) returns (r: Result<MinimizeMethod, Error>)
    ensures r.Failure? <==> SpelledAs(name, "anneal") || SpelledAs(name, "cobyla")
    ensures r.Failure? ==> r.error == UnsupportedMethod(name)
    ensures r.Success? ==> r.value.name == name && r.value.dim == dim
    ensures r.Success? ==> r.value.minimizerKwargs.Keys == {BOUNDS, CONSTRAINTS, OPTIONS, METHOD}
    ensures r.Success? ==> r.value.minimizerKwargs[METHOD] == MethodArg(name)
    ensures r.Success? ==> r.value.minimizerKwargs[BOUNDS] == BoundsArg(SearchBox(dim))
    ensures r.Success? ==> r.value.minimizerKwargs[OPTIONS] == OptionsArg(precision)
    ensures r.Success? ==> r.value.minimizerKwargs[CONSTRAINTS] == ConstraintsArg(CONSTRAINT_BOX)
  {
    UnsupportedSpellings(name);
    var kwargs := DefaultKwargs(dim, precision);
    var setup := SetupMethod(kwargs, name);
    match setup {
      case Failure(e) =>
        r := Failure(e);
      case Success(kw) =>
        r := Success(MinimizeMethod(name, dim, kw));
    }
  }

  /** `dict(callback = inner_cb, **kw)`: the stored arguments with only the
      inner callback added. Python raises on a second "callback" key, which a
      constructed wrapper never has. */
  function InnerKwargs(kw: map<string, Kwarg>, innerCb: Option<Callback>): (r: map<string, Kwarg>)
    requires CALLBACK !in kw
    ensures r.Keys == kw.Keys + {CALLBACK}
    ensures r[CALLBACK] == CallbackArg(innerCb)
    ensures forall k :: k in kw ==> r[k] == kw[k]
  {
    kw[CALLBACK := CallbackArg(innerCb)]
  }

  /** `__call__(fun, x0, inner_cb, outer_cb)`: run the outer loop on `fun` from
      `x0` with `outer_cb` as its callback and the stored arguments plus the
      inner callback as the inner minimiser's arguments, and return whatever
      the outer loop returns. */
  function Call<F, X, R>(m: MinimizeMethod, fun: F, x0: X, innerCb: Option<Callback>,
                         outerCb: Option<Callback>,
                         outerLoop: (F, X, Option<Callback>, map<string, Kwarg>) -> R): (r: R)
    requires CALLBACK !in m.minimizerKwargs
    ensures r == outerLoop(fun, x0, outerCb, InnerKwargs(m.minimizerKwargs, innerCb))
  {
    outerLoop(fun, x0, outerCb, m.minimizerKwargs[CALLBACK := CallbackArg(innerCb)])
  }

  /** Usage: a two-dimensional BFGS wrapper, and construction with "COBYLA",
      which is refused. */
  method CreateExamples()
  {
    var bfgs := Create("BFGS", 2, 0.00000001);
    assert !SpelledAs("BFGS", "anneal") && !SpelledAs("BFGS", "cobyla") by {
      assert "BFGS"[0] != 'a' && "BFGS"[0] != 'c';
    }
    assert bfgs.Success?;
    assert bfgs.value.minimizerKwargs[METHOD] == MethodArg("BFGS");
    assert SearchBox(2) == [Bound(-6.0, 6.0), Bound(-6.0, 6.0)];
    var cobyla := Create("COBYLA", 2, 0.00000001);
    assert SpelledAs("COBYLA", "cobyla");
    assert cobyla == Failure(UnsupportedMethod("COBYLA"));
  }
}
