/** The early-exit search shared by the harvesting loops and the person
    resolution loop: visit entries in list order, evaluate a test that may
    raise, and stop at the first entry that passes or at the first exception. */
module FirstMatch {
  import opened PyJson

  /** Entry `i` is the first to pass: every earlier entry was tested and failed. */
  ghost predicate FirstPasses<T>(xs: seq<T>, test: T -> Result<bool>, i: int) {
    && 0 <= i < |xs|
    && test(xs[i]) == Ok(true)
    && forall j :: 0 <= j < i ==> test(xs[j]) == Ok(false)
  }

  /** Every entry was tested and failed. */
  ghost predicate NonePass<T>(xs: seq<T>, test: T -> Result<bool>) {
    forall j :: 0 <= j < |xs| ==> test(xs[j]) == Ok(false)
  }

  /** Testing entry `i` raised `e`, and every earlier entry failed. */
  ghost predicate FirstRaises<T>(xs: seq<T>, test: T -> Result<bool>, i: int, e: Error) {
    && 0 <= i < |xs|
    && test(xs[i]) == Raise(e)
    && forall j :: 0 <= j < i ==> test(xs[j]) == Ok(false)
  }

  // Dropping the first, failing, entry shifts each property by one.

  lemma FirstPassesTail<T>(xs: seq<T>, test: T -> Result<bool>, i: int)
    requires FirstPasses(xs, test, i) && i > 0
    ensures test(xs[0]) == Ok(false) && FirstPasses(xs[1..], test, i - 1)
  {
    forall j | 0 <= j < i - 1 ensures test(xs[1..][j]) == Ok(false) {
      assert xs[1..][j] == xs[j + 1];
    }
  }

  lemma NonePassTail<T>(xs: seq<T>, test: T -> Result<bool>)
    requires NonePass(xs, test) && xs != []
    ensures test(xs[0]) == Ok(false) && NonePass(xs[1..], test)
  {
    forall j | 0 <= j < |xs| - 1 ensures test(xs[1..][j]) == Ok(false) {
      assert xs[1..][j] == xs[j + 1];
    }
  }

  lemma FirstRaisesTail<T>(xs: seq<T>, test: T -> Result<bool>, i: int, e: Error)
    requires FirstRaises(xs, test, i, e) && i > 0
    ensures test(xs[0]) == Ok(false) && FirstRaises(xs[1..], test, i - 1, e)
  {
    forall j | 0 <= j < i - 1 ensures test(xs[1..][j]) == Ok(false) {
      assert xs[1..][j] == xs[j + 1];
    }
  }

  /** The index of the first entry that passes `test`, None when none does,
      or the first exception a test raises on the way. */
  function FindFirst<T>(xs: seq<T>, test: T -> Result<bool>): (r: Result<Option<nat>>)
    ensures r.Ok? && r.value.Some? ==> FirstPasses(xs, test, r.value.value)
    ensures r == Ok(None) <==> NonePass(xs, test)
    ensures r.Raise? ==> exists i :: FirstRaises(xs, test, i, r.error)
    decreases |xs|
  {
    if xs == [] then Ok(None)
    else
      match test(xs[0])
      case Raise(e) => assert FirstRaises(xs, test, 0, e); Raise(e)
      case Ok(passed) =>
        if passed then Ok(Some(0))
        else
          var rest := FindFirst(xs[1..], test);
          if rest.Raise? then
            assert exists i :: FirstRaises(xs, test, i, rest.error) by {
              var i :| FirstRaises(xs[1..], test, i, rest.error);
              assert FirstRaises(xs, test, i + 1, rest.error);
            }
            rest
          else if rest.value.Some? then Ok(Some(rest.value.value + 1))
          else
            assert NonePass(xs, test) by {
              forall j | 1 <= j < |xs| ensures test(xs[j]) == Ok(false) {
                assert xs[j] == xs[1..][j - 1];
              }
            }
            rest
  }

  /** The first passing entry is unique, so FindFirst returns exactly it. */
  lemma {:induction false} FindFirstReturnsFirstPass<T>(xs: seq<T>, test: T -> Result<bool>, i: int)
    requires FirstPasses(xs, test, i)
    ensures FindFirst(xs, test) == Ok(Some(i))
    decreases |xs|
  {
    if i > 0 {
      FirstPassesTail(xs, test, i);
      FindFirstReturnsFirstPass(xs[1..], test, i - 1);
    }
  }

  /** The first exception on the way is the one FindFirst raises. */
  lemma {:induction false} FindFirstRaisesFirstError<T>(xs: seq<T>, test: T -> Result<bool>, i: int, e: Error)
    requires FirstRaises(xs, test, i, e)
    ensures FindFirst(xs, test) == Raise(e)
    decreases |xs|
  {
    if i > 0 {
      FirstRaisesTail(xs, test, i, e);
      FindFirstRaisesFirstError(xs[1..], test, i - 1, e);
    }
  }
}
