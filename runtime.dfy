/** The few pieces of the Python runtime that the organism builder leans on:
    `range` turned into a list, `list.remove`, `random.choice` and `random.randint`.
    Each one raises in Python on a bad argument; here the exception becomes an `Err`,
    and a random draw becomes a nondeterministic choice constrained to the range
    the Python function promises. */
module Runtime {

  /** The exceptions the builder can run into. */
  datatype Error =
    | ChoiceFromEmpty   // IndexError from random.choice on an empty list
    | RemoveMissing     // ValueError from list.remove of a value not in the list
    | EmptyRange        // ValueError from random.randint(a, b) with a > b

  datatype Result<+T> = Ok(value: T) | Err(error: Error)

  datatype Option<+T> = None | Some(value: T)

  function Max(a: int, b: int): (m: int)
  {
    if a < b then b else a
  }

  predicate NoDuplicates<T(==)>(s: seq<T>)
  {
    forall i, j :: 0 <= i < j < |s| ==> s[i] != s[j]
  }

  /** `list(range(lo, hi))`: the integers from `lo` up to but excluding `hi`, ascending. */
  function Interval(lo: int, hi: int): (r: seq<int>)
    ensures |r| == Max(0, hi - lo)
    ensures forall k :: 0 <= k < |r| ==> r[k] == lo + k
    ensures forall y :: y in r <==> lo <= y < hi
    ensures NoDuplicates(r)
    decreases hi - lo
  {
    if hi <= lo then [] else Interval(lo, hi - 1) + [hi - 1]
  }

  /** The position of the first occurrence of `x` in `xs`. */
  function FirstIndex(xs: seq<int>, x: int): (i: nat)
    requires x in xs
    ensures i < |xs| && xs[i] == x && x !in xs[..i]
  {
    if xs[0] == x then 0
    else
      var i := FirstIndex(xs[1..], x);
      assert xs[..i + 1] == [xs[0]] + xs[1..][..i];
      i + 1
  }

  /** `xs.remove(x)`: drops the first occurrence of `x`, or raises when there is none. */
  function ListRemove(xs: seq<int>, x: int): (r: Result<seq<int>>)
    ensures r.Err? <==> x !in xs
    ensures r.Err? ==> r.error == RemoveMissing
    ensures r.Ok? ==> |r.value| == |xs| - 1
    ensures r.Ok? ==> exists i :: 0 <= i < |xs| && xs[i] == x && x !in xs[..i] && r.value == xs[..i] + xs[i + 1..]
    ensures r.Ok? ==> forall y :: y != x ==> (y in r.value <==> y in xs)
    ensures r.Ok? && NoDuplicates(xs) ==> x !in r.value && NoDuplicates(r.value)
  {
    if x !in xs then Err(RemoveMissing)
    else
      var i := FirstIndex(xs, x);
      var rest := xs[..i] + xs[i + 1..];
      assert xs == xs[..i] + [x] + xs[i + 1..];
      assert forall y :: y != x ==> (y in rest <==> y in xs);
      assert NoDuplicates(xs) ==> x !in rest && NoDuplicates(rest) by {
        if NoDuplicates(xs) {
          forall j, k | 0 <= j < k < |rest|
            ensures rest[j] != rest[k]
          {
            var j', k' := if j < i then j else j + 1, if k < i then k else k + 1;
            assert rest[j] == xs[j'] && rest[k] == xs[k'];
          }
          forall j | 0 <= j < |rest|
            ensures rest[j] != x
          {
            var j' := if j < i then j else j + 1;
            assert rest[j] == xs[j'];
          }
        }
      }
      Ok(rest)
  }

  /** `random.choice(xs)`: any element of a non-empty list; IndexError on an empty one. */
  method Choice<T>(xs: seq<T>) returns (r: Result<T>)
    ensures r.Err? <==> xs == []
    ensures r.Err? ==> r.error == ChoiceFromEmpty
    ensures r.Ok? ==> r.value in xs
  {
    if xs == [] {
      return Err(ChoiceFromEmpty);
    }
    var k :| 0 <= k < |xs|;
    r := Ok(xs[k]);
  }

  /** `random.randint(lo, hi)`: any integer of the closed range; ValueError when it is empty. */
  method RandInt(lo: int, hi: int) returns (r: Result<int>)
    ensures r.Err? <==> hi < lo
    ensures r.Err? ==> r.error == EmptyRange
    ensures r.Ok? ==> lo <= r.value <= hi
  {
    if hi < lo {
      return Err(EmptyRange);
    }
    var n :| lo <= n <= hi;
    r := Ok(n);
  }
}
