/** The parts of Python's list semantics the phone book relies on: indexing that counts
    from the end for negative indices, and IndexError for anything outside the list. */
module PyList {

  datatype PyError = IndexError

  datatype Outcome = Pass | Fail(error: PyError)

  datatype Result<T> = Ok(value: T) | Err(error: PyError)

  /** `lst[i]` is defined exactly for `-len(lst) <= i < len(lst)`. */
  predicate InRange(i: int, n: int) { -n <= i < n }

  /** The position `lst[i]` refers to. */
  function Resolve(i: int, n: nat): (k: nat)
    requires InRange(i, n)
    ensures k < n
  {
    if i < 0 then i + n else i
  }

  /** The number of iterations of `for _ in range(n)`. */
  function RangeLength(n: int): nat
  {
    if n < 0 then 0 else n
  }

  /** `lst[i] = x`: the updated list, or IndexError with the list left as it was. */
  function SetItem<T>(s: seq<T>, i: int, x: T): (r: Result<seq<T>>)
    ensures r.Ok? <==> InRange(i, |s|)
    ensures r.Ok? ==>
      && |r.value| == |s|
      && r.value[Resolve(i, |s|)] == x
      && forall j :: 0 <= j < |s| && j != Resolve(i, |s|) ==> r.value[j] == s[j]
  {
    if InRange(i, |s|) then Ok(s[Resolve(i, |s|) := x]) else Err(IndexError)
  }

  /** An assignment inside the list succeeds, stores `x` at `i`, and changes nothing else. */
  lemma SetItemInside<T>(s: seq<T>, i: int, x: T)
    requires 0 <= i < |s|
    ensures SetItem(s, i, x).Ok?
    ensures |SetItem(s, i, x).value| == |s|
    ensures SetItem(s, i, x).value[i] == x
    ensures forall j :: 0 <= j < |s| && j != i ==> SetItem(s, i, x).value[j] == s[j]
  {
  }

  /** A negative index `i` with `-len <= i < 0` stores at position `len + i`. */
  lemma SetItemFromEnd<T>(s: seq<T>, i: int, x: T)
    requires -|s| <= i < 0
    ensures SetItem(s, i, x) == Ok(s[|s| + i := x])
  {
  }

  /** IndexError is raised exactly when the index is outside `-len .. len-1`. */
  lemma SetItemFails<T>(s: seq<T>, i: int, x: T)
    ensures SetItem(s, i, x).Err? <==> (i >= |s| || i < -|s|)
  {
  }

  /** The menu turns the 1-based entry number `p` a user types into the index `p - 1`.
      Numbers 1 to len edit that entry, 0 edits the last one, and anything else
      raises IndexError. */
  lemma SetItemByEntryNumber<T>(s: seq<T>, p: int, x: T)
    ensures 1 <= p <= |s| ==> SetItem(s, p - 1, x) == Ok(s[p - 1 := x])
    ensures p == 0 && |s| > 0 ==> SetItem(s, p - 1, x) == Ok(s[|s| - 1 := x])
    ensures SetItem(s, p - 1, x).Err? <==> (p > |s| || p < 1 - |s|)
  {
  }
}
