/** Small datatypes and arithmetic used by every other module. */
module Common {

  datatype Option<+T> = None | Some(value: T)

  function Max(a: int, b: int): int {
    if a >= b then a else b
  }

  function Min(a: int, b: int): int {
    if a <= b then a else b
  }

  /** No element occurs at two positions. */
  ghost predicate Distinct<T>(s: seq<T>) {
    forall i, j | 0 <= i < j < |s| :: s[i] != s[j]
  }

  /** The elements of a sequence, without order and multiplicity. */
  ghost function Elems<T>(s: seq<T>): set<T> {
    set x | x in s
  }

  /** {0, ..., n - 1}. */
  ghost function Below(n: nat): (s: set<int>)
    ensures forall h :: h in s <==> 0 <= h < n
  {
    if n == 0 then {} else Below(n - 1) + {n - 1}
  }

  ghost function Pick<T>(s: set<T>): (x: T)
    requires s != {}
    ensures x in s
  {
    var x :| x in s;
    x
  }
}
