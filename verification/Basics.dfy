/** Small functions on numbers and sequences that several parts use. */
module Basics {

  function Max(a: int, b: int): int {
    if a > b then a else b
  }

  function Min(a: int, b: int): int {
    if a < b then a else b
  }

  function Elements<T(==)>(q: seq<T>): set<T> {
    set e | e in q
  }
}
