/** What several components share: a value that may be absent, the lesser of two, and where
    a line ends. */
module Wrappers {
  datatype Option<+T> = None | Some(value: T)

  function Least(a: nat, b: nat): (r: nat)
    ensures r <= a && r <= b && (r == a || r == b)
  {
    if a < b then a else b
  }

  /** Where the first newline is, if there is one. */
  function Newline(b: string): (n: nat)
    ensures n <= |b| && (n < |b| ==> b[n] == '\n') && (forall i :: 0 <= i < n ==> b[i] != '\n')
  {
    if b == "" || b[0] == '\n' then 0 else 1 + Newline(b[1..])
  }
}
