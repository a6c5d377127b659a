/** The JavaScript value rules that the client's conditions rely on. */
module Js {

  /** `T | null | undefined`. */
  datatype Option<+T> = None | Some(value: T)

  /** Truthiness of a `string | null | undefined`: an absent value and "" are falsy. */
  predicate Truthy(s: Option<string>) {
    s.Some? && s.value != ""
  }

  /** `a || b` on two strings: `a` when it is truthy, `b` otherwise. */
  function Or(a: string, b: string): string {
    if a != "" then a else b
  }

  /** `xs.join(sep)`: the entries in order, `sep` between neighbours. */
  function Join(xs: seq<string>, sep: string): string
    decreases |xs|
  {
    if |xs| == 0 then ""
    else if |xs| == 1 then xs[0]
    else xs[0] + sep + Join(xs[1..], sep)
  }

  /** The combined length of the entries of `xs`. */
  function TotalLength(xs: seq<string>): nat
    decreases |xs|
  {
    if xs == [] then 0 else |xs[0]| + TotalLength(xs[1..])
  }

  /** Joining with one space adds exactly one character between neighbours. */
  lemma {:induction false} JoinSpaceLength(xs: seq<string>)
    requires xs != []
    ensures |Join(xs, " ")| == TotalLength(xs) + |xs| - 1
    decreases |xs|
  {
    if |xs| > 1 {
      JoinSpaceLength(xs[1..]);
    }
  }

  /** A space-joined list is empty exactly when it has no entry or a single empty one. */
  lemma JoinSpaceEmptyIff(xs: seq<string>)
    ensures Join(xs, " ") == "" <==> (xs == [] || xs == [""])
  {
    if xs != [] {
      JoinSpaceLength(xs);
      if |xs| == 1 {
        assert TotalLength(xs) == |xs[0]| by { assert xs[1..] == []; }
        assert xs[0] == "" ==> xs == [""];
      }
    }
  }
}
