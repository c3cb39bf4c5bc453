/** The option type shared by every module: a nullable database column or an
    absent argument. */
module Wrappers {

  datatype Option<+T> = None | Some(value: T)

  function Min(a: int, b: int): int { if a <= b then a else b }

  function Max(a: int, b: int): int { if a >= b then a else b }

  /** Lower case, for the ASCII letters. */
  function LowerChar(c: char): char { if 'A' <= c <= 'Z' then c + 'a' - 'A' else c }

  function Lower(s: string): (t: string)
    ensures |t| == |s|
  {
    seq(|s|, i requires 0 <= i < |s| => LowerChar(s[i]))
  }
}
