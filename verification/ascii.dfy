/** Ordinal, ASCII-only case folding, standing in for .NET's OrdinalIgnoreCase comparison. */
module Ascii {

  /** Maps 'A'..'Z' to 'a'..'z' and leaves every other character unchanged. */
  function Lower(c: char): char {
    if 'A' <= c <= 'Z' then (c as int + 32) as char else c
  }

  /** Equal length and equal characters after folding. */
  predicate EqualsIgnoreCase(a: string, b: string) {
    |a| == |b| && forall i :: 0 <= i < |a| ==> Lower(a[i]) == Lower(b[i])
  }
}
