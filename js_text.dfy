/**
 * JavaScript strings as the token layer sees them: sequences of UTF-16 code units,
 * with the few String operations it uses (`split`, truthiness, char codes).
 */
module JsText {
  import opened Wrappers

  /** One UTF-16 code unit, the value `charCodeAt` returns. */
  type CodeUnit = bv16

  /** A JavaScript string. */
  type JsStr = seq<CodeUnit>

  const Dot: CodeUnit := 0x2E

  /** Every code unit fits in one byte: the strings `btoa` accepts. */
  predicate Latin1(s: JsStr) {
    forall i :: 0 <= i < |s| ==> s[i] < 0x100
  }

  /** Every code unit is a 7-bit ASCII code. */
  predicate Ascii(s: JsStr) {
    forall i :: 0 <= i < |s| ==> s[i] < 0x80
  }

  /** JavaScript truthiness of a `string | null`: present and not the empty string. */
  predicate Truthy<T>(s: Option<seq<T>>) {
    s.Some? && |s.value| > 0
  }

  /** The JavaScript string with the code units of an ASCII Dafny string. */
  function FromAscii(s: string): (r: JsStr)
    requires forall i :: 0 <= i < |s| ==> s[i] as int < 0x80
    ensures |r| == |s| && Ascii(r)
  {
    if |s| == 0 then [] else [s[0] as bv16] + FromAscii(s[1..])
  }

  /** Number of occurrences of `sep` in `s`. */
  function Occurrences(s: JsStr, sep: CodeUnit): nat {
    if |s| == 0 then 0
    else (if s[0] == sep then 1 else 0) + Occurrences(s[1..], sep)
  }

  /**
   * `s.split(sep)` for a one-unit separator: the maximal runs between separators, in order;
   * the empty string splits into one empty part.
   */
  function Split(s: JsStr, sep: CodeUnit): (parts: seq<JsStr>)
    ensures |parts| >= 1
    ensures forall k :: 0 <= k < |parts| ==> sep !in parts[k]
  {
    if |s| == 0 then [[]]
    else
      var rest := Split(s[1..], sep);
      if s[0] == sep then [[]] + rest
      else [[s[0]] + rest[0]] + rest[1..]
  }

  /** `parts.join(sep)`. */
  function Join(parts: seq<JsStr>, sep: CodeUnit): JsStr {
    if |parts| == 0 then []
    else if |parts| == 1 then parts[0]
    else parts[0] + [sep] + Join(parts[1..], sep)
  }

  /** Splitting yields one part more than there are separators. */
  lemma {:induction false} SplitLength(s: JsStr, sep: CodeUnit)
    ensures |Split(s, sep)| == Occurrences(s, sep) + 1
  {
    if |s| > 0 {
      SplitLength(s[1..], sep);
    }
  }

  /** Joining the parts of a split with the same separator gives the string back. */
  lemma {:induction false} SplitJoin(s: JsStr, sep: CodeUnit)
    ensures Join(Split(s, sep), sep) == s
  {
    if |s| > 0 {
      var rest := Split(s[1..], sep);
      SplitJoin(s[1..], sep);
      if s[0] == sep {
        assert Split(s, sep) == [[]] + rest;
        assert s == [sep] + s[1..];
      } else {
        var parts := Split(s, sep);
        assert parts == [[s[0]] + rest[0]] + rest[1..];
        if |rest| == 1 {
          assert Join(rest, sep) == rest[0];
        } else {
          assert parts[1..] == rest[1..];
          assert Join(rest, sep) == rest[0] + [sep] + Join(rest[1..], sep);
        }
        assert s == [s[0]] + s[1..];
      }
    }
  }
}
