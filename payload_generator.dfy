/** `nulls(l)`: the filler bodies of every request and of the expected large reply. */
module PayloadGenerator {
  import opened Wrappers
  import opened Messages

  /**
   * The message `nulls` raises for a negative length. It is a single-quoted
   * Ruby literal, so `#{l}` stays as written and does not show the length.
   */
  const NullsError: string := "requires #{l} to be +ve"

  /** `c * n` on a one-character string: the template `'x' * l`. */
  function Repeat(c: char, n: nat): (t: string)
    ensures |t| == n
    ensures forall i :: 0 <= i < n ==> t[i] == c
  {
    if n == 0 then "" else Repeat(c, n - 1) + [c]
  }

  /**
   * `[].pack(t)` for a template made only of `x` directives: each `x` emits
   * one NUL byte and consumes nothing from the (empty) array.
   */
  function PackNullDirectives(t: string): (r: seq<byte>)
    requires forall i :: 0 <= i < |t| ==> t[i] == 'x'
    ensures |r| == |t|
    ensures forall i :: 0 <= i < |r| ==> r[i] == 0
  {
    if t == "" then [] else [0 as byte] + PackNullDirectives(t[1..])
  }

  /** `nulls(l)`: raises for a negative `l`, otherwise `l` NUL bytes. */
  function Nulls(l: int): (r: Result<seq<byte>, string>)
    ensures r.Failure? <==> l < 0
    ensures r.Failure? ==> r.error == NullsError
    ensures r.Success? ==> |r.value| == l && forall i :: 0 <= i < l ==> r.value[i] == 0
  {
    if l < 0 then Failure(NullsError) else Success(PackNullDirectives(Repeat('x', l)))
  }

  /**
   * `nulls(l)` is the one all-NUL string of length `l`: two calls with the
   * same length agree byte for byte, and a body equals `nulls(l)` exactly
   * when it has length `l` and holds only NUL bytes.
   */
  lemma NullsIsTheAllNulString(l: nat, s: seq<byte>)
    ensures Nulls(l) == Success(s) <==> |s| == l && forall i :: 0 <= i < |s| ==> s[i] == 0
  {
    if |s| == l && forall i :: 0 <= i < |s| ==> s[i] == 0 {
      var n := Nulls(l).value;
      assert forall i :: 0 <= i < |s| ==> s[i] == n[i];
      assert s == n;
    }
  }

  /** The error does not depend on how negative the length was. */
  lemma NullsErrorIgnoresLength(a: int, b: int)
    requires a < 0 && b < 0
    ensures Nulls(a) == Nulls(b) == Failure(NullsError)
  {
  }
}
