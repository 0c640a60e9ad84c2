/** Types shared by the models of the app-server client and of the analytics crate. */
module Common {

  datatype Option<+T> = None | Some(value: T)

  /** A JSON-RPC request id of the app-server protocol: a string or an integer. */
  datatype RequestId = StringId(text: string) | IntegerId(number: int)

  function Min(a: nat, b: nat): (m: nat) {
    if a <= b then a else b
  }

  /** Appending one element and then dropping the last gives the sequence back. */
  lemma AppendThenTake<T>(s: seq<T>, x: T)
    ensures (s + [x])[..|s|] == s && (s + [x])[|s|] == x
  {
  }

  /** A string that differs from a prefix at some place does not start with it. */
  lemma NotAPrefix(p: string, i: nat, s: string)
    requires i < |p| && (i >= |s| || s[i] != p[i])
    ensures !(p <= s)
  {
  }
}
