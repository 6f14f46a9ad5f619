/** Types shared by the whole model. */
module Common {

  /** The character that ends a C string. */
  const NUL: char := 0 as char

  datatype Option<+T> = None | Some(value: T)

  /** A process identity: the pid together with the signature that qualifies it.
      Pids are recycled by the system; a pair (pid, signature) never is. */
  datatype Ident = Ident(pid: int, signature: string)

  function Repeat<T>(x: T, n: nat): (s: seq<T>)
    ensures |s| == n && forall i :: 0 <= i < n ==> s[i] == x
  {
    if n == 0 then [] else [x] + Repeat(x, n - 1)
  }
}
