/** NUL-terminated C strings held in byte buffers. */
module CStrings {
  import opened Bits

  /** strlen: the number of bytes before the first NUL. The C function reads
      until it finds one, so the buffer must hold one. */
  function Strlen(s: seq<Byte>): (n: nat)
    requires 0 in s
    ensures n < |s| && s[n] == 0
    ensures forall k :: 0 <= k < n ==> s[k] != 0
  {
    if s[0] == 0 then 0 else 1 + Strlen(s[1..])
  }

  /** The first NUL is unique: any position holding a NUL with no NUL before
      it is the length. */
  lemma StrlenIsFirstNul(s: seq<Byte>, n: nat)
    requires n < |s| && s[n] == 0
    requires forall k :: 0 <= k < n ==> s[k] != 0
    ensures Strlen(s) == n
  {
  }
}
