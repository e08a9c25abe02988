/**
 * The C library routines `bzero` and `strcpy` that `main` calls, specified by
 * what they do to a character buffer. CStrLen is the search for the
 * terminator that `strcpy` performs (the value `strlen` would return; the
 * program itself never calls `strlen`). A C `char` buffer is an
 * `array<char>`; only ASCII characters and the terminator NUL occur in the
 * program.
 */
module CString {

  /** The C string terminator. */
  const NUL: char := '\0'

  /** n characters, all NUL: what `bzero` leaves behind. */
  function Zeros(n: nat): seq<char> {
    seq(n, _ => NUL)
  }

  /**
   * The index of the first NUL in s: how far `strcpy` copies before the
   * terminator. The buffer must hold a terminator, as C demands of every
   * string argument.
   */
  function CStrLen(s: seq<char>): (n: nat)
    requires NUL in s
    ensures n < |s| && s[n] == NUL
    ensures forall k :: 0 <= k < n ==> s[k] != NUL
  {
    if s[0] == NUL then 0 else 1 + CStrLen(s[1..])
  }

  /** The C string a terminated buffer holds: its characters before the first NUL. */
  function ReadCString(s: seq<char>): seq<char>
    requires NUL in s
  {
    s[..CStrLen(s)]
  }

  /**
   * The buffer `strcpy(dst, src)` leaves: src up to and including its
   * terminator, then whatever dst held beyond that point.
   */
  function StrcpyResult(dst: seq<char>, src: seq<char>): seq<char>
    requires NUL in src && CStrLen(src) < |dst|
  {
    src[..CStrLen(src) + 1] + dst[CStrLen(src) + 1..]
  }

  /** A string without NUL, terminated, is as long as its characters. */
  lemma {:induction false} CStrLenOfTerminated(s: seq<char>, tail: seq<char>)
    requires NUL !in s
    ensures NUL in s + [NUL] + tail
    ensures CStrLen(s + [NUL] + tail) == |s|
  {
    var t := s + [NUL] + tail;
    assert t[|s|] == NUL;
    assert forall k :: 0 <= k < |s| ==> t[k] == s[k];
  }

  /**
   * `strcpy` of a terminated string: the string and its terminator, then
   * the untouched rest of the destination.
   */
  lemma {:induction false} StrcpyTerminated(dst: seq<char>, s: seq<char>)
    requires NUL !in s && |s| < |dst|
    ensures NUL in s + [NUL] && CStrLen(s + [NUL]) < |dst|
    ensures StrcpyResult(dst, s + [NUL]) == s + [NUL] + dst[|s| + 1..]
  {
  }

  /** Reading back the string that `strcpy` wrote gives the string written. */
  lemma {:induction false} ReadBackAfterStrcpy(dst: seq<char>, s: seq<char>)
    requires NUL !in s && |s| < |dst|
    ensures NUL in s + [NUL] && CStrLen(s + [NUL]) < |dst|
    ensures NUL in StrcpyResult(dst, s + [NUL])
    ensures ReadCString(StrcpyResult(dst, s + [NUL])) == s
  {
    StrcpyTerminated(dst, s);
    CStrLenOfTerminated(s, dst[|s| + 1..]);
  }

  /**
   * Copying a terminated string into a zero-filled buffer leaves the string
   * followed by nothing but NULs up to the buffer's width.
   */
  lemma {:induction false} StrcpyIntoZeros(s: seq<char>, width: nat)
    requires NUL !in s && |s| < width
    ensures NUL in s + [NUL] && CStrLen(s + [NUL]) < width
    ensures StrcpyResult(Zeros(width), s + [NUL]) == s + Zeros(width - |s|)
  {
  }

  /** `bzero(a, n)`: the first n characters of a become NUL, the rest are kept. */
  method Bzero(a: array<char>, n: nat)
    requires n <= a.Length
    modifies a
    ensures a[..] == Zeros(n) + old(a[..])[n..]
  {
    forall k | 0 <= k < n {
      a[k] := NUL;
    }
  }

  /**
   * `strcpy(dst, src)`: src's characters and its terminator are written to
   * the start of dst. C leaves the call undefined when the copy does not fit
   * or the buffers overlap, so both are excluded.
   */
  method Strcpy(dst: array<char>, src: array<char>)
    requires NUL in src[..] && CStrLen(src[..]) < dst.Length
    requires dst != src
    modifies dst
    ensures dst[..] == StrcpyResult(old(dst[..]), src[..])
  {
    var n := CStrLen(src[..]);
    forall k | 0 <= k <= n {
      dst[k] := src[k];
    }
    assert src[..] == old(src[..]);
    assert dst[..] == src[..n + 1] + old(dst[..])[n + 1..];
  }
}
