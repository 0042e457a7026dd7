/**
 * The csync allocation helpers: wrappers over the C allocator that refuse
 * zero-sized requests, and the two string duplicators built on them.
 *
 * Memory is an `array<char>`; a NULL pointer is `null`. A C string handed in
 * by the caller is its characters before the terminating NUL, so it is a
 * `seq<char>` with no NUL in it (`IsCString`). A buffer read back as a C
 * string is measured with `StrLen`, which looks for the first NUL.
 */
module CAlloc {

  const NUL: char := '\0'

  /** The characters of a C string: none of them is the terminator. */
  predicate IsCString(s: seq<char>) {
    forall i :: 0 <= i < |s| ==> s[i] != NUL
  }

  /** `strlen` on a buffer: the index of its first NUL. */
  function StrLen(buf: seq<char>): (n: nat)
    requires NUL in buf
    ensures n < |buf| && buf[n] == NUL
    ensures IsCString(buf[..n])
  {
    if buf[0] == NUL then 0
    else
      assert NUL in buf[1..] by {
        var k :| 0 <= k < |buf| && buf[k] == NUL;
        assert buf[1..][k - 1] == NUL;
      }
      var n := StrLen(buf[1..]);
      assert buf[..n + 1] == [buf[0]] + buf[1..][..n];
      n + 1
  }

  /** A C string followed by its terminator reads back as itself, whatever lies after it. */
  lemma {:induction false} StrLenOfTerminated(s: seq<char>, rest: seq<char>)
    requires IsCString(s)
    ensures NUL in s + [NUL] + rest
    ensures StrLen(s + [NUL] + rest) == |s|
    ensures (s + [NUL] + rest)[..StrLen(s + [NUL] + rest)] == s
  {
    var buf := s + [NUL] + rest;
    assert buf[|s|] == NUL;
    var n := StrLen(buf);
    if n < |s| {
      assert false;
    } else if n > |s| {
      assert false;
    }
    assert buf[..n] == s;
  }

  /** The number of characters `c_strndup` copies: the string's length, cut to `size`. */
  function CopyLength(strLen: nat, size: nat): (len: nat)
    ensures len <= strLen && len <= size
    ensures len == strLen || len == size
  {
    if strLen > size then size else strLen
  }

  /** `c_calloc`: NULL for a zero count or size, otherwise a fresh zero-filled block of `count * size`. */
  method Calloc(count: nat, size: nat) returns (p: array?<char>)
    ensures p == null <==> count == 0 || size == 0
    ensures p != null ==> fresh(p) && p.Length == count * size
    ensures p != null ==> forall i :: 0 <= i < p.Length ==> p[i] == NUL
  {
    if size == 0 || count == 0 {
      return null;
    }
    p := new char[count * size](_ => NUL);
  }

  /** `c_malloc`: NULL for a zero size, otherwise `c_calloc(1, size)`, so the block is zero-filled. */
  method Malloc(size: nat) returns (p: array?<char>)
    ensures p == null <==> size == 0
    ensures p != null ==> fresh(p) && p.Length == size
    ensures p != null ==> forall i :: 0 <= i < p.Length ==> p[i] == NUL
  {
    if size == 0 {
      return null;
    }
    p := Calloc(1, size);
  }

  /**
   * `c_realloc`: the C library's `realloc`. A non-zero size yields a block
   * of that size starting with the old block's contents (as far as both reach);
   * a zero size yields NULL. The block is the old one or a fresh one; for an
   * unchanged size, which of the two is left open, as the C library leaves it.
   * An array cannot change its length, so any other size gives a fresh one,
   * where C's `realloc` may resize the block in place.
   */
  method Realloc(p: array?<char>, size: nat) returns (q: array?<char>)
    ensures q == null <==> size == 0
    ensures q != null ==> q.Length == size
    ensures q != null ==> q == p || fresh(q)
    ensures q != null && p != null ==>
      forall i :: 0 <= i < size && i < p.Length ==> q[i] == p[i]
  {
    if size == 0 {
      return null;
    }
    q := new char[size](_ => NUL);
    if p != null {
      var keep := if p.Length < size then p.Length else size;
      var i := 0;
      while i < keep
        invariant 0 <= i <= keep
        invariant forall j :: 0 <= j < i ==> q[j] == p[j]
      {
        q[i] := p[i];
        i := i + 1;
      }
    }
  }

  /** `strcpy`: the string and its terminator land at the start of `dst`; the rest is untouched. */
  method StrCpy(dst: array<char>, src: seq<char>)
    requires IsCString(src)
    requires |src| < dst.Length
    modifies dst
    ensures dst[..|src| + 1] == src + [NUL]
    ensures dst[|src| + 1..] == old(dst[|src| + 1..])
  {
    var i := 0;
    while i < |src|
      invariant 0 <= i <= |src|
      invariant dst[..i] == src[..i]
      invariant dst[|src| + 1..] == old(dst[|src| + 1..])
    {
      dst[i] := src[i];
      i := i + 1;
    }
    dst[i] := NUL;
  }

  /**
   * `strncpy`: writes exactly `n` characters, those of `src` first and NULs
   * after its end; the rest of `dst` is untouched.
   */
  method StrNCpy(dst: array<char>, src: seq<char>, n: nat)
    requires IsCString(src)
    requires n <= dst.Length
    modifies dst
    ensures forall i :: 0 <= i < n ==> dst[i] == (if i < |src| then src[i] else NUL)
    ensures dst[n..] == old(dst[n..])
  {
    var i := 0;
    while i < n
      invariant 0 <= i <= n
      invariant forall j :: 0 <= j < i ==> dst[j] == (if j < |src| then src[j] else NUL)
      invariant dst[n..] == old(dst[n..])
    {
      dst[i] := if i < |src| then src[i] else NUL;
      i := i + 1;
    }
  }

  /**
   * `c_strdup`: a fresh buffer of `strlen(str) + 1` characters holding the
   * string and its terminator. The request is never zero-sized, so the NULL
   * path of `c_malloc` is not taken.
   */
  method StrDup(str: seq<char>) returns (ret: array<char>)
    requires IsCString(str)
    ensures fresh(ret)
    ensures ret.Length == |str| + 1
    ensures ret[..|str|] == str && ret[|str|] == NUL
    ensures NUL in ret[..] && StrLen(ret[..]) == |str|
  {
    var p := Malloc(|str| + 1);
    ret := p;
    StrCpy(ret, str);
    assert ret[..] == str + [NUL] + [];
    StrLenOfTerminated(str, []);
  }

  /**
   * `c_strndup` as written: it allocates `min(strlen(str), size) + 1`
   * characters but writes the terminator at index `size`. The write is in
   * bounds exactly when `size <= strlen(str)`; otherwise `overrun` reports
   * the write past the end of the buffer, which is not performed here.
   * Because `c_malloc` zero-fills, the buffer is terminated either way.
   */
  method StrNDupAsWritten(str: seq<char>, size: nat) returns (ret: array<char>, overrun: bool)
    requires IsCString(str)
    ensures fresh(ret)
    ensures ret.Length == CopyLength(|str|, size) + 1
    ensures overrun <==> size > |str|
    ensures ret[..CopyLength(|str|, size)] == str[..CopyLength(|str|, size)]
    ensures !overrun ==> ret[..size] == str[..size] && ret[size] == NUL
    ensures ret[ret.Length - 1] == NUL
  {
    var len := |str|;
    if len > size {
      len := size;
    }
    var p := Malloc(len + 1);
    ret := p;
    StrNCpy(ret, str, len);
    overrun := size >= ret.Length;
    if !overrun {
      ret[size] := NUL;
    }
  }

  /**
   * `c_strndup` with the terminator written at `len`, the end of the copy:
   * a fresh buffer holding the first `min(strlen(str), size)` characters of
   * the string, read back as a C string of exactly that length.
   */
  method StrNDup(str: seq<char>, size: nat) returns (ret: array<char>)
    requires IsCString(str)
    ensures fresh(ret)
    ensures ret.Length == CopyLength(|str|, size) + 1
    ensures ret[..CopyLength(|str|, size)] == str[..CopyLength(|str|, size)]
    ensures ret[CopyLength(|str|, size)] == NUL
    ensures NUL in ret[..] && StrLen(ret[..]) == CopyLength(|str|, size)
  {
    var len := |str|;
    if len > size {
      len := size;
    }
    var p := Malloc(len + 1);
    ret := p;
    StrNCpy(ret, str, len);
    ret[len] := NUL;
    assert ret[..len] == str[..len];
    assert ret[..] == str[..len] + [NUL] + [];
    StrLenOfTerminated(str[..len], []);
  }

  /**
   * The terminator write of `c_strndup` as written lands inside its buffer
   * exactly when `size` does not exceed the string's length.
   */
  lemma TerminatorInBoundsIff(strLen: nat, size: nat)
    ensures size < CopyLength(strLen, size) + 1 <==> size <= strLen
  {
  }

  /** A concrete overrun: "ab" with size 3 gets a 3-character buffer, and index 3 is past its end. */
  lemma StrNDupOverrunWitness()
    ensures CopyLength(|"ab"|, 3) + 1 == 3
    ensures !(3 < CopyLength(|"ab"|, 3) + 1)
  {
  }
}
