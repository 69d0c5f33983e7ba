/** The upload server's LimitReader: wraps a reader and hands out at most N
    more bytes; once N is used up every Read fails with ErrLargeFile, even
    when the wrapped reader has nothing left. The wrapped reader is the
    bytes it has left plus, per call, how many of them it is willing to
    return. */
module LimitReads {
  import opened Wrappers

  type Byte = bv8

  datatype ReadError = ErrLargeFile | EOF

  function Min(a: int, b: int): int
  {
    if a < b then a else b
  }

  class LimitReader {
    /** What the wrapped reader R has not returned yet. */
    var src: seq<Byte>
    /** N: the bytes still allowed. */
    var n: int
    /** Everything Read has returned so far, oldest first. */
    ghost var delivered: seq<Byte>
    ghost const limit: int
    ghost const original: seq<Byte>

    /** The bytes handed out are a prefix of the wrapped stream, and they
        and N together account for the limit; N only goes below zero when
        the limit did and nothing was read. */
    ghost predicate Valid()
      reads this
    {
      delivered + src == original &&
      |delivered| + n == limit &&
      (n >= 0 || delivered == [])
    }

    /** LimitReads(r, limit). */
    constructor (src: seq<Byte>, limit: int)
      ensures this.src == src && n == limit && delivered == []
      ensures this.limit == limit && original == src && Valid()
    {
      this.src := src;
      n := limit;
      delivered := [];
      this.limit := limit;
      original := src;
    }

    /** Read(p) with len(p) == bufLen; the wrapped reader returns up to
        `chunk` bytes of what it has (EOF when it has nothing). */
    method Read(bufLen: nat, chunk: nat) returns (got: seq<Byte>, err: Option<ReadError>)
      requires Valid()
      modifies this
      ensures Valid()
      ensures old(n) <= 0 ==> got == [] && err == Some(ErrLargeFile) &&
                              src == old(src) && n == old(n) && delivered == old(delivered)
      ensures old(n) > 0 ==> |got| <= bufLen && |got| <= old(n) && n == old(n) - |got| &&
                             got == old(src)[..|got|] && src == old(src)[|got|..] &&
                             delivered == old(delivered) + got
      ensures old(n) > 0 ==> |got| == Min(Min(bufLen, old(n)), Min(chunk, |old(src)|))
      ensures old(n) > 0 ==> (err == Some(EOF) <==> old(src) == []) && (err.Some? ==> err == Some(EOF))
    {
      if n <= 0 {
        return [], Some(ErrLargeFile);
      }
      var want := bufLen;
      if want > n {
        want := n;
      }
      // the wrapped reader
      if src == [] {
        return [], Some(EOF);
      }
      var count := if chunk < want then chunk else want;
      if count > |src| {
        count := |src|;
      }
      got := src[..count];
      err := None;
      assert delivered + got + src[count..] == delivered + src;
      src := src[count..];
      delivered := delivered + got;
      n := n - count;
    }
  }

  /** However the reads went, no more than the limit was handed out. */
  lemma DeliveredWithinLimit(r: LimitReader)
    requires r.Valid()
    ensures |r.delivered| <= (if r.limit > 0 then r.limit else 0)
    ensures |r.delivered| <= |r.original|
  {
    assert |r.delivered + r.src| == |r.delivered| + |r.src|;
  }

  /** Once the whole limit has been read, N is used up, so the next Read
      fails with ErrLargeFile whatever the wrapped reader has left. */
  lemma ExhaustedAtLimit(r: LimitReader)
    requires r.Valid() && |r.delivered| == r.limit
    ensures r.n <= 0
  {
  }

  /** A ten-byte body with a ten-byte limit: one read returns it all, and
      the next read reports ErrLargeFile rather than EOF. */
  method ExactLimitScenario(body: seq<Byte>) returns (first: seq<Byte>, second: Option<ReadError>)
    requires |body| == 10
    ensures first == body && second == Some(ErrLargeFile)
  {
    var r := new LimitReader(body, 10);
    var e1;
    first, e1 := r.Read(32 * 1024, 32 * 1024);
    var rest;
    rest, second := r.Read(32 * 1024, 32 * 1024);
  }
}
