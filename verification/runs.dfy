/** Runs of fixed-size records laid out back to back in a byte sequence, for
    any record type: the shape shared by the sector, wall and sprite arrays
    of a map file. A record type is given by its decoder, which reads one
    record of `size` bytes at an offset, and by its encoder. */
module Runs {
  import opened ByteOrder

  /** `dec` can read a record from any `size` bytes of input. */
  ghost predicate Decodes<T>(dec: (seq<uint8>, nat) --> T, size: nat) {
    forall b: seq<uint8>, x: nat {:trigger dec.requires(b, x)} :: x + size <= |b| ==> dec.requires(b, x)
  }

  /** `dec` reads only the `size` bytes of its record. */
  ghost predicate Local<T>(dec: (seq<uint8>, nat) --> T, size: nat)
    requires Decodes(dec, size)
  {
    forall b: seq<uint8>, k: nat, x: nat {:trigger dec(b[..k], x)} ::
      x + size <= k <= |b| ==> dec(b[..k], x) == dec(b, x)
  }

  /** `dec` reads back what `enc` writes, wherever it sits in a stream, and
      `enc` always writes `size` bytes. */
  ghost predicate Inverts<T(!new)>(dec: (seq<uint8>, nat) --> T, enc: T -> seq<uint8>, size: nat)
    requires Decodes(dec, size)
  {
    (forall v :: |enc(v)| == size) &&
    forall p: seq<uint8>, v: T, q: seq<uint8> {:trigger dec(p + enc(v) + q, |p|)} ::
      |enc(v)| == size ==> dec(p + enc(v) + q, |p|) == v
  }

  lemma MulStep(size: nat, n: nat)
    requires n > 0
    ensures size * n == size * (n - 1) + size
  {
  }

  lemma MulMono(size: nat, i: nat, n: nat)
    requires i <= n
    ensures size * i <= size * n
  {
  }

  /** `n` records decoded back to back from offset `at`, in stream order. */
  function RecordsAt<T>(dec: (seq<uint8>, nat) --> T, size: nat, b: seq<uint8>, at: nat, n: nat): (rs: seq<T>)
    requires Decodes(dec, size) && at + size * n <= |b|
    ensures |rs| == n
  {
    seq(n, i requires 0 <= i < n => MulMono(size, i + 1, n); dec(b, at + size * i))
  }

  /** A run of `n` records is the run of its first `n - 1` followed by the last. */
  lemma RecordsAtSnoc<T>(dec: (seq<uint8>, nat) --> T, size: nat, b: seq<uint8>, at: nat, n: nat)
    requires Decodes(dec, size) && at + size * n <= |b| && n > 0
    ensures at + size * (n - 1) + size <= |b|
    ensures RecordsAt(dec, size, b, at, n) == RecordsAt(dec, size, b, at, n - 1) + [dec(b, at + size * (n - 1))]
  {
    MulStep(size, n);
    MulMono(size, n - 1, n);
  }

  /** The bytes of records written back to back. */
  function EncodeAll<T(!new)>(enc: T -> seq<uint8>, size: nat, rs: seq<T>): (e: seq<uint8>)
    requires forall v :: |enc(v)| == size
    ensures |e| == size * |rs|
  {
    if |rs| == 0 then []
    else
      MulStep(size, |rs|);
      EncodeAll(enc, size, rs[..|rs| - 1]) + enc(rs[|rs| - 1])
  }

  /** The `i`-th record of a run starts `size * i` bytes into it. */
  lemma RecordsAtIndex<T>(dec: (seq<uint8>, nat) --> T, size: nat, b: seq<uint8>, at: nat, n: nat, i: nat)
    requires Decodes(dec, size) && at + size * n <= |b| && i < n
    ensures at + size * i + size <= |b|
    ensures RecordsAt(dec, size, b, at, n)[i] == dec(b, at + size * i)
  {
    MulMono(size, i + 1, n);
  }

  /** A run reads only its own bytes: cutting the input after them changes nothing. */
  lemma RecordsAtPrefix<T>(dec: (seq<uint8>, nat) --> T, size: nat, b: seq<uint8>, k: nat, at: nat, n: nat)
    requires Decodes(dec, size) && Local(dec, size) && at + size * n <= k <= |b|
    ensures RecordsAt(dec, size, b[..k], at, n) == RecordsAt(dec, size, b, at, n)
  {
    forall i | 0 <= i < n
      ensures RecordsAt(dec, size, b[..k], at, n)[i] == RecordsAt(dec, size, b, at, n)[i]
    {
      MulMono(size, i + 1, n);
    }
  }

  /** Records written back to back anywhere in a stream read back in order. */
  lemma {:induction false} RecordsRoundTrip<T(!new)>(dec: (seq<uint8>, nat) --> T, enc: T -> seq<uint8>, size: nat,
                                               p: seq<uint8>, rs: seq<T>, q: seq<uint8>)
    requires Decodes(dec, size) && Inverts(dec, enc, size)
    ensures |p| + size * |rs| <= |p + EncodeAll(enc, size, rs) + q|
    ensures RecordsAt(dec, size, p + EncodeAll(enc, size, rs) + q, |p|, |rs|) == rs
  {
    if |rs| > 0 {
      var init, last := rs[..|rs| - 1], rs[|rs| - 1];
      MulStep(size, |rs|);
      assert p + EncodeAll(enc, size, rs) + q == p + EncodeAll(enc, size, init) + (enc(last) + q);
      RecordsRoundTrip(dec, enc, size, p, init, enc(last) + q);
      RecordsAtSnoc(dec, size, p + EncodeAll(enc, size, rs) + q, |p|, |rs|);
      assert p + EncodeAll(enc, size, rs) + q == (p + EncodeAll(enc, size, init)) + enc(last) + q;
      assert dec((p + EncodeAll(enc, size, init)) + enc(last) + q, |p + EncodeAll(enc, size, init)|) == last;
      assert rs == init + [last];
    }
  }
}
