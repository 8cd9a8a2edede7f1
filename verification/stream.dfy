/**
 * The output file stream the writer works through: a byte buffer and a put
 * cursor. Writing at the cursor overwrites the bytes already there and extends
 * the buffer past its end; seeking moves the cursor within the buffer.
 */
module OutputStream {
  import opened Bytes
  import opened Seqs

  /** The largest position a `std::streampos` can hold (2^63 - 1). */
  const MaxStreamPos: nat := 0x7FFF_FFFF_FFFF_FFFF

  /** The buffer `d` after writing `b` at position `p`. */
  function Overwrite(d: seq<Byte>, p: nat, b: seq<Byte>): (r: seq<Byte>)
    requires p <= |d|
    ensures |r| == if p + |b| <= |d| then |d| else p + |b|
  {
    d[..p] + b + (if p + |b| < |d| then d[p + |b|..] else [])
  }

  /** Writing changes only the bytes written: those before stay, `b` is in place, those after stay. */
  lemma {:induction false} OverwriteFrame(d: seq<Byte>, p: nat, b: seq<Byte>)
    requires p <= |d|
    ensures Overwrite(d, p, b)[..p] == d[..p]
    ensures Window(Overwrite(d, p, b), p, b)
    ensures p + |b| <= |d| ==> Overwrite(d, p, b)[p + |b|..] == d[p + |b|..]
  {
    var r := Overwrite(d, p, b);
    assert r[p..p + |b|] == b;
  }

  /** Writing at the end of the buffer appends. */
  lemma {:induction false} OverwriteAtEnd(d: seq<Byte>, b: seq<Byte>)
    ensures Overwrite(d, |d|, b) == d + b
  {
  }

  /** Overwriting the bytes `x` that follow a prefix `p` with as many new ones replaces exactly them. */
  lemma {:induction false} OverwriteAfterPrefix(p: seq<Byte>, x: seq<Byte>, y: seq<Byte>, rest: seq<Byte>)
    requires |x| == |y|
    ensures Overwrite(p + x + rest, |p|, y) == p + y + rest
  {
    var d := p + x + rest;
    assert d[..|p|] == p;
    if |p| + |y| < |d| {
      assert d[|p| + |y|..] == rest;
    }
  }

  /**
   * A backpatch inside the buffer changes only the bytes it writes: every
   * window of the old buffer that does not overlap them is still there.
   */
  lemma {:induction false} OverwriteKeepsWindow(d: seq<Byte>, q: nat, b: seq<Byte>, p: nat, w: seq<Byte>)
    requires q + |b| <= |d| && Window(d, p, w)
    requires p + |w| <= q || q + |b| <= p
    ensures Window(Overwrite(d, q, b), p, w)
  {
    var r := Overwrite(d, q, b);
    OverwriteFrame(d, q, b);
    if p + |w| <= q {
      assert r[p..p + |w|] == r[..q][p..p + |w|] == d[..q][p..p + |w|] == d[p..p + |w|];
    } else {
      assert r[p..p + |w|] == r[q + |b|..][p - q - |b|..p + |w| - q - |b|];
      assert d[p..p + |w|] == d[q + |b|..][p - q - |b|..p + |w| - q - |b|];
    }
  }

  /**
   * Backpatching a placeholder that follows a prefix, after more bytes were
   * appended: exactly the placeholder is replaced.
   */
  lemma {:induction false} SlotBackpatched(f: seq<Byte>, zero: seq<Byte>, body: seq<Byte>, a: seq<Byte>, b: seq<Byte>, slot: seq<Byte>)
    requires |zero| == |slot|
    ensures Overwrite(f + (zero + body) + a + b, |f|, slot) == f + (slot + body + a + b)
  {
    Assoc(f, zero, body);
    Assoc4(f + zero, body, a, b);
    OverwriteAfterPrefix(f, zero, slot, body + a + b);
    Assoc4(slot, body, a, b);
    Assoc(f, slot, body + a + b);
  }

  /** Models `std::ofstream` opened for binary output, as the writer uses it. */
  class OutStream {
    var data: seq<Byte>
    var pos: nat
    var isOpen: bool
    /** The object whose member this stream is; ties a stream to one writer. */
    ghost var owner: object?

    ghost predicate Valid()
      reads this
    {
      pos <= |data| <= MaxStreamPos
    }

    /** A freshly opened, empty file. */
    constructor Open()
      ensures Valid() && data == [] && pos == 0 && isOpen && owner == null
    {
      data, pos, isOpen, owner := [], 0, true, null;
    }

    /** `write`: puts `bytes` at the cursor and advances it; a closed stream takes nothing. */
    method Write(bytes: seq<Byte>)
      requires Valid()
      requires isOpen ==> pos + |bytes| <= MaxStreamPos
      modifies this
      ensures Valid() && isOpen == old(isOpen) && owner == old(owner)
      ensures old(isOpen) ==> data == Overwrite(old(data), old(pos), bytes) && pos == old(pos) + |bytes|
      ensures old(isOpen) && old(pos) == |old(data)| ==> data == old(data) + bytes
      ensures !old(isOpen) ==> data == old(data) && pos == old(pos)
    {
      if isOpen {
        OverwriteAtEnd(data, bytes);
        data := Overwrite(data, pos, bytes);
        pos := pos + |bytes|;
      }
    }

    /** `seekp(p)`: moves the cursor to an absolute position inside the file. */
    method Seek(p: nat)
      requires Valid() && p <= |data|
      modifies this
      ensures Valid() && pos == p
      ensures data == old(data) && isOpen == old(isOpen) && owner == old(owner)
    {
      pos := p;
    }

    /** `seekp(0, std::ios::end)`: moves the cursor to the end of the file. */
    method SeekEnd()
      requires Valid()
      modifies this
      ensures Valid() && pos == |data|
      ensures data == old(data) && isOpen == old(isOpen) && owner == old(owner)
    {
      pos := |data|;
    }

    /** `close`: the file keeps its bytes and takes no more writes. */
    method Close()
      requires Valid()
      modifies this
      ensures Valid() && !isOpen
      ensures data == old(data) && pos == old(pos) && owner == old(owner)
    {
      isOpen := false;
    }
  }
}
