/** The single-file container hls.go writes, at the level of bytes: how a
    write at an offset changes a file (os.File.WriteAt / Write), the index
    layout (hls.go:18-29, 224-226, 265-267, 282-289) and a reader for it. */
module Container {
  import opened Base

  function Zeros(n: nat): (z: seq<byte>)
    ensures |z| == n && forall i :: 0 <= i < n ==> z[i] == 0
  {
    seq(n, _ => 0)
  }

  /** The bytes of a file after writing byte `b` at offset `p`: a write
      beyond the end fills the gap with zeros first. */
  function Put(s: seq<byte>, p: nat, b: byte): (r: seq<byte>)
    ensures |r| == if p < |s| then |s| else p + 1
  {
    if p < |s| then s[p := b] else s + Zeros(p - |s|) + [b]
  }

  /** The bytes of a file after writing `d[k..]` at offset `p + k`, byte by
      byte. */
  function WriteFrom(s: seq<byte>, p: nat, d: seq<byte>, k: nat): (r: seq<byte>)
    requires k <= |d|
    ensures k == |d| ==> r == s
    ensures k < |d| ==> |r| == if p + |d| <= |s| then |s| else p + |d|
    decreases |d| - k
  {
    if k == |d| then s else WriteFrom(Put(s, p + k, d[k]), p, d, k + 1)
  }

  /** The bytes of a file after writing `d` at offset `p`; an empty write
      changes nothing. */
  function Overwrite(s: seq<byte>, p: nat, d: seq<byte>): (r: seq<byte>)
    ensures |d| == 0 ==> r == s
    ensures |d| > 0 ==> |r| == if p + |d| <= |s| then |s| else p + |d|
  {
    WriteFrom(s, p, d, 0)
  }

  /** Each byte after writing `d[k..]`: the written byte inside the range,
      the old byte outside it, zero in a gap the write opened. */
  lemma {:induction false} WriteFromBytes(s: seq<byte>, p: nat, d: seq<byte>, k: nat)
    requires k <= |d|
    ensures forall i :: 0 <= i < |WriteFrom(s, p, d, k)| ==>
      WriteFrom(s, p, d, k)[i] == if p + k <= i < p + |d| then d[i - p] else if i < |s| then s[i] else 0
    decreases |d| - k
  {
    if k < |d| {
      var t := Put(s, p + k, d[k]);
      WriteFromBytes(t, p, d, k + 1);
      forall i | 0 <= i < |WriteFrom(s, p, d, k)|
        ensures WriteFrom(s, p, d, k)[i] == if p + k <= i < p + |d| then d[i - p] else if i < |s| then s[i] else 0
      {
        if i != p + k && i < |t| {
          assert t[i] == if i < |s| then s[i] else 0;
        }
      }
    }
  }

  /** Each byte after a write: the written byte inside the range, the old
      byte outside it, zero in a gap the write opened. */
  lemma OverwriteBytes(s: seq<byte>, p: nat, d: seq<byte>)
    ensures forall i :: 0 <= i < |Overwrite(s, p, d)| ==>
      Overwrite(s, p, d)[i] == if p <= i < p + |d| then d[i - p] else if i < |s| then s[i] else 0
  {
    WriteFromBytes(s, p, d, 0);
  }

  /** The file holds `d` at offset `p`. */
  predicate Holds(s: seq<byte>, p: nat, d: seq<byte>)
  {
    |d| == 0 || (p + |d| <= |s| && forall i :: 0 <= i < |d| ==> d[i] == s[p + i])
  }

  /** One byte of a range the file holds. */
  lemma HoldsAt(s: seq<byte>, p: nat, d: seq<byte>, i: nat)
    requires Holds(s, p, d) && i < |d|
    ensures p + i < |s| && s[p + i] == d[i]
  {
  }

  /** Every byte of [p, p + w) that the file has is zero. */
  predicate ZeroAt(s: seq<byte>, p: nat, w: nat)
  {
    forall i :: p <= i < p + w && i < |s| ==> s[i] == 0
  }

  /** Two byte ranges, [p, p + n) and [q, q + m), that do not overlap. */
  predicate Apart(p: nat, n: nat, q: nat, m: nat)
  {
    p + n <= q || q + m <= p
  }

  /** Writes made one after the other, each an offset and the bytes written
      there. */
  function Apply(s: seq<byte>, ws: seq<(nat, seq<byte>)>): (r: seq<byte>)
    ensures |r| >= |s|
    decreases |ws|
  {
    if ws == [] then s
    else Overwrite(Apply(s, ws[..|ws| - 1]), ws[|ws| - 1].0, ws[|ws| - 1].1)
  }

  /** One more write after a list of writes. */
  lemma ApplyLast(s: seq<byte>, ws: seq<(nat, seq<byte>)>, w: (nat, seq<byte>))
    ensures Apply(s, ws + [w]) == Overwrite(Apply(s, ws), w.0, w.1)
  {
    assert (ws + [w])[..|ws|] == ws;
  }

  /** Writing never shrinks a file, leaves what lies outside the written range
      as it was, and puts the written bytes in place. */
  lemma WriteFrame(s: seq<byte>, p: nat, d: seq<byte>, q: nat, e: seq<byte>)
    requires Holds(s, q, e)
    requires q + |e| <= p || p + |d| <= q
    ensures Holds(Overwrite(s, p, d), q, e) && Holds(Overwrite(s, p, d), p, d)
    ensures |Overwrite(s, p, d)| >= |s|
  {
    var r := Overwrite(s, p, d);
    OverwriteBytes(s, p, d);
    assert |r| >= |s|;
    forall i | 0 <= i < |e| ensures q + i < |r| && e[i] == r[q + i] {
      HoldsAt(s, q, e, i);
    }
    forall i | 0 <= i < |d| ensures p + i < |r| && d[i] == r[p + i] {
    }
    assert Holds(r, p, d);
  }

  /** A write outside [q, q + w) leaves that range zero. */
  lemma WriteKeepsZero(s: seq<byte>, p: nat, d: seq<byte>, q: nat, w: nat)
    requires ZeroAt(s, q, w)
    requires q + w <= p || p + |d| <= q
    ensures ZeroAt(Overwrite(s, p, d), q, w)
  {
    OverwriteBytes(s, p, d);
  }

  /** The output file (os.File): its bytes and the offset the next Write
      starts at. Writes do not fail in the model. */
  class OutFile {
    var data: seq<byte>
    var cursor: nat

    constructor ()
      ensures data == [] && cursor == 0
    {
      data := [];
      cursor := 0;
    }

    /** Write: the bytes go at the cursor, which moves past them. */
    method Write(d: seq<byte>) returns (n: nat)
      modifies this
      ensures data == Overwrite(old(data), old(cursor), d) && cursor == old(cursor) + |d| && n == |d|
    {
      data := Overwrite(data, cursor, d);
      cursor := cursor + |d|;
      n := |d|;
    }

    /** WriteAt: the bytes go at `p`; the cursor stays. */
    method WriteAt(d: seq<byte>, p: nat)
      modifies this`data
      ensures data == Overwrite(old(data), p, d)
    {
      data := Overwrite(data, p, d);
    }

    /** Truncate(0): the file is emptied; the cursor stays. */
    method Truncate()
      modifies this`data
      ensures data == []
    {
      data := [];
    }

    /** Seek(p, io.SeekStart). */
    method Seek(p: nat)
      modifies this`cursor
      ensures cursor == p
    {
      cursor := p;
    }
  }

  // ---------------------------------------------------------------------------
  // The index
  // ---------------------------------------------------------------------------

  /** 'H', 'L', 'S' and the format version 1. */
  const Magic: seq<byte> := [72, 76, 83, 1]

  /** The first four bytes are not the magic (yet). */
  predicate Unmarked(s: seq<byte>)
  {
    |s| < 4 || s[..4] != Magic
  }

  /** The offset of the index entry of stream `n`. */
  function EntryAt(n: nat): nat { 32 + 16 * n }

  /** The size of the header of a container with `count` entries. */
  function HeaderSize(count: nat): nat { 32 + 16 * count }

  /** The index entry at `at` gives offset `pos`, `flags` and the length of
      `data` (each as Go truncates it), and the file holds `data` at `pos`. */
  predicate Indexed(s: seq<byte>, at: nat, pos: nat, flags: nat, data: seq<byte>)
  {
    && Holds(s, at, BE64(pos))
    && Holds(s, at + 8, BE32(flags))
    && Holds(s, at + 12, BE32(|data|))
    && Holds(s, pos, data)
  }

  /** An indexed file that lies within the file, even when it is empty. */
  predicate Stored(s: seq<byte>, at: nat, pos: nat, flags: nat, data: seq<byte>)
  {
    Indexed(s, at, pos, flags, data) && pos + |data| <= |s|
  }

  /** A write that misses an index entry and its data keeps them. */
  lemma IndexedFrame(s: seq<byte>, p: nat, d: seq<byte>, at: nat, pos: nat, flags: nat, data: seq<byte>)
    requires Indexed(s, at, pos, flags, data)
    requires p + |d| <= at || at + 16 <= p
    requires p + |d| <= pos || pos + |data| <= p
    ensures Indexed(Overwrite(s, p, d), at, pos, flags, data)
  {
    WriteFrame(s, p, d, at, BE64(pos));
    WriteFrame(s, p, d, at + 8, BE32(flags));
    WriteFrame(s, p, d, at + 12, BE32(|data|));
    WriteFrame(s, p, d, pos, data);
  }

  /** Four zero bytes in the file read as the 32-bit value 0. */
  lemma ZeroField(s: seq<byte>, p: nat)
    requires ZeroAt(s, p, 4) && p + 4 <= |s|
    ensures Holds(s, p, BE32(0))
  {
    assert BE32(0) == [0, 0, 0, 0];
  }

  /** A file whose first bytes are zero is not marked. */
  lemma ZeroUnmarked(s: seq<byte>)
    requires ZeroAt(s, 0, 32)
    ensures Unmarked(s)
  {
    if |s| >= 4 {
      assert s[3] == 0 && Magic[3] == 1;
    }
  }

  /** The total length of entries [from, to). */
  function Span(entries: seq<(seq<byte>, nat)>, from: nat, to: nat): nat
    requires from <= to <= |entries|
  {
    if from == to then 0 else Span(entries, from, to - 1) + |entries[to - 1].0|
  }

  /** Where hls.go places entry `n`: the media entries (from `firstMedia` on)
      follow the header in entry order, the playlists (before `firstMedia`)
      follow the media, and the master comes last. */
  function Offset(entries: seq<(seq<byte>, nat)>, firstMedia: nat, n: nat): nat
    requires firstMedia <= |entries| && n <= |entries|
  {
    var h := HeaderSize(|entries|);
    if n >= firstMedia then h + Span(entries, firstMedia, n)
    else h + Span(entries, firstMedia, |entries|) + Span(entries, 0, n)
  }

  /** Where the master playlist goes: right after the header and every entry. */
  function MasterAt(entries: seq<(seq<byte>, nat)>): nat
  {
    HeaderSize(|entries|) + Span(entries, 0, |entries|)
  }

  /** A finished container: the magic, the entry count, the timestamp, the
      master (playlist flags) and every entry stored at its place. */
  predicate Packed(s: seq<byte>, firstMedia: nat, entries: seq<(seq<byte>, nat)>, master: seq<byte>, now: int)
    requires firstMedia <= |entries|
  {
    && |s| >= 4 && s[..4] == Magic
    && Holds(s, 8, BE32(|entries|))
    && Holds(s, 12, BE32(now))
    && Stored(s, 16, MasterAt(entries), 0, master)
    && forall n :: 0 <= n < |entries| ==> Stored(s, EntryAt(n), Offset(entries, firstMedia, n), entries[n].1, entries[n].0)
  }

  lemma {:induction false} SpanSplit(entries: seq<(seq<byte>, nat)>, a: nat, b: nat, c: nat)
    requires a <= b <= c <= |entries|
    ensures Span(entries, a, c) == Span(entries, a, b) + Span(entries, b, c)
    decreases c
  {
    if b < c {
      SpanSplit(entries, a, b, c - 1);
    }
  }

  /** A media entry ends where the next media entry begins. */
  lemma OffsetNext(entries: seq<(seq<byte>, nat)>, firstMedia: nat, n: nat)
    requires firstMedia <= n < |entries|
    ensures Offset(entries, firstMedia, n + 1) == Offset(entries, firstMedia, n) + |entries[n].0|
  {
    assert Span(entries, firstMedia, n + 1) == Span(entries, firstMedia, n) + |entries[n].0|;
  }

  /** A longer range of entries is no shorter. */
  lemma SpanMono(entries: seq<(seq<byte>, nat)>, a: nat, b: nat, c: nat)
    requires a <= b <= c <= |entries|
    ensures Span(entries, a, b) <= Span(entries, a, c)
  {
    SpanSplit(entries, a, b, c);
  }

  /** The placement never overlaps: the data of distinct entries occupy
      disjoint ranges, all after the header and before the master. */
  lemma LayoutDisjoint(entries: seq<(seq<byte>, nat)>, firstMedia: nat, n: nat, m: nat)
    requires firstMedia <= |entries| && n < m < |entries|
    ensures var h := HeaderSize(|entries|);
      && var on := Offset(entries, firstMedia, n);
      && var om := Offset(entries, firstMedia, m);
      && h <= on && h <= om
      && (on + |entries[n].0| <= om || om + |entries[m].0| <= on)
      && on + |entries[n].0| <= h + Span(entries, 0, |entries|)
      && om + |entries[m].0| <= h + Span(entries, 0, |entries|)
  {
    var k := |entries|;
    SpanSplit(entries, 0, firstMedia, k);
    if n >= firstMedia {
      SpanSplit(entries, firstMedia, n, m);
      SpanSplit(entries, n, n + 1, m);
      SpanSplit(entries, firstMedia, m, k);
      SpanSplit(entries, m, m + 1, k);
    } else if m >= firstMedia {
      SpanSplit(entries, 0, n, firstMedia);
      SpanSplit(entries, n, n + 1, firstMedia);
      SpanSplit(entries, firstMedia, m, k);
      SpanSplit(entries, m, m + 1, k);
    } else {
      SpanSplit(entries, 0, n, m);
      SpanSplit(entries, n, n + 1, m);
      SpanSplit(entries, 0, m, firstMedia);
      SpanSplit(entries, m, m + 1, firstMedia);
    }
  }

  // ---------------------------------------------------------------------------
  // Reading a container back
  // ---------------------------------------------------------------------------

  /** The big-endian number of `w` bytes at `p`. */
  function Field(s: seq<byte>, p: nat, w: nat): nat
    requires p + w <= |s|
  {
    FromBigEndian(s[p..p + w])
  }

  /** The flags and data of the file whose index entry is at `at`, or None
      when the entry or the data lies outside the file. */
  function ReadEntry(s: seq<byte>, at: nat): Option<(seq<byte>, nat)>
  {
    if at + 16 > |s| then None
    else
      var pos, flags, ln := Field(s, at, 8), Field(s, at + 8, 4), Field(s, at + 12, 4);
      if pos + ln > |s| then None else Some((s[pos..pos + ln], flags))
  }

  /** A range the file holds, read as a slice. */
  lemma HoldsSlice(s: seq<byte>, p: nat, d: seq<byte>)
    requires Holds(s, p, d) && |d| > 0
    ensures p + |d| <= |s| && s[p..p + |d|] == d
  {
    HoldsAt(s, p, d, |d| - 1);
    forall i | 0 <= i < |d| ensures s[p..p + |d|][i] == d[i] {
      HoldsAt(s, p, d, i);
    }
  }

  /** Writes that all miss a range keep what it holds. */
  lemma {:induction false} ApplyMisses(s: seq<byte>, ws: seq<(nat, seq<byte>)>, q: nat, e: seq<byte>)
    requires Holds(s, q, e)
    requires forall i :: 0 <= i < |ws| ==> Apart(ws[i].0, |ws[i].1|, q, |e|)
    ensures Holds(Apply(s, ws), q, e)
    decreases |ws|
  {
    if ws != [] {
      var k := |ws| - 1;
      ApplyMisses(s, ws[..k], q, e);
      WriteFrame(Apply(s, ws[..k]), ws[k].0, ws[k].1, q, e);
    }
  }

  /** A write that no later write overlaps is in the file at the end. */
  lemma {:induction false} ApplyWritten(s: seq<byte>, ws: seq<(nat, seq<byte>)>, k: nat)
    requires k < |ws|
    requires forall i :: k < i < |ws| ==> Apart(ws[i].0, |ws[i].1|, ws[k].0, |ws[k].1|)
    ensures Holds(Apply(s, ws), ws[k].0, ws[k].1)
    decreases |ws|
  {
    var n := |ws| - 1;
    var t := Apply(s, ws[..n]);
    if k == n {
      WriteFrame(t, ws[k].0, ws[k].1, 0, []);
    } else {
      assert ws[..n][k] == ws[k];
      ApplyWritten(s, ws[..n], k);
      WriteFrame(t, ws[n].0, ws[n].1, ws[k].0, ws[k].1);
    }
  }

  /** Writes that all miss a range keep it zero. */
  lemma {:induction false} ApplyKeepsZero(s: seq<byte>, ws: seq<(nat, seq<byte>)>, q: nat, w: nat)
    requires ZeroAt(s, q, w)
    requires forall i :: 0 <= i < |ws| ==> Apart(ws[i].0, |ws[i].1|, q, w)
    ensures ZeroAt(Apply(s, ws), q, w)
    decreases |ws|
  {
    if ws != [] {
      var k := |ws| - 1;
      ApplyKeepsZero(s, ws[..k], q, w);
      WriteKeepsZero(Apply(s, ws[..k]), ws[k].0, ws[k].1, q, w);
    }
  }

  /** Writes that miss an index entry and its data keep them. */
  lemma {:induction false} ApplyIndexed(s: seq<byte>, ws: seq<(nat, seq<byte>)>,
                                        at: nat, pos: nat, flags: nat, data: seq<byte>)
    requires Indexed(s, at, pos, flags, data)
    requires forall i :: 0 <= i < |ws| ==> Apart(ws[i].0, |ws[i].1|, at, 16) && Apart(ws[i].0, |ws[i].1|, pos, |data|)
    ensures Indexed(Apply(s, ws), at, pos, flags, data)
    decreases |ws|
  {
    if ws != [] {
      var k := |ws| - 1;
      ApplyIndexed(s, ws[..k], at, pos, flags, data);
      IndexedFrame(Apply(s, ws[..k]), ws[k].0, ws[k].1, at, pos, flags, data);
    }
  }

  /** A 64-bit field holding a value that fits reads back as that value. */
  lemma ReadField64(s: seq<byte>, at: nat, v: nat)
    requires Holds(s, at, BE64(v)) && v < U64
    ensures at + 8 <= |s| && Field(s, at, 8) == v
  {
    HoldsSlice(s, at, BE64(v));
    BE64RoundTrip(v);
  }

  /** A 32-bit field holding a value that fits reads back as that value. */
  lemma ReadField32(s: seq<byte>, at: nat, v: nat)
    requires Holds(s, at, BE32(v)) && v < U32
    ensures at + 4 <= |s| && Field(s, at, 4) == v
  {
    HoldsSlice(s, at, BE32(v));
    BE32RoundTrip(v);
  }

  /** A stored file whose offset and length fit their fields reads back. */
  lemma ReadStored(s: seq<byte>, at: nat, pos: nat, flags: nat, data: seq<byte>)
    requires Stored(s, at, pos, flags, data)
    requires pos < U64 && |data| < U32 && flags < U32
    ensures ReadEntry(s, at) == Some((data, flags))
  {
    ReadField64(s, at, pos);
    ReadField32(s, at + 8, flags);
    ReadField32(s, at + 12, |data|);
    if |data| > 0 {
      HoldsSlice(s, pos, data);
    }
  }

  /** The reader of a container: its entries (data and flags, in index
      order) and its master playlist, or None when it is not marked
      finished or an entry lies outside it. */
  function Unpack(s: seq<byte>): (r: Option<(seq<(seq<byte>, nat)>, seq<byte>)>)
  {
    if |s| < 32 || s[..4] != Magic then None
    else
      var count := Field(s, 8, 4);
      match ReadEntry(s, 16)
      case None => None
      case Some(m) =>
        match ReadEntries(s, count)
        case None => None
        case Some(es) => Some((es, m.0))
  }

  /** The first `count` entries of the index. */
  function ReadEntries(s: seq<byte>, count: nat): (r: Option<seq<(seq<byte>, nat)>>)
    ensures r.Some? ==> |r.value| == count
    ensures r.Some? ==> forall n :: 0 <= n < count ==> ReadEntry(s, EntryAt(n)) == Some(r.value[n])
  {
    if count == 0 then Some([])
    else
      match ReadEntries(s, count - 1)
      case None => None
      case Some(es) =>
        match ReadEntry(s, EntryAt(count - 1))
        case None => None
        case Some(e) => Some(es + [e])
  }

  lemma {:induction false} ReadEntriesStored(s: seq<byte>, count: nat, es: seq<(seq<byte>, nat)>)
    requires |es| == count
    requires forall n :: 0 <= n < count ==> ReadEntry(s, EntryAt(n)) == Some(es[n])
    ensures ReadEntries(s, count) == Some(es)
  {
    if count > 0 {
      ReadEntriesStored(s, count - 1, es[..count - 1]);
      assert es[..count - 1] + [es[count - 1]] == es;
    }
  }

  /** Reading a finished container gives back exactly the entries and the
      master that were packed, when the file is below 4 GiB so that every
      offset and length fits its field. */
  lemma UnpackPacked(s: seq<byte>, firstMedia: nat, entries: seq<(seq<byte>, nat)>, master: seq<byte>, now: int)
    requires firstMedia <= |entries|
    requires Packed(s, firstMedia, entries, master, now)
    requires |s| < U32
    requires forall n :: 0 <= n < |entries| ==> entries[n].1 < U32
    ensures Unpack(s) == Some((entries, master))
  {
    var k := |entries|;
    PackedHeader(s, firstMedia, entries, master, now);
    ReadStored(s, 16, MasterAt(entries), 0, master);
    forall n | 0 <= n < k ensures ReadEntry(s, EntryAt(n)) == Some(entries[n]) {
      var o := Offset(entries, firstMedia, n);
      assert Stored(s, EntryAt(n), o, entries[n].1, entries[n].0);
      ReadStored(s, EntryAt(n), o, entries[n].1, entries[n].0);
    }
    ReadEntriesStored(s, k, entries);
  }

  /** The fixed part of a finished container reads back. */
  lemma PackedHeader(s: seq<byte>, firstMedia: nat, entries: seq<(seq<byte>, nat)>, master: seq<byte>, now: int)
    requires firstMedia <= |entries|
    requires Packed(s, firstMedia, entries, master, now)
    requires |s| < U32
    ensures |s| >= 32 && s[..4] == Magic && Field(s, 8, 4) == |entries| && |entries| < U32
  {
    var k := |entries|;
    assert Holds(s, 28, BE32(|master|));
    if k > 0 {
      assert Stored(s, EntryAt(k - 1), Offset(entries, firstMedia, k - 1), entries[k - 1].1, entries[k - 1].0);
    }
    CountField(s, k, |master|, if k > 0 then Offset(entries, firstMedia, k - 1) else 0);
  }

  lemma CountField(s: seq<byte>, k: nat, ln: nat, last: nat)
    requires Holds(s, 8, BE32(k)) && Holds(s, 28, BE32(ln))
    requires k > 0 ==> Holds(s, EntryAt(k - 1), BE64(last))
    requires |s| < U32
    ensures |s| >= 32 && Field(s, 8, 4) == k && k < U32
  {
    HoldsSlice(s, 28, BE32(ln));
    if k > 0 {
      HoldsSlice(s, EntryAt(k - 1), BE64(last));
    }
    ReadField32(s, 8, k);
  }
}
