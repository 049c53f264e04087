/** The container builder of hls.go and stream.go: the hlsBuilder object,
    which numbers the output streams, copies files into the output file and
    assembles the single-file HLS container in build. */
module Hls {
  import opened Base
  import opened Container
  import opened HlsTags
  import opened HlsPlan
  import opened Probe
  import opened VSize

  // ---------------------------------------------------------------------------
  // The output file while build runs
  // ---------------------------------------------------------------------------

  /** The three writes of a media index entry (hls.go:224-226): offset, flags,
      length. */
  function EntryWrites(s: seq<byte>, at: nat, pos: nat, flags: nat, ln: nat): seq<byte>
  {
    Overwrite(Overwrite(Overwrite(s, at, BE64(pos)), at + 8, BE32(flags)), at + 12, BE32(ln))
  }

  /** The two writes of a playlist index entry (hls.go:265-267): offset and
      length; the flags stay zero. */
  function ListWrites(s: seq<byte>, at: nat, pos: nat, ln: nat): seq<byte>
  {
    Overwrite(Overwrite(s, at, BE64(pos)), at + 12, BE32(ln))
  }

  /** Index writes into one slot keep every other slot and all data past the index. */
  lemma EntryWritesFrame(s: seq<byte>, at: nat, pos: nat, flags: nat, ln: nat,
                         at': nat, pos': nat, flags': nat, data': seq<byte>)
    requires Indexed(s, at', pos', flags', data')
    requires at + 16 <= at' || at' + 16 <= at
    requires at + 16 <= pos'
    ensures Indexed(EntryWrites(s, at, pos, flags, ln), at', pos', flags', data')
    ensures Indexed(ListWrites(s, at, pos, ln), at', pos', flags', data')
  {
    var s1 := Overwrite(s, at, BE64(pos));
    var s2 := Overwrite(s1, at + 8, BE32(flags));
    IndexedFrame(s, at, BE64(pos), at', pos', flags', data');
    IndexedFrame(s1, at + 8, BE32(flags), at', pos', flags', data');
    IndexedFrame(s2, at + 12, BE32(ln), at', pos', flags', data');
    IndexedFrame(s1, at + 12, BE32(ln), at', pos', flags', data');
  }

  /** The index writes of a slot whose data lies past it index that data. */
  lemma EntryWritesNew(s: seq<byte>, at: nat, pos: nat, flags: nat, d: seq<byte>)
    requires Holds(s, pos, d) && at + 16 <= pos
    ensures Indexed(EntryWrites(s, at, pos, flags, |d|), at, pos, flags, d)
    ensures |EntryWrites(s, at, pos, flags, |d|)| >= at + 16
    ensures |EntryWrites(s, at, pos, flags, |d|)| >= |s|
  {
    var s1 := Overwrite(s, at, BE64(pos));
    var s2 := Overwrite(s1, at + 8, BE32(flags));
    WriteFrame(s, at, BE64(pos), pos, d);
    WriteFrame(s1, at + 8, BE32(flags), pos, d);
    WriteFrame(s1, at + 8, BE32(flags), at, BE64(pos));
    WriteFrame(s2, at + 12, BE32(|d|), pos, d);
    WriteFrame(s2, at + 12, BE32(|d|), at, BE64(pos));
    WriteFrame(s2, at + 12, BE32(|d|), at + 8, BE32(flags));
  }

  /** The same for a playlist slot whose flags are still zero. */
  lemma ListWritesNew(s: seq<byte>, at: nat, pos: nat, d: seq<byte>)
    requires Holds(s, pos, d) && at + 16 <= pos && ZeroAt(s, at, 16)
    ensures Indexed(ListWrites(s, at, pos, |d|), at, pos, 0, d)
    ensures |ListWrites(s, at, pos, |d|)| >= at + 16
    ensures |ListWrites(s, at, pos, |d|)| >= |s|
  {
    var s1 := Overwrite(s, at, BE64(pos));
    var s2 := Overwrite(s1, at + 12, BE32(|d|));
    WriteFrame(s, at, BE64(pos), pos, d);
    WriteFrame(s1, at + 12, BE32(|d|), pos, d);
    WriteFrame(s1, at + 12, BE32(|d|), at, BE64(pos));
    WriteKeepsZero(s, at, BE64(pos), at + 8, 4);
    WriteKeepsZero(s1, at + 12, BE32(|d|), at + 8, 4);
    ZeroField(s2, at + 8);
  }

  /** Appending data at `cursor` and then indexing it in slot `at` keeps an
      entry whose slot differs and whose data ends before the cursor. */
  lemma CopyKeeps(s: seq<byte>, cursor: nat, d: seq<byte>, at: nat, flags: nat,
                  at': nat, pos': nat, flags': nat, data': seq<byte>)
    requires Indexed(s, at', pos', flags', data')
    requires at' + 16 <= at || at + 16 <= at'
    requires at' + 16 <= cursor && at + 16 <= pos' && pos' + |data'| <= cursor
    ensures Indexed(EntryWrites(Overwrite(s, cursor, d), at, cursor, flags, |d|), at', pos', flags', data')
    ensures Indexed(ListWrites(Overwrite(s, cursor, d), at, cursor, |d|), at', pos', flags', data')
  {
    IndexedFrame(s, cursor, d, at', pos', flags', data');
    EntryWritesFrame(Overwrite(s, cursor, d), at, cursor, flags, |d|, at', pos', flags', data');
  }

  /** Index writes leave zero whatever lies outside their slot. */
  lemma EntryWritesZero(s: seq<byte>, at: nat, pos: nat, flags: nat, ln: nat, q: nat, w: nat)
    requires ZeroAt(s, q, w) && (q + w <= at || at + 16 <= q)
    ensures ZeroAt(EntryWrites(s, at, pos, flags, ln), q, w)
    ensures ZeroAt(ListWrites(s, at, pos, ln), q, w)
  {
    var s1 := Overwrite(s, at, BE64(pos));
    var s2 := Overwrite(s1, at + 8, BE32(flags));
    WriteKeepsZero(s, at, BE64(pos), q, w);
    WriteKeepsZero(s1, at + 8, BE32(flags), q, w);
    WriteKeepsZero(s2, at + 12, BE32(ln), q, w);
    WriteKeepsZero(s1, at + 12, BE32(ln), q, w);
  }

  /** The output file after the first `m` media entries are copied: the
      cursor is past their data, each is indexed in its slot, and the
      fixed header and the playlist slots are still zero. */
  ghost predicate Layout(m: nat, P: nat, es: seq<(seq<byte>, nat)>, s: seq<byte>, cursor: nat)
  {
    && P + m <= |es|
    && cursor == Offset(es, P, P + m)
    && (cursor <= |s| || cursor == HeaderSize(|es|))
    && (m > 0 ==> |s| >= HeaderSize(P + m))
    && (forall j :: P <= j < P + m ==> Indexed(s, EntryAt(j), Offset(es, P, j), es[j].1, es[j].0))
    && ZeroAt(s, 0, 32)
    && (forall j :: 0 <= j < P ==> ZeroAt(s, EntryAt(j), 16))
  }

  /** Right after the output file is emptied and the cursor set past the
      index, no entry is copied yet. */
  lemma LayoutStart(P: nat, es: seq<(seq<byte>, nat)>)
    requires P <= |es|
    ensures Layout(0, P, es, [], HeaderSize(|es|))
  {
  }

  /** Copying the next media entry (hls.go:216-227) keeps the layout. */
  lemma LayoutStep(m: nat, P: nat, es: seq<(seq<byte>, nat)>, s: seq<byte>, cursor: nat)
    requires Layout(m, P, es, s, cursor) && P + m < |es|
    ensures var n := P + m;
      Layout(m + 1, P, es, EntryWrites(Overwrite(s, cursor, es[n].0), EntryAt(n), cursor, es[n].1, |es[n].0|),
             cursor + |es[n].0|)
  {
    var n := P + m;
    var d := es[n].0;
    var s1 := Overwrite(s, cursor, d);
    var s4 := EntryWrites(s1, EntryAt(n), cursor, es[n].1, |d|);
    LayoutStepOld(n, P, es, s, cursor, d, es[n].1);
    LayoutStepZero(n, P, s, cursor, d, es[n].1);
    WriteFrame(s, cursor, d, 0, []);
    EntryWritesNew(s1, EntryAt(n), cursor, es[n].1, d);
    OffsetNext(es, P, n);
    assert |s1| >= |s| && (|d| > 0 ==> |s1| >= cursor + |d|);
    var c4 := cursor + |d|;
    assert P + (m + 1) == n + 1;
    assert c4 == Offset(es, P, P + (m + 1));
    assert c4 <= |s4| || c4 == HeaderSize(|es|);
    assert |s4| >= HeaderSize(P + (m + 1));
    IndexedExtend(s4, P, n, es);
    assert Layout(m + 1, P, es, s4, c4);
  }

  lemma IndexedExtend(s: seq<byte>, P: nat, n: nat, es: seq<(seq<byte>, nat)>)
    requires P <= n < |es|
    requires forall j :: P <= j < n ==> Indexed(s, EntryAt(j), Offset(es, P, j), es[j].1, es[j].0)
    requires Indexed(s, EntryAt(n), Offset(es, P, n), es[n].1, es[n].0)
    ensures forall j :: P <= j < n + 1 ==> Indexed(s, EntryAt(j), Offset(es, P, j), es[j].1, es[j].0)
  {
  }

  /** The entries copied before keep their index and data. */
  lemma LayoutStepOld(n: nat, P: nat, es: seq<(seq<byte>, nat)>, s: seq<byte>, cursor: nat, d: seq<byte>, flags: nat)
    requires P <= n < |es| && cursor == Offset(es, P, n)
    requires forall j :: P <= j < n ==> Indexed(s, EntryAt(j), Offset(es, P, j), es[j].1, es[j].0)
    ensures forall j :: P <= j < n ==>
      Indexed(EntryWrites(Overwrite(s, cursor, d), EntryAt(n), cursor, flags, |d|), EntryAt(j), Offset(es, P, j), es[j].1, es[j].0)
  {
    forall j | P <= j < n
      ensures Indexed(EntryWrites(Overwrite(s, cursor, d), EntryAt(n), cursor, flags, |d|), EntryAt(j), Offset(es, P, j), es[j].1, es[j].0)
    {
      MediaEnd(es, P, j, n);
      CopyKeeps(s, cursor, d, EntryAt(n), flags, EntryAt(j), Offset(es, P, j), es[j].1, es[j].0);
    }
  }

  /** A media entry lies past the index and ends where the next begins. */
  lemma MediaEnd(es: seq<(seq<byte>, nat)>, P: nat, j: nat, n: nat)
    requires P <= j < n <= |es|
    ensures HeaderSize(|es|) <= Offset(es, P, j)
    ensures Offset(es, P, j) + |es[j].0| <= Offset(es, P, n)
  {
    SpanMono(es, P, j + 1, n);
  }

  /** The fixed header and the playlist slots stay zero. */
  lemma LayoutStepZero(n: nat, P: nat, s: seq<byte>, cursor: nat, d: seq<byte>, flags: nat)
    requires P <= n && EntryAt(n) + 16 <= cursor
    requires ZeroAt(s, 0, 32) && forall j :: 0 <= j < P ==> ZeroAt(s, EntryAt(j), 16)
    ensures var s4 := EntryWrites(Overwrite(s, cursor, d), EntryAt(n), cursor, flags, |d|);
      ZeroAt(s4, 0, 32) && forall j :: 0 <= j < P ==> ZeroAt(s4, EntryAt(j), 16)
  {
    var s1 := Overwrite(s, cursor, d);
    forall j | 0 <= j < P ensures ZeroAt(EntryWrites(s1, EntryAt(n), cursor, flags, |d|), EntryAt(j), 16) {
      WriteKeepsZero(s, cursor, d, EntryAt(j), 16);
      EntryWritesZero(s1, EntryAt(n), cursor, flags, |d|, EntryAt(j), 16);
    }
    WriteKeepsZero(s, cursor, d, 0, 32);
    EntryWritesZero(s1, EntryAt(n), cursor, flags, |d|, 0, 32);
  }

  /** The output file after the media and the first `n` sub-playlists are
      written (hls.go:259-269). */
  ghost predicate Listing(n: nat, P: nat, es: seq<(seq<byte>, nat)>, s: seq<byte>, cursor: nat)
  {
    && n <= P <= |es|
    && cursor == HeaderSize(|es|) + Span(es, P, |es|) + Span(es, 0, n)
    && (cursor <= |s| || cursor == HeaderSize(|es|))
    && (P < |es| ==> |s| >= HeaderSize(|es|))
    && (n > 0 ==> |s| >= HeaderSize(n))
    && (forall j :: 0 <= j < |es| && (j < n || P <= j) ==> Indexed(s, EntryAt(j), Offset(es, P, j), es[j].1, es[j].0))
    && ZeroAt(s, 0, 32)
    && (forall j :: n <= j < P ==> ZeroAt(s, EntryAt(j), 16))
  }

  /** Once every media entry is copied, the playlists start at the cursor. */
  lemma ListingStart(P: nat, es: seq<(seq<byte>, nat)>, s: seq<byte>, cursor: nat)
    requires P <= |es| && Layout(|es| - P, P, es, s, cursor)
    ensures Listing(0, P, es, s, cursor)
  {
  }

  /** Writing the next sub-playlist (flags 0) and its index entry keeps the
      layout. */
  lemma ListingStep(n: nat, P: nat, es: seq<(seq<byte>, nat)>, s: seq<byte>, cursor: nat)
    requires Listing(n, P, es, s, cursor) && n < P && es[n].1 == 0
    ensures Listing(n + 1, P, es, ListWrites(Overwrite(s, cursor, es[n].0), EntryAt(n), cursor, |es[n].0|),
                    cursor + |es[n].0|)
  {
    var d := es[n].0;
    var s1 := Overwrite(s, cursor, d);
    ListingStepOld(n, P, es, s, cursor, d);
    ListingStepZero(n, P, s, cursor, d);
    WriteFrame(s, cursor, d, 0, []);
    WriteKeepsZero(s, cursor, d, EntryAt(n), 16);
    ListWritesNew(s1, EntryAt(n), cursor, d);
    assert |s1| >= |s| && (|d| > 0 ==> |s1| >= cursor + |d|);
    assert cursor == Offset(es, P, n);
    var s3 := ListWrites(s1, EntryAt(n), cursor, |d|);
    var c3 := cursor + |d|;
    assert Span(es, 0, n + 1) == Span(es, 0, n) + |d|;
    assert c3 == HeaderSize(|es|) + Span(es, P, |es|) + Span(es, 0, n + 1);
    ListedExtend(s3, P, n, es);
    assert c3 <= |s3| || c3 == HeaderSize(|es|);
    assert |s3| >= HeaderSize(n + 1) && |s3| >= |s|;
    assert Listing(n + 1, P, es, s3, c3);
  }

  lemma ListedExtend(s: seq<byte>, P: nat, n: nat, es: seq<(seq<byte>, nat)>)
    requires n < P <= |es|
    requires forall j :: 0 <= j < |es| && (j < n || P <= j) ==> Indexed(s, EntryAt(j), Offset(es, P, j), es[j].1, es[j].0)
    requires Indexed(s, EntryAt(n), Offset(es, P, n), es[n].1, es[n].0)
    ensures forall j :: 0 <= j < |es| && (j < n + 1 || P <= j) ==> Indexed(s, EntryAt(j), Offset(es, P, j), es[j].1, es[j].0)
  {
  }

  lemma ListingStepOld(n: nat, P: nat, es: seq<(seq<byte>, nat)>, s: seq<byte>, cursor: nat, d: seq<byte>)
    requires n < P <= |es| && cursor == HeaderSize(|es|) + Span(es, P, |es|) + Span(es, 0, n)
    requires forall j :: 0 <= j < |es| && (j < n || P <= j) ==> Indexed(s, EntryAt(j), Offset(es, P, j), es[j].1, es[j].0)
    ensures forall j :: 0 <= j < |es| && (j < n || P <= j) ==>
      Indexed(ListWrites(Overwrite(s, cursor, d), EntryAt(n), cursor, |d|), EntryAt(j), Offset(es, P, j), es[j].1, es[j].0)
  {
    forall j | 0 <= j < |es| && (j < n || P <= j)
      ensures Indexed(ListWrites(Overwrite(s, cursor, d), EntryAt(n), cursor, |d|), EntryAt(j), Offset(es, P, j), es[j].1, es[j].0)
    {
      EntryEnd(es, P, j, n);
      CopyKeeps(s, cursor, d, EntryAt(n), 0, EntryAt(j), Offset(es, P, j), es[j].1, es[j].0);
    }
  }

  /** Every entry placed so far lies past the index and ends before the
      playlists still to be written. */
  lemma EntryEnd(es: seq<(seq<byte>, nat)>, P: nat, j: nat, n: nat)
    requires n <= P <= |es| && j < |es| && (j < n || P <= j)
    ensures HeaderSize(|es|) <= Offset(es, P, j)
    ensures Offset(es, P, j) + |es[j].0| <= HeaderSize(|es|) + Span(es, P, |es|) + Span(es, 0, n)
  {
    if j < n {
      SpanMono(es, 0, j + 1, n);
    } else {
      SpanMono(es, P, j + 1, |es|);
    }
  }

  lemma ListingStepZero(n: nat, P: nat, s: seq<byte>, cursor: nat, d: seq<byte>)
    requires n < P && EntryAt(P) <= cursor
    requires ZeroAt(s, 0, 32) && forall j :: n <= j < P ==> ZeroAt(s, EntryAt(j), 16)
    ensures var s3 := ListWrites(Overwrite(s, cursor, d), EntryAt(n), cursor, |d|);
      ZeroAt(s3, 0, 32) && forall j :: n + 1 <= j < P ==> ZeroAt(s3, EntryAt(j), 16)
  {
    var s1 := Overwrite(s, cursor, d);
    forall j | n + 1 <= j < P ensures ZeroAt(ListWrites(s1, EntryAt(n), cursor, |d|), EntryAt(j), 16) {
      WriteKeepsZero(s, cursor, d, EntryAt(j), 16);
      EntryWritesZero(s1, EntryAt(n), cursor, 0, |d|, EntryAt(j), 16);
    }
    WriteKeepsZero(s, cursor, d, 0, 32);
    EntryWritesZero(s1, EntryAt(n), cursor, 0, |d|, 0, 32);
  }

  /** The last writes of build (hls.go:272-289): the master after the
      playlists, the count, the time, the master's offset and length, and
      the magic; they finish the container. */
  function FinishWrites(cursor: nat, count: nat, master: seq<byte>, now: int): seq<(nat, seq<byte>)>
  {
    [(cursor, master), (8, BE32(count)), (12, BE32(now)), (16, BE64(cursor)), (28, BE32(|master|)), (0, Magic)]
  }

  function Finish(s: seq<byte>, cursor: nat, count: nat, master: seq<byte>, now: int): seq<byte>
  {
    Apply(s, FinishWrites(cursor, count, master, now))
  }

  /** The last writes, one after the other. */
  lemma FinishSteps(s: seq<byte>, cursor: nat, count: nat, master: seq<byte>, now: int)
    ensures Finish(s, cursor, count, master, now) ==
      Overwrite(Overwrite(Overwrite(Overwrite(Overwrite(Overwrite(
        s, cursor, master), 8, BE32(count)), 12, BE32(now)), 16, BE64(cursor)), 28, BE32(|master|)), 0, Magic)
  {
    var ws := FinishWrites(cursor, count, master, now);
    assert ws[..0] == [];
    ApplyLast(s, ws[..0], ws[0]);
    assert ws[..1] == ws[..0] + [ws[0]];
    ApplyLast(s, ws[..1], ws[1]);
    assert ws[..2] == ws[..1] + [ws[1]];
    ApplyLast(s, ws[..2], ws[2]);
    assert ws[..3] == ws[..2] + [ws[2]];
    ApplyLast(s, ws[..3], ws[3]);
    assert ws[..4] == ws[..3] + [ws[3]];
    ApplyLast(s, ws[..4], ws[4]);
    assert ws[..5] == ws[..4] + [ws[4]];
    ApplyLast(s, ws[..5], ws[5]);
    assert ws == ws[..5] + [ws[5]];
  }

  /** When every sub-playlist is written, the master goes right after the
      last one, at the end of all entries. */
  lemma ListingDone(P: nat, es: seq<(seq<byte>, nat)>, s: seq<byte>, cursor: nat)
    requires Listing(P, P, es, s, cursor)
    ensures cursor == MasterAt(es)
    ensures cursor <= |s| || cursor <= 32
  {
    SpanSplit(es, 0, P, |es|);
    if |es| > 0 && P == |es| {
      assert |s| >= HeaderSize(P);
    }
  }

  lemma FinishPacked(P: nat, es: seq<(seq<byte>, nat)>, s: seq<byte>, cursor: nat, master: seq<byte>, now: int)
    requires P <= |es| && cursor == HeaderSize(|es|) + Span(es, P, |es|) + Span(es, 0, P)
    requires cursor == MasterAt(es) && (cursor <= |s| || cursor <= 32)
    requires ZeroAt(s, 0, 32)
    requires forall j :: 0 <= j < |es| && (j < P || P <= j) ==> Indexed(s, EntryAt(j), Offset(es, P, j), es[j].1, es[j].0)
    ensures Packed(Finish(s, cursor, |es|, master, now), P, es, master, now)
  {
    var r := Finish(s, cursor, |es|, master, now);
    FinishHeader(s, cursor, |es|, master, now, r);
    FinishEntries(P, es, s, cursor, master, now, r);
    PackedOf(r, P, es, master, now);
  }

  /** The conditions of Packed, gathered on a finished file. */
  lemma PackedOf(r: seq<byte>, P: nat, es: seq<(seq<byte>, nat)>, master: seq<byte>, now: int)
    requires P <= |es| && |r| >= 4 && r[..4] == Magic
    requires Holds(r, 8, BE32(|es|)) && Holds(r, 12, BE32(now))
    requires Stored(r, 16, MasterAt(es), 0, master)
    requires forall j :: 0 <= j < |es| ==> Stored(r, EntryAt(j), Offset(es, P, j), es[j].1, es[j].0)
    ensures Packed(r, P, es, master, now)
  {
  }

  /** The fixed header of a finished container. */
  lemma FinishHeader(s: seq<byte>, cursor: nat, count: nat, master: seq<byte>, now: int, r: seq<byte>)
    requires ZeroAt(s, 0, 32) && 32 <= cursor && (cursor <= |s| || cursor <= 32)
    requires r == Finish(s, cursor, count, master, now)
    ensures |r| >= 4 && r[..4] == Magic
      && Holds(r, 8, BE32(count)) && Holds(r, 12, BE32(now))
      && Stored(r, 16, cursor, 0, master)
  {
    var ws := FinishWrites(cursor, count, master, now);
    ApplyWritten(s, ws, 0);
    ApplyWritten(s, ws, 1);
    ApplyWritten(s, ws, 2);
    ApplyWritten(s, ws, 3);
    ApplyWritten(s, ws, 4);
    ApplyWritten(s, ws, 5);
    ApplyKeepsZero(s, ws, 24, 4);
    HoldsAt(r, 28, BE32(|master|), 3);
    ZeroField(r, 24);
    HoldsSlice(r, 0, Magic);
    if master != [] {
      HoldsAt(r, cursor, master, |master| - 1);
    }
  }

  /** The last writes keep every entry, which all end before the master. */
  lemma FinishEntries(P: nat, es: seq<(seq<byte>, nat)>, s: seq<byte>, cursor: nat, master: seq<byte>, now: int, r: seq<byte>)
    requires P <= |es| && cursor == HeaderSize(|es|) + Span(es, P, |es|) + Span(es, 0, P)
    requires r == Finish(s, cursor, |es|, master, now) && cursor <= |r|
    requires forall j :: 0 <= j < |es| && (j < P || P <= j) ==> Indexed(s, EntryAt(j), Offset(es, P, j), es[j].1, es[j].0)
    ensures forall j :: 0 <= j < |es| ==> Stored(r, EntryAt(j), Offset(es, P, j), es[j].1, es[j].0)
  {
    forall j | 0 <= j < |es|
      ensures Stored(r, EntryAt(j), Offset(es, P, j), es[j].1, es[j].0)
    {
      EntryEnd(es, P, j, P);
      FinishKeeps(s, cursor, |es|, master, now, EntryAt(j), Offset(es, P, j), es[j].1, es[j].0);
    }
  }

  lemma FinishKeeps(s: seq<byte>, cursor: nat, count: nat, master: seq<byte>, now: int,
                    at: nat, pos: nat, flags: nat, data: seq<byte>)
    requires Indexed(s, at, pos, flags, data) && 32 <= at && at + 16 <= pos && pos + |data| <= cursor
    ensures Indexed(Finish(s, cursor, count, master, now), at, pos, flags, data)
  {
    ApplyIndexed(s, FinishWrites(cursor, count, master, now), at, pos, flags, data);
  }

  // ---------------------------------------------------------------------------
  // The bookkeeping of the media loop (hls.go:207-248)
  // ---------------------------------------------------------------------------

  /** A file copied into the output: where it starts and how long it is. */
  datatype FileInfo = FileInfo(pos: nat, ln: nat)

  /** The media entries of the container, slot by slot after the P playlists. */
  ghost predicate MediaSlots(P: nat, order: seq<string>, dir: map<string, seq<byte>>, es: seq<(seq<byte>, nat)>)
  {
    && P + |order| == |es|
    && forall k :: 0 <= k < |order| ==> es[P + k] == (Media(dir, order[k]), Flag(order[k]))
  }

  /** The media loop after visiting the references `done`: each name visited
      has its slot and every other name still has the map's zero value, the
      counter is the next free slot, the copied files are exactly the names
      visited, and each of them could be stored. */
  ghost predicate Tracked(done: seq<string>, uf: map<string, int>, cnt: int, P: nat, order: seq<string>,
                          dir: map<string, seq<byte>>, files: map<string, FileInfo>)
  {
    TrackedAs(done, Dedup(done), uf, cnt, P, order, dir, files)
  }

  /** Tracked, with the first-reference order `D` of `done` given. */
  ghost predicate TrackedAs(done: seq<string>, D: seq<string>, uf: map<string, int>, cnt: int, P: nat,
                            order: seq<string>, dir: map<string, seq<byte>>, files: map<string, FileInfo>)
  {
    && D <= order
    && cnt == P + |D|
    && (forall x :: x in done ==> x in uf)
    && (forall x :: x in uf ==> uf[x] == if x in done then P + IndexOf(order, x) else 0)
    && (forall x :: x in files <==> x in done)
    && (forall k :: 0 <= k < |D| ==> MediaError(dir, order[k]).None?)
  }

  /** Visiting one more reference: a name seen before changes nothing, a new
      one is the next name of the first-reference order. */
  lemma NextRef(done: seq<string>, fn: string, refs: seq<string>)
    requires done + [fn] <= refs
    ensures Dedup(done) <= Dedup(refs)
    ensures fn in done ==> Dedup(done + [fn]) == Dedup(done)
    ensures fn !in done ==> Dedup(done + [fn]) == Dedup(done) + [fn]
    ensures fn !in done ==> |Dedup(done)| < |Dedup(refs)| && Dedup(refs)[|Dedup(done)|] == fn
    ensures fn !in done ==> IndexOf(Dedup(refs), fn) == |Dedup(done)|
  {
    var rest := refs[|done| + 1..];
    assert refs == (done + [fn]) + rest;
    DedupPrefix(done + [fn], rest);
    assert (done + [fn])[..|done|] == done;
    DedupElements(done);
    var D := Dedup(done);
    var order := Dedup(refs);
    if fn !in done {
      assert Dedup(done + [fn]) == D + [fn];
      assert order[|D|] == fn;
    }
  }

  lemma TrackNew(done: seq<string>, fn: string, refs: seq<string>, uf: map<string, int>, cnt: int, P: nat,
                 dir: map<string, seq<byte>>, files: map<string, FileInfo>, info: FileInfo)
    requires done + [fn] <= refs && Tracked(done, uf, cnt, P, Dedup(refs), dir, files)
    requires fn !in done && MediaError(dir, fn).None?
    ensures cnt == P + IndexOf(Dedup(refs), fn) == P + |Dedup(done)|
    ensures Tracked(done + [fn], uf[fn := cnt], cnt + 1, P, Dedup(refs), dir, files[fn := info])
  {
    NextRef(done, fn, refs);
    TrackNewAs(done, fn, Dedup(done), Dedup(refs), uf, cnt, P, dir, files, info);
  }

  lemma TrackNewAs(done: seq<string>, fn: string, D: seq<string>, order: seq<string>, uf: map<string, int>, cnt: int,
                   P: nat, dir: map<string, seq<byte>>, files: map<string, FileInfo>, info: FileInfo)
    requires TrackedAs(done, D, uf, cnt, P, order, dir, files)
    requires |D| < |order| && order[|D|] == fn && IndexOf(order, fn) == |D| && MediaError(dir, fn).None?
    ensures TrackedAs(done + [fn], D + [fn], uf[fn := cnt], cnt + 1, P, order, dir, files[fn := info])
  {
    PrefixNext(D, order, fn);
    TrackNewSlots(done, fn, order, uf, cnt, P);
    TrackNewFiles(done, fn, files, info);
  }

  /** A prefix followed by the next element is a prefix. */
  lemma PrefixNext(D: seq<string>, order: seq<string>, fn: string)
    requires D <= order && |D| < |order| && order[|D|] == fn
    ensures D + [fn] <= order
  {
    assert order[..|D| + 1] == order[..|D|] + [order[|D|]];
  }

  lemma TrackNewSlots(done: seq<string>, fn: string, order: seq<string>, uf: map<string, int>, cnt: int, P: nat)
    requires forall x :: x in uf ==> uf[x] == if x in done then P + IndexOf(order, x) else 0
    requires forall x :: x in done ==> x in uf
    requires cnt == P + IndexOf(order, fn)
    ensures forall x :: x in done + [fn] ==> x in uf[fn := cnt]
    ensures forall x :: x in uf[fn := cnt] ==> uf[fn := cnt][x] == if x in done + [fn] then P + IndexOf(order, x) else 0
  {
    forall x | x in uf[fn := cnt]
      ensures uf[fn := cnt][x] == if x in done + [fn] then P + IndexOf(order, x) else 0
    {
      assert x in done + [fn] <==> x in done || x == fn;
    }
  }

  lemma TrackNewFiles(done: seq<string>, fn: string, files: map<string, FileInfo>, info: FileInfo)
    requires forall x :: x in files <==> x in done
    ensures forall x :: x in files[fn := info] <==> x in done + [fn]
  {
    forall x ensures x in files[fn := info] <==> x in done + [fn] {
      assert x in done + [fn] <==> x in done || x == fn;
    }
  }

  lemma TrackSeen(done: seq<string>, fn: string, refs: seq<string>, uf: map<string, int>, cnt: int, P: nat,
                  dir: map<string, seq<byte>>, files: map<string, FileInfo>)
    requires done + [fn] <= refs && Tracked(done, uf, cnt, P, Dedup(refs), dir, files)
    requires fn in done
    ensures fn in uf && uf[fn] == P + IndexOf(Dedup(refs), fn)
    ensures Tracked(done + [fn], uf, cnt, P, Dedup(refs), dir, files)
  {
    NextRef(done, fn, refs);
  }

  lemma TrackFails(done: seq<string>, fn: string, refs: seq<string>, uf: map<string, int>, cnt: int, P: nat,
                   dir: map<string, seq<byte>>, files: map<string, FileInfo>)
    requires done + [fn] <= refs && Tracked(done, uf, cnt, P, Dedup(refs), dir, files)
    requires fn !in done && MediaError(dir, fn).Some?
    ensures FirstMediaError(dir, Dedup(refs)) == MediaError(dir, fn)
  {
    NextRef(done, fn, refs);
    FirstMediaErrorAt(dir, Dedup(refs), |Dedup(done)|);
  }

  lemma NamesPrefix(fs: seq<PlFile>, i: nat)
    requires i < |fs|
    ensures Names(fs[..i + 1]) == Names(fs[..i]) + [fs[i].filename]
    ensures Names(fs[..i + 1]) <= Names(fs)
  {
    assert Names(fs[..i + 1]) == Names(fs)[..i + 1];
  }

  /** A list without repeats has as many elements as its set. */
  lemma {:induction false} DistinctCard(s: seq<string>)
    requires Distinct(s)
    ensures |set x | x in s| == |s|
  {
    if s != [] {
      var init := s[..|s| - 1];
      DistinctCard(init);
      assert (set x | x in s) == (set x | x in init) + {s[|s| - 1]};
      assert s[|s| - 1] !in init;
    }
  }

  /** The number of distinct media names (len(uniqueFiles)) is the length
      of the first-reference order. */
  lemma UniqueCount(refs: seq<string>, uf: map<string, int>)
    requires forall x :: x in uf <==> x in refs
    ensures |uf| == |Dedup(refs)|
  {
    DedupElements(refs);
    DistinctCard(Dedup(refs));
    assert uf.Keys == set x | x in Dedup(refs);
  }

  /** A name is visited exactly when it has a nonzero slot, and exactly
      when it has been copied. */
  lemma RefVisited(done: seq<string>, fn: string, refs: seq<string>, uf: map<string, int>, cnt: int, P: nat,
                   dir: map<string, seq<byte>>, files: map<string, FileInfo>)
    requires 1 <= P && Tracked(done, uf, cnt, P, Dedup(refs), dir, files)
    ensures (fn in uf && uf[fn] != 0) <==> fn in done
    ensures fn in files <==> fn in done
  {
  }

  // ---------------------------------------------------------------------------
  // The media loop as a function of the references it visits
  // ---------------------------------------------------------------------------

  /** The state of the media loop (hls.go:207-248): the output file's bytes
      and cursor, the files copied so far (hls.files), uniqueFiles and cnt. */
  datatype Copy = Copy(data: seq<byte>, cursor: nat, files: map<string, FileInfo>, uf: map<string, int>, cnt: nat)

  /** One reference visited: the new state, the slot number the reference
      is renamed to, and the error that ends build. */
  datatype Visited = Visited(c: Copy, n: int, err: Option<Error>)

  /** getFile on the loop state (hls.go:294-319): a file copied before is
      found where it was put, a missing one is an error, any other is
      appended at the cursor and remembered. */
  function Fetch(c: Copy, fn: string, dir: map<string, seq<byte>>): (Copy, Result<FileInfo>)
  {
    if fn in c.files then (c, Ok(c.files[fn]))
    else if fn !in dir then (c, Err(NotExist))
    else
      var info := FileInfo(c.cursor, |dir[fn]|);
      (c.(data := Overwrite(c.data, c.cursor, dir[fn]), cursor := c.cursor + |dir[fn]|, files := c.files[fn := info]),
       Ok(info))
  }

  /** The index entry of a name met the first time (hls.go:220-227): the
      offset, then the flags, whose panic for an unknown extension ends
      build, then the length. */
  function Index(s: seq<byte>, at: nat, info: FileInfo, fn: string): (seq<byte>, Option<Error>)
  {
    match FlagsName(fn)
    case Err(e) => (Overwrite(s, at, BE64(info.pos)), Some(e))
    case Ok(flags) => (EntryWrites(s, at, info.pos, flags, info.ln), None)
  }

  /** One media reference (hls.go:214-227, 234-246): look up its slot (0
      when unseen), getFile, and for a name not seen before take the next
      slot and write its index entry. */
  function Visit(c: Copy, fn: string, dir: map<string, seq<byte>>): Visited
  {
    var n := if fn in c.uf then c.uf[fn] else 0;
    var got := Fetch(c, fn, dir);
    if got.1.Err? then Visited(got.0, n, Some(got.1.error))
    else if n != 0 then Visited(got.0, n, None)
    else
      var ix := Index(got.0.data, 32 + 16 * c.cnt, got.1.value, fn);
      Visited(got.0.(data := ix.0, uf := c.uf[fn := c.cnt], cnt := c.cnt + 1), c.cnt, ix.1)
  }

  /** The state after visiting `fns` in turn, and the error that stopped
      the loop, if any. */
  datatype Run = Run(c: Copy, err: Option<Error>)

  /** The run over `fns` in turn: the state after the last reference, or
      the state where an error stopped the loop. */
  function VisitAll(c: Copy, fns: seq<string>, dir: map<string, seq<byte>>): Run
  {
    if fns == [] then Run(c, None)
    else
      var r := VisitAll(c, fns[..|fns| - 1], dir);
      if r.err.Some? then r
      else var v := Visit(r.c, fns[|fns| - 1], dir); Run(v.c, v.err)
  }

  /** The loop's start (hls.go:188-207): nothing copied, every name in
      uniqueFiles mapped to 0, the counter at the first media slot (there
      is one when anything is referenced). */
  ghost predicate Start(c: Copy, refs: seq<string>, P: nat)
  {
    && c.files == map[] && c.cnt == P && (1 <= P || refs == [])
    && forall x :: x in c.uf ==> c.uf[x] == 0
  }

  /** Visiting one more reference after a run without error. */
  lemma RunNext(c0: Copy, X: seq<string>, fn: string, dir: map<string, seq<byte>>)
    requires VisitAll(c0, X, dir).err.None?
    ensures VisitAll(c0, X + [fn], dir) == Run(Visit(VisitAll(c0, X, dir).c, fn, dir).c, Visit(VisitAll(c0, X, dir).c, fn, dir).err)
  {
    assert (X + [fn])[..|X|] == X;
  }

  /** After an error the loop has returned: later references change nothing. */
  lemma {:induction false} RunStops(c0: Copy, X: seq<string>, Y: seq<string>, dir: map<string, seq<byte>>)
    requires VisitAll(c0, X, dir).err.Some?
    ensures VisitAll(c0, X + Y, dir) == VisitAll(c0, X, dir)
    decreases |Y|
  {
    if Y == [] {
      assert X + Y == X;
    } else {
      RunStops(c0, X, Y[..|Y| - 1], dir);
      assert (X + Y)[..|X + Y| - 1] == X + Y[..|Y| - 1];
    }
  }

  lemma RunStopsPrefix(c0: Copy, X: seq<string>, Z: seq<string>, dir: map<string, seq<byte>>)
    requires X <= Z && VisitAll(c0, X, dir).err.Some?
    ensures VisitAll(c0, Z, dir) == VisitAll(c0, X, dir)
  {
    RunStops(c0, X, Z[|X|..], dir);
    assert X + Z[|X|..] == Z;
  }

  /** Where the init segment of tag j sits among a playlist's init segments. */
  lemma MapURIAt(tags: seq<Tag>, j: nat)
    requires j < |tags|
    ensures |MapURIs(tags[..j + 1])| == |MapURIs(tags[..j])| + |TagRef(tags[j])| <= |MapURIs(tags)|
    ensures tags[j].key == MapKey ==> MapURIs(tags)[|MapURIs(tags[..j])|] == Get(tags[j], "URI")
  {
    assert tags[..j + 1][..j] == tags[..j];
    MapURIsPrefix(tags, j + 1);
  }

  /** The new name of a media reference (hls.go:229, 246): its number in
      uniqueFiles (0 for a name it lacks) and its extension. */
  function NumberedName(uf: map<string, int>, fn: string): string
  {
    IntToString(if fn in uf then uf[fn] else 0) + Ext(fn)
  }

  /** A sub-playlist with every #EXT-X-MAP URI and every entry renamed by
      uniqueFiles (hls.go:228-229, 246). */
  function RenameWith(pl: Pl, uf: map<string, int>): Pl
  {
    Pl(seq(|pl.headers|, i requires 0 <= i < |pl.headers| =>
         var h := pl.headers[i];
         if h.key == MapKey then Set(h, "URI", Quote(NumberedName(uf, Get(h, "URI")))) else h),
       seq(|pl.files|, i requires 0 <= i < |pl.files| =>
         pl.files[i].(filename := NumberedName(uf, pl.files[i].filename))),
       pl.footer)
  }

  /** Renaming by a uniqueFiles that holds every reference's slot is the
      renaming to slots. */
  lemma RenameWithSlots(pl: Pl, uf: map<string, int>, P: nat, order: seq<string>)
    requires forall fn :: fn in PlRefs(pl) ==> fn in uf && uf[fn] == Slot(P, order, fn)
    ensures RenameWith(pl, uf) == Rewrite(pl, P, order)
  {
    var r := RenameWith(pl, uf);
    var w := Rewrite(pl, P, order);
    forall i | 0 <= i < |pl.headers|
      ensures r.headers[i] == w.headers[i]
    {
      if pl.headers[i].key == MapKey {
        MapURIAt(pl.headers, i);
        assert Get(pl.headers[i], "URI") in PlRefs(pl);
      }
    }
    forall i | 0 <= i < |pl.files|
      ensures r.files[i] == w.files[i]
    {
      assert pl.files[i].filename == Names(pl.files)[i];
      assert pl.files[i].filename in PlRefs(pl);
    }
  }

  /** After the copy loop has gone through a playlist's references (which
      follow `X` in `refs`) without error, uniqueFiles renames it as the
      slots do. */
  lemma PlaylistRenamed(c0: Copy, X: seq<string>, refs: seq<string>, P: nat, dir: map<string, seq<byte>>, pl: Pl)
    requires Start(c0, refs, P) && X + PlRefs(pl) <= refs
    requires VisitAll(c0, X + PlRefs(pl), dir).err.None?
    ensures RenameWith(pl, VisitAll(c0, X + PlRefs(pl), dir).c.uf) == Rewrite(pl, P, Dedup(refs))
  {
    var Y := X + PlRefs(pl);
    RunTracked(c0, Y, refs, P, dir);
    var uf := VisitAll(c0, Y, dir).c.uf;
    forall fn | fn in PlRefs(pl)
      ensures fn in uf && uf[fn] == Slot(P, Dedup(refs), fn)
    {
      var i :| 0 <= i < |PlRefs(pl)| && PlRefs(pl)[i] == fn;
      assert Y[|X| + i] == fn;
    }
    RenameWithSlots(pl, uf, P, Dedup(refs));
  }

  lemma SplitLast(X: seq<string>, Y: seq<string>)
    requires Y != []
    ensures Y == Y[..|Y| - 1] + [Y[|Y| - 1]]
    ensures X + Y == (X + Y[..|Y| - 1]) + [Y[|Y| - 1]]
  {
  }

  /** Visiting `X` then `Y` is visiting `Y` from where `X` left off. */
  lemma {:induction false} VisitAllAppend(c0: Copy, X: seq<string>, Y: seq<string>, dir: map<string, seq<byte>>)
    requires VisitAll(c0, X, dir).err.None?
    ensures VisitAll(c0, X + Y, dir) == VisitAll(VisitAll(c0, X, dir).c, Y, dir)
    decreases |Y|
  {
    var c1 := VisitAll(c0, X, dir).c;
    if Y == [] {
      assert X + Y == X;
    } else {
      var Z := Y[..|Y| - 1];
      var fn := Y[|Y| - 1];
      VisitAllAppend(c0, X, Z, dir);
      SplitLast(X, Y);
      if VisitAll(c0, X + Z, dir).err.None? {
        RunNext(c0, X + Z, fn, dir);
        RunNext(c1, Z, fn, dir);
      } else {
        RunStops(c0, X + Z, [fn], dir);
        RunStops(c1, Z, [fn], dir);
      }
    }
  }

  /** The three outcomes of a visit: getFile fails, the name has its slot
      already, or the name is met the first time. */
  lemma VisitCases(c: Copy, fn: string, dir: map<string, seq<byte>>)
    ensures var n := if fn in c.uf then c.uf[fn] else 0;
      var got := Fetch(c, fn, dir);
      && (got.1.Err? ==> Visit(c, fn, dir) == Visited(got.0, n, Some(got.1.error)))
      && (got.1.Ok? && n != 0 ==> Visit(c, fn, dir) == Visited(got.0, n, None))
      && (got.1.Ok? && n == 0 ==>
            var ix := Index(got.0.data, 32 + 16 * c.cnt, got.1.value, fn);
            Visit(c, fn, dir) == Visited(got.0.(data := ix.0, uf := c.uf[fn := c.cnt], cnt := c.cnt + 1), c.cnt, ix.1))
  {
  }

  /** One visit keeps the bookkeeping: a visited name gets its slot by
      first reference, and the error that stops the loop is the first
      media error in that order. */
  lemma VisitTracked(done: seq<string>, fn: string, refs: seq<string>, P: nat, dir: map<string, seq<byte>>, c: Copy)
    requires 1 <= P && done + [fn] <= refs && Tracked(done, c.uf, c.cnt, P, Dedup(refs), dir, c.files)
    ensures var v := Visit(c, fn, dir);
      && (v.err.None? ==> Tracked(done + [fn], v.c.uf, v.c.cnt, P, Dedup(refs), dir, v.c.files))
      && (v.err.None? ==> v.n == Slot(P, Dedup(refs), fn))
      && (v.err.Some? ==> v.err == FirstMediaError(dir, Dedup(refs)))
  {
    RefVisited(done, fn, refs, c.uf, c.cnt, P, dir, c.files);
    if fn in done {
      TrackSeen(done, fn, refs, c.uf, c.cnt, P, dir, c.files);
    } else if MediaError(dir, fn).Some? {
      TrackFails(done, fn, refs, c.uf, c.cnt, P, dir, c.files);
    } else {
      TrackNew(done, fn, refs, c.uf, c.cnt, P, dir, c.files, FileInfo(c.cursor, |dir[fn]|));
    }
  }

  /** The whole loop keeps the bookkeeping, and it stops exactly with the
      first media error in first-reference order. */
  lemma {:induction false} RunTracked(c0: Copy, X: seq<string>, refs: seq<string>, P: nat, dir: map<string, seq<byte>>)
    requires Start(c0, refs, P) && X <= refs
    ensures var r := VisitAll(c0, X, dir);
      && (r.err.None? ==> Tracked(X, r.c.uf, r.c.cnt, P, Dedup(refs), dir, r.c.files))
      && (r.err.Some? ==> r.err == FirstMediaError(dir, Dedup(refs)))
    decreases |X|
  {
    if X != [] {
      var Y := X[..|X| - 1];
      var fn := X[|X| - 1];
      assert Y + [fn] == X;
      RunTracked(c0, Y, refs, P, dir);
      if VisitAll(c0, Y, dir).err.None? {
        VisitTracked(Y, fn, refs, P, dir, VisitAll(c0, Y, dir).c);
      }
    }
  }

  /** The facts about the bookkeeping the layout proof needs. */
  lemma RunFacts(c0: Copy, Y: seq<string>, fn: string, refs: seq<string>, P: nat, dir: map<string, seq<byte>>)
    requires Start(c0, refs, P) && Y + [fn] <= refs && VisitAll(c0, Y, dir).err.None?
    ensures var c := VisitAll(c0, Y, dir).c;
      && c.cnt == P + |Dedup(Y)|
      && (fn in c.files <==> fn in Y)
      && ((fn in c.uf && c.uf[fn] != 0) <==> fn in Y)
  {
    assert (Y + [fn])[..|Y|] == Y;
    RunTracked(c0, Y, refs, P, dir);
    var c := VisitAll(c0, Y, dir).c;
    RefVisited(Y, fn, refs, c.uf, c.cnt, P, dir, c.files);
  }

  /** The slot a visited reference is renamed to is its slot by first
      reference. */
  lemma VisitSlot(c0: Copy, Y: seq<string>, fn: string, refs: seq<string>, P: nat, dir: map<string, seq<byte>>)
    requires Start(c0, refs, P) && Y + [fn] <= refs && VisitAll(c0, Y, dir).err.None?
    ensures var v := Visit(VisitAll(c0, Y, dir).c, fn, dir);
      v.err.None? ==> v.n == Slot(P, Dedup(refs), fn)
  {
    assert (Y + [fn])[..|Y|] == Y;
    RunTracked(c0, Y, refs, P, dir);
    VisitTracked(Y, fn, refs, P, dir, VisitAll(c0, Y, dir).c);
  }

  /** What one visit does to a name it has met before. */
  lemma VisitSeen(c: Copy, fn: string, dir: map<string, seq<byte>>)
    requires fn in c.files && fn in c.uf && c.uf[fn] != 0
    ensures Visit(c, fn, dir) == Visited(c, c.uf[fn], None)
  {
  }

  /** What one visit does to a stored name met the first time: the data
      appended, the index entry written in the next free slot, the name
      remembered with that slot. */
  lemma VisitNew(c: Copy, fn: string, dir: map<string, seq<byte>>, flags: nat)
    requires fn !in c.files && fn in dir && !(fn in c.uf && c.uf[fn] != 0) && FlagsName(fn) == Ok(flags)
    ensures Visit(c, fn, dir).err == None && Visit(c, fn, dir).n == c.cnt
    ensures Visit(c, fn, dir).c.data == EntryWrites(Overwrite(c.data, c.cursor, dir[fn]), 32 + 16 * c.cnt, c.cursor, flags, |dir[fn]|)
    ensures Visit(c, fn, dir).c.cursor == c.cursor + |dir[fn]|
    ensures Visit(c, fn, dir).c.files == c.files[fn := FileInfo(c.cursor, |dir[fn]|)]
    ensures Visit(c, fn, dir).c.uf == c.uf[fn := c.cnt] && Visit(c, fn, dir).c.cnt == c.cnt + 1
  {
  }

  /** One visit keeps the layout. */
  lemma VisitLayout(m: nat, m': nat, P: nat, order: seq<string>, dir: map<string, seq<byte>>,
                    es: seq<(seq<byte>, nat)>, c: Copy, fn: string, seen: bool)
    requires MediaSlots(P, order, dir, es) && Layout(m, P, es, c.data, c.cursor) && c.cnt == P + m
    requires (fn in c.files <==> seen) && ((fn in c.uf && c.uf[fn] != 0) <==> seen)
    requires seen ==> m' == m
    requires !seen ==> m < |order| && order[m] == fn && m' == m + 1
    ensures Visit(c, fn, dir).err.None? ==> Layout(m', P, es, Visit(c, fn, dir).c.data, Visit(c, fn, dir).c.cursor)
  {
    if seen {
      VisitSeen(c, fn, dir);
    } else if fn in dir && FlagsName(fn).Ok? {
      VisitLayoutNew(m, P, order, dir, es, c, fn);
    }
  }

  lemma VisitLayoutNew(m: nat, P: nat, order: seq<string>, dir: map<string, seq<byte>>,
                       es: seq<(seq<byte>, nat)>, c: Copy, fn: string)
    requires MediaSlots(P, order, dir, es) && Layout(m, P, es, c.data, c.cursor) && c.cnt == P + m
    requires fn !in c.files && !(fn in c.uf && c.uf[fn] != 0)
    requires m < |order| && order[m] == fn && fn in dir && FlagsName(fn).Ok?
    ensures Layout(m + 1, P, es, Visit(c, fn, dir).c.data, Visit(c, fn, dir).c.cursor)
  {
    var flags := FlagsName(fn).value;
    assert es[P + m] == (dir[fn], flags);
    LayoutStep(m, P, es, c.data, c.cursor);
    VisitNew(c, fn, dir, flags);
  }

  /** A visit that fails leaves the fixed header zero: its writes all go
      past the header. */
  lemma VisitZero(c: Copy, fn: string, dir: map<string, seq<byte>>)
    requires ZeroAt(c.data, 0, 32) && 32 <= c.cursor
    ensures ZeroAt(Visit(c, fn, dir).c.data, 0, 32)
  {
    var got := Fetch(c, fn, dir);
    if fn !in c.files && fn in dir {
      WriteKeepsZero(c.data, c.cursor, dir[fn], 0, 32);
    }
    if got.1.Ok? {
      var at := 32 + 16 * c.cnt;
      WriteKeepsZero(got.0.data, at, BE64(got.1.value.pos), 0, 32);
      if FlagsName(fn).Ok? {
        EntryWritesZero(got.0.data, at, got.1.value.pos, FlagsName(fn).value, got.1.value.ln, 0, 32);
      }
    }
  }

  /** The whole loop keeps the layout: on success the media of every name
      visited are copied and indexed, on failure the header is still zero. */
  lemma {:induction false} RunLayout(c0: Copy, X: seq<string>, refs: seq<string>, P: nat,
                                     dir: map<string, seq<byte>>, es: seq<(seq<byte>, nat)>)
    requires Start(c0, refs, P) && X <= refs && MediaSlots(P, Dedup(refs), dir, es)
    requires c0.data == [] && c0.cursor == HeaderSize(|es|)
    ensures var r := VisitAll(c0, X, dir);
      && (r.err.None? ==> Layout(|Dedup(X)|, P, es, r.c.data, r.c.cursor))
      && (r.err.Some? ==> ZeroAt(r.c.data, 0, 32))
    decreases |X|
  {
    if X == [] {
      LayoutStart(P, es);
    } else {
      var Y := X[..|X| - 1];
      var fn := X[|X| - 1];
      assert Y + [fn] == X;
      assert Y <= refs;
      RunLayout(c0, Y, refs, P, dir, es);
      if VisitAll(c0, Y, dir).err.None? {
        RunFacts(c0, Y, fn, refs, P, dir);
        NextRef(Y, fn, refs);
        VisitLayout(|Dedup(Y)|, |Dedup(X)|, P, Dedup(refs), dir, es, VisitAll(c0, Y, dir).c, fn, fn in Y);
        VisitZero(VisitAll(c0, Y, dir).c, fn, dir);
      }
    }
  }

  /** The media loop over every reference, from its start on an emptied
      file: it stops exactly when a media file cannot be stored, with the
      first such error in first-reference order and before anything is
      written into the header; otherwise every media entry is in place,
      the sub-playlists come next and the counter is the number of entries. */
  lemma RunOutcome(c0: Copy, refs: seq<string>, P: nat, dir: map<string, seq<byte>>, es: seq<(seq<byte>, nat)>)
    requires Start(c0, refs, P) && MediaSlots(P, Dedup(refs), dir, es)
    requires c0.data == [] && c0.cursor == HeaderSize(|es|)
    ensures var r := VisitAll(c0, refs, dir);
      && (r.err.Some? <==> FirstMediaError(dir, Dedup(refs)).Some?)
      && (r.err.Some? ==> r.err == FirstMediaError(dir, Dedup(refs)) && Unmarked(r.c.data))
      && (r.err.None? ==> Listing(0, P, es, r.c.data, r.c.cursor) && r.c.cnt == |es|)
  {
    RunLayout(c0, refs, refs, P, dir, es);
    RunTracked(c0, refs, refs, P, dir);
    var r := VisitAll(c0, refs, dir);
    if r.err.Some? {
      ZeroUnmarked(r.c.data);
    } else {
      FirstMediaErrorNone(dir, Dedup(refs));
      ListingStart(P, es, r.c.data, r.c.cursor);
    }
  }

  /** The media files are the container's entries after the sub-playlists. */
  lemma EntriesMedia(pls: seq<Pl>, order: seq<string>, dir: map<string, seq<byte>>)
    ensures MediaSlots(|pls|, order, dir, Entries(pls, order, dir))
  {
  }

  /** The rewritten sub-playlists are the container's first entries. */
  lemma PlaylistEntries(pls: seq<Pl>, order: seq<string>, dir: map<string, seq<byte>>)
    ensures forall n :: 0 <= n < |pls| ==>
      Entries(pls, order, dir)[n] == (PlBytes(RewriteAll(pls, |pls|, order)[n]), 0)
  {
    RewriteAllAt(pls, |pls|, order);
  }

  /** Once the sub-playlists are written, the last writes finish the
      container. */
  lemma PackDone(P: nat, es: seq<(seq<byte>, nat)>, s: seq<byte>, cursor: nat, master: seq<byte>, now: int)
    requires Listing(P, P, es, s, cursor)
    ensures Packed(Finish(s, cursor, |es|, master, now), P, es, master, now)
  {
    ListingDone(P, es, s, cursor);
    FinishPacked(P, es, s, cursor, master, now);
  }

  /** hlsFlagsName, called from build: the flag of a file name, or the
      panic for an unknown extension. */
  method HlsFlagsName(fn: string) returns (r: Result<nat>)
    ensures r == FlagsName(fn)
  {
    r := FlagsName(fn);
  }

  // ---------------------------------------------------------------------------
  // The builder
  // ---------------------------------------------------------------------------

  /** hlsBuilder: the output file, the probed input, the working directory
      (its media files in `dir`, its playlists as m3u8Parse reads them in
      `lists`), the files already copied into the output and the output
      streams; the remaining fields are set by the encoding step. */
  class HlsBuilder {
    const f: OutFile
    var info: Info
    var dir: map<string, seq<byte>>
    var lists: map<string, Result<Pl>>
    var files: map<string, FileInfo>
    var streams: seq<HlsStream>

    var input: string
    var variants: seq<VSize>
    var video: Option<ProbeStream>
    var audios: seq<ProbeStream>
    var subtitles: seq<ProbeStream>

    /** newHlsBuilder: an empty output file and an empty working directory. */
    constructor ()
      ensures fresh(f) && f.data == [] && f.cursor == 0
      ensures dir == map[] && lists == map[] && files == map[] && streams == []
      ensures variants == [] && video == None && audios == [] && subtitles == []
    {
      f := new OutFile();
      info := Info([]);
      dir := map[];
      lists := map[];
      files := map[];
      streams := [];
      input := "";
      variants := [];
      video := None;
      audios := [];
      subtitles := [];
    }

    /** newStream: the next output stream, numbered by position and by kind
        (the kind is the first letter of the codec type). */
    method NewStream(src: ProbeStream) returns (s: HlsStream)
      requires |src.codecType| > 0
      modifies this`streams
      ensures s == HlsStream(|old(streams)|, CountKind(old(streams), src.codecType[0]), src.codecType[0], src)
      ensures streams == old(streams) + [s]
      ensures Numbered(old(streams)) ==> Numbered(streams)
    {
      var typ := src.codecType[0];
      var lid := 0;
      for i := 0 to |streams|
        invariant lid == CountKind(streams[..i], typ)
      {
        assert streams[..i + 1][..i] == streams[..i];
        if streams[i].typ == typ {
          lid := lid + 1;
        }
      }
      assert streams[..|streams|] == streams;
      s := HlsStream(|streams|, lid, typ, src);
      ghost var before := streams;
      streams := streams + [s];
      assert streams[..|before|] == before;
      assert forall i :: 0 <= i < |before| ==> streams[..i] == before[..i];
    }

    /** writeInt32: a 32-bit big-endian value at `pos`. */
    method WriteInt32(pos: nat, v: int)
      modifies f
      ensures f.data == Overwrite(old(f.data), pos, BE32(v)) && f.cursor == old(f.cursor)
    {
      f.WriteAt(BE32(v), pos);
    }

    /** writeInt64: a 64-bit big-endian value at `pos`. */
    method WriteInt64(pos: nat, v: int)
      modifies f
      ensures f.data == Overwrite(old(f.data), pos, BE64(v)) && f.cursor == old(f.cursor)
    {
      f.WriteAt(BE64(v), pos);
    }

    /** getFile: a file copied before is found where it was put; any other
        is appended at the cursor and remembered; a missing one is an error. */
    method GetFile(fn: string) returns (r: Result<FileInfo>)
      modifies this`files, f
      ensures fn in old(files) ==>
        r == Ok(old(files)[fn]) && files == old(files) && f.data == old(f.data) && f.cursor == old(f.cursor)
      ensures fn !in old(files) && fn !in dir ==>
        r == Err(NotExist) && files == old(files) && f.data == old(f.data) && f.cursor == old(f.cursor)
      ensures fn !in old(files) && fn in dir ==>
        && r == Ok(FileInfo(old(f.cursor), |dir[fn]|))
        && files == old(files)[fn := r.value]
        && f.data == Overwrite(old(f.data), old(f.cursor), dir[fn])
        && f.cursor == old(f.cursor) + |dir[fn]|
    {
      if fn in files {
        return Ok(files[fn]);
      }
      if fn !in dir {
        return Err(NotExist);
      }
      var pos := f.cursor;
      var ln := f.Write(dir[fn]);
      files := files[fn := FileInfo(pos, ln)];
      r := Ok(FileInfo(pos, ln));
    }

    /** The index writes of a name met the first time, into slot `n`. */
    method IndexNew(fn: string, n: nat, info: FileInfo) returns (err: Option<Error>)
      modifies f
      ensures (f.data, err) == Index(old(f.data), 32 + 16 * n, info, fn) && f.cursor == old(f.cursor)
    {
      WriteInt64(32 + 16 * n, info.pos);
      var flag := HlsFlagsName(fn);
      if flag.Err? {
        return Some(flag.error);
      }
      WriteInt32(32 + 16 * n + 8, flag.value);
      WriteInt32(32 + 16 * n + 12, info.ln);
      err := None;
    }

    /** The media loop's state: the output file, the files copied, and the
        caller's uniqueFiles and cnt. */
    function State(uf: map<string, int>, cnt: nat): Copy
      reads this, f
    {
      Copy(f.data, f.cursor, files, uf, cnt)
    }

    /** One media reference of the copy loop (hls.go:214-227 and 234-246). */
    method CopyRef(fn: string, uf: map<string, int>, cnt: nat) returns (n: int, uf': map<string, int>, cnt': nat, err: Option<Error>)
      modifies this`files, f
      ensures Visited(State(uf', cnt'), n, err) == Visit(old(State(uf, cnt)), fn, dir)
    {
      ghost var c := State(uf, cnt);
      n := if fn in uf then uf[fn] else 0;
      uf', cnt' := uf, cnt;
      VisitCases(c, fn, dir);
      var r := GetFile(fn);
      assert Fetch(c, fn, dir) == (State(uf, cnt), r);
      if r.Err? {
        return n, uf', cnt', Some(r.error);
      }
      err := None;
      if n == 0 {
        ghost var s := f.data;
        n := cnt;
        uf' := uf[fn := n];
        cnt' := cnt + 1;
        err := IndexNew(fn, cnt, r.value);
        assert (f.data, err) == Index(s, 32 + 16 * cnt, r.value, fn);
      }
    }

    /** The init segments of a sub-playlist (hls.go:210-231): each
        #EXT-X-MAP tag's URI is copied once, in tag order. */
    method CopyTags(tags: seq<Tag>, uf: map<string, int>, cnt: nat)
      returns (uf': map<string, int>, cnt': nat, err: Option<Error>)
      modifies this`files, f
      ensures Run(State(uf', cnt'), err) == VisitAll(old(State(uf, cnt)), MapURIs(tags), dir)
    {
      ghost var c := State(uf, cnt);
      uf', cnt', err := uf, cnt, None;
      for j := 0 to |tags|
        invariant err == None && Run(State(uf', cnt'), None) == VisitAll(c, MapURIs(tags[..j]), dir)
      {
        MapURIsNext(tags, j);
        if tags[j].key == MapKey {
          var fn := Get(tags[j], "URI");
          assert MapURIs(tags[..j + 1]) == MapURIs(tags[..j]) + [fn];
          RunNext(c, MapURIs(tags[..j]), fn, dir);
          var n;
          n, uf', cnt', err := CopyRef(fn, uf', cnt');
          if err.Some? {
            MapURIsPrefix(tags, j + 1);
            RunStopsPrefix(c, MapURIs(tags[..j + 1]), MapURIs(tags), dir);
            return;
          }
        } else {
          assert MapURIs(tags[..j + 1]) == MapURIs(tags[..j]);
        }
      }
      assert tags[..|tags|] == tags;
    }

    /** The entries of a sub-playlist (hls.go:232-248): each file is copied
        once, in order. */
    method CopyFiles(fls: seq<PlFile>, uf: map<string, int>, cnt: nat)
      returns (uf': map<string, int>, cnt': nat, err: Option<Error>)
      modifies this`files, f
      ensures Run(State(uf', cnt'), err) == VisitAll(old(State(uf, cnt)), Names(fls), dir)
    {
      ghost var c := State(uf, cnt);
      uf', cnt', err := uf, cnt, None;
      for j := 0 to |fls|
        invariant err == None && Run(State(uf', cnt'), None) == VisitAll(c, Names(fls[..j]), dir)
      {
        NamesPrefix(fls, j);
        RunNext(c, Names(fls[..j]), fls[j].filename, dir);
        var n;
        n, uf', cnt', err := CopyRef(fls[j].filename, uf', cnt');
        if err.Some? {
          RunStopsPrefix(c, Names(fls[..j + 1]), Names(fls), dir);
          return;
        }
      }
      assert fls[..|fls|] == fls;
    }

    /** The copy loop over one sub-playlist (hls.go:209-248): its init
        segments, then its entries; the playlist is then renamed by
        uniqueFiles, which holds the number each reference was given. */
    method CopyPlaylist(pl: Pl, uf: map<string, int>, cnt: nat)
      returns (pl': Pl, uf': map<string, int>, cnt': nat, err: Option<Error>)
      modifies this`files, f
      ensures Run(State(uf', cnt'), err) == VisitAll(old(State(uf, cnt)), PlRefs(pl), dir)
      ensures err.None? ==> pl' == RenameWith(pl, uf')
    {
      ghost var c := State(uf, cnt);
      uf', cnt', err := CopyTags(pl.headers, uf, cnt);
      if err.Some? {
        RunStops(c, MapURIs(pl.headers), Names(pl.files), dir);
        return pl, uf', cnt', err;
      }
      uf', cnt', err := CopyFiles(pl.files, uf', cnt');
      VisitAllAppend(c, MapURIs(pl.headers), Names(pl.files), dir);
      pl' := pl;
      if err.None? {
        pl' := RenameWith(pl, uf');
      }
    }

    /** The media loop of build (hls.go:209-248) over every sub-playlist,
        from the start of the loop: the output file, getFile's table,
        uniqueFiles and cnt end as the visit of all references leaves them,
        and each playlist is renamed to the slots by first reference. */
    method CopyMedia(pls: seq<Pl>, uf: map<string, int>, cnt: nat, ghost P: nat)
      returns (out: seq<Pl>, uf': map<string, int>, cnt': nat, err: Option<Error>)
      requires Start(State(uf, cnt), Refs(pls), P)
      modifies this`files, f
      ensures Run(State(uf', cnt'), err) == VisitAll(old(State(uf, cnt)), Refs(pls), dir)
      ensures err.None? ==> out == RewriteAll(pls, P, Dedup(Refs(pls)))
    {
      ghost var c := State(uf, cnt);
      ghost var D := Dedup(Refs(pls));
      uf', cnt', err := uf, cnt, None;
      out := [];
      for k := 0 to |pls|
        invariant err == None && Run(State(uf', cnt'), None) == VisitAll(c, Refs(pls[..k]), dir)
        invariant out == RewriteAll(pls[..k], P, D)
      {
        RefsNext(pls, k);
        RefsPrefix(pls, k + 1);
        var pl;
        ghost var ck := State(uf', cnt');
        pl, uf', cnt', err := CopyPlaylist(pls[k], uf', cnt');
        VisitAllAppend(c, Refs(pls[..k]), PlRefs(pls[k]), dir);
        assert Run(State(uf', cnt'), err) == VisitAll(c, Refs(pls[..k + 1]), dir);
        if err.Some? {
          RunStopsPrefix(c, Refs(pls[..k + 1]), Refs(pls), dir);
          return;
        }
        PlaylistRenamed(c, Refs(pls[..k]), Refs(pls), P, dir, pls[k]);
        RewriteAllNext(pls, k, P, D);
        out := out + [pl];
      }
      assert pls[..|pls|] == pls;
    }

    /** The subtitle streams (hls.go:131-178): each one's playlist is saved
        in the working directory and gets an #EXT-X-MEDIA entry at the end
        of the master; when there is any, the standalone entries are then
        marked with the subtitle group. */
    method AddSubtitles(master: Pl, vtt: nat -> Pl) returns (m: Pl)
      modifies this`lists
      ensures m == WithSubtitles(master, streams)
      ensures lists == SavedLists(old(lists), streams, vtt)
    {
      var fs := master.files;
      var subcnt := 0;
      for i := 0 to |streams|
        invariant fs == master.files + SubEntries(streams[..i])
        invariant lists == SavedLists(old(lists), streams[..i], vtt)
        invariant subcnt == |fs| - |master.files|
      {
        SubsNext(streams, i, old(lists), vtt);
        var ts := streams[i];
        if ts.typ == SubsStream {
          lists := lists[SubName(ts.id) := Ok(vtt(ts.id))];
          fs := fs + [SubEntry(ts)];
          subcnt := subcnt + 1;
        }
      }
      assert streams[..|streams|] == streams;
      if subcnt > 0 {
        fs := MarkStandalone(fs);
      }
      m := master.(files := fs);
    }

    /** The sub-playlists of the master (hls.go:180-199): the playlist each
        entry names is read in master order, every media name it references
        goes into uniqueFiles with 0, and the entry is renamed "<n>.m3u8";
        the first playlist that cannot be read ends build. */
    method LoadPlaylists(m: Pl) returns (pls: seq<Pl>, m': Pl, uf: map<string, int>, err: Option<Error>)
      ensures Load(lists, m.files).Err? ==> err == Some(Load(lists, m.files).error)
      ensures Load(lists, m.files).Ok? ==>
        && err == None && pls == Load(lists, m.files).value && m' == Renamed(m)
        && (forall x :: x in uf <==> x in Refs(pls))
        && (forall x :: x in uf ==> uf[x] == 0)
    {
      pls, m', uf, err := [], m, map[], None;
      var fs := m.files;
      for n := 0 to |m.files|
        invariant Load(lists, m.files[..n]) == Ok(pls)
        invariant forall x :: x in uf <==> x in Refs(pls)
        invariant forall x :: x in uf ==> uf[x] == 0
        invariant |fs| == |m.files|
        invariant forall i :: 0 <= i < n ==> fs[i] == SetFilename(m.files[i], NatToString(i) + ".m3u8")
        invariant forall i :: n <= i < |fs| ==> fs[i] == m.files[i]
      {
        var fn := fs[n].filename;
        var r := if fn in lists then lists[fn] else Err(NotExist);
        LoadNext(lists, m.files, n, pls);
        if r.Err? {
          return pls, m', uf, Some(r.error);
        }
        var pl := r.value;
        uf := CollectRefs(pl, uf);
        RenamedNext(fs, m.files, n);
        fs := fs[n := SetFilename(fs[n], NatToString(n) + ".m3u8")];
        RefsAppend(pls, pl);
        pls := pls + [pl];
      }
      assert m.files[..|m.files|] == m.files;
      m' := m.(files := fs);
    }

    /** The sub-playlists, written after the media (hls.go:251-269), each
        indexed in its slot with flags 0; `P` and `es` are the container's
        layout. The result is where the master goes. */
    method WritePlaylists(out: seq<Pl>, ghost P: nat, ghost es: seq<(seq<byte>, nat)>) returns (pos: nat)
      requires P == |out| && Listing(0, P, es, f.data, f.cursor)
      requires forall n :: 0 <= n < |out| ==> es[n] == (PlBytes(out[n]), 0)
      modifies f
      ensures Listing(P, P, es, f.data, f.cursor) && pos == f.cursor
    {
      pos := f.cursor;
      for n := 0 to |out|
        invariant Listing(n, P, es, f.data, f.cursor) && pos == f.cursor
      {
        var buf := PlBytes(out[n]);
        ListingStep(n, P, es, f.data, pos);
        pos := WritePlaylist(n, buf, pos);
      }
    }

    /** One sub-playlist at `pos` and its index entry in slot `n`
        (hls.go:260-268): the offset and the length; the flags stay 0. */
    method WritePlaylist(n: nat, buf: seq<byte>, pos: nat) returns (pos': nat)
      requires pos == f.cursor
      modifies f
      ensures f.data == ListWrites(Overwrite(old(f.data), pos, buf), EntryAt(n), pos, |buf|)
      ensures pos' == f.cursor == pos + |buf|
    {
      var ln := f.Write(buf);
      WriteInt64(32 + 16 * n, pos);
      WriteInt32(32 + 16 * n + 12, ln);
      pos' := pos + ln;
    }

    /** The master after the sub-playlists, then the entry count, the time,
        the master's offset and length, and last the magic (hls.go:271-289). */
    method WriteMaster(master: seq<byte>, cnt: nat, pos: nat, now: int)
      requires pos == f.cursor
      modifies f
      ensures f.data == Finish(old(f.data), pos, cnt, master, now)
    {
      FinishSteps(f.data, pos, cnt, master, now);
      var ln := f.Write(master);
      WriteInt32(8, cnt);
      WriteInt32(12, now);
      WriteInt64(16, pos);
      WriteInt32(28, ln);
      f.WriteAt(Magic, 0);
    }

    /** The output file from uniqueFiles on (hls.go:200-291): emptied, the
        cursor past the index of the sub-playlists and the distinct media
        names, then the media loop, the sub-playlists, the master and the
        header. A media file that cannot be stored ends build before the
        magic is written; otherwise the file is the container of the
        sub-playlists and the media in first-reference order. */
    method Pack(master: Pl, pls: seq<Pl>, uf: map<string, int>, now: int) returns (err: Option<Error>)
      requires files == map[] && |master.files| == |pls|
      requires forall x :: x in uf <==> x in Refs(pls)
      requires forall x :: x in uf ==> uf[x] == 0
      modifies this`files, f
      ensures var order := Dedup(Refs(pls));
        && (FirstMediaError(dir, order).Some? ==> err == FirstMediaError(dir, order) && Unmarked(f.data))
        && (FirstMediaError(dir, order).None? ==>
              err == None && Packed(f.data, |pls|, Entries(pls, order, dir), PlBytes(master), now))
    {
      ghost var order := Dedup(Refs(pls));
      ghost var es := Entries(pls, order, dir);
      EntriesMedia(pls, order, dir);
      var out, cnt', e := CopyAllMedia(|master.files|, pls, uf, es);
      if e.Some? {
        return e;
      }
      PlaylistEntries(pls, order, dir);
      WriteLists(out, PlBytes(master), cnt', now, |pls|, es);
      err := None;
    }

    /** The media part of build (hls.go:200-248): the output file emptied,
        the cursor past the index of the `cnt` sub-playlists and the
        distinct media names, then the media loop from slot `cnt`, which
        stops with the first media error or leaves every media entry of
        `es` in place. */
    method CopyAllMedia(cnt: nat, pls: seq<Pl>, uf: map<string, int>, ghost es: seq<(seq<byte>, nat)>)
      returns (out: seq<Pl>, cnt': nat, err: Option<Error>)
      requires files == map[] && cnt == |pls|
      requires forall x :: x in uf <==> x in Refs(pls)
      requires forall x :: x in uf ==> uf[x] == 0
      requires MediaSlots(cnt, Dedup(Refs(pls)), dir, es)
      modifies this`files, f
      ensures FirstMediaError(dir, Dedup(Refs(pls))).Some? ==>
        err == FirstMediaError(dir, Dedup(Refs(pls))) && Unmarked(f.data)
      ensures FirstMediaError(dir, Dedup(Refs(pls))).None? ==>
        && err == None && Listing(0, cnt, es, f.data, f.cursor) && cnt' == |es|
        && out == RewriteAll(pls, cnt, Dedup(Refs(pls)))
    {
      UniqueCount(Refs(pls), uf);
      var pos := 16 + 16 + (cnt + |uf|) * 16;
      f.Truncate();
      f.Seek(pos);
      RunOutcome(State(uf, cnt), Refs(pls), cnt, dir, es);
      var uf';
      out, uf', cnt', err := CopyMedia(pls, uf, cnt, cnt);
    }

    /** The end of build (hls.go:251-289): the sub-playlists `out` after the
        media, then the master and the header; `cnt` is the number of
        entries. The file is then the finished container. */
    method WriteLists(out: seq<Pl>, master: seq<byte>, cnt: nat, now: int, ghost P: nat, ghost es: seq<(seq<byte>, nat)>)
      requires P == |out| && Listing(0, P, es, f.data, f.cursor) && cnt == |es|
      requires forall n :: 0 <= n < |out| ==> es[n] == (PlBytes(out[n]), 0)
      modifies f
      ensures Packed(f.data, P, es, master, now)
    {
      var pos := WritePlaylists(out, P, es);
      ghost var s := f.data;
      WriteMaster(master, cnt, pos, now);
      PackDone(P, es, s, pos, master, now);
    }

    /** build once the packager has run (hls.go:121-291): read the master,
        add the subtitles, read the sub-playlists, then pack the container.
        The outcome is Planned: its first error, or the container of its
        plan stamped with `now`. An error reading the playlists leaves the
        output file as it was; a media error leaves it without the magic. */
    method Build(vtt: nat -> Pl, now: int) returns (err: Option<Error>)
      requires files == map[]
      modifies this`lists, this`files, f
      ensures MasterName in old(lists) && old(lists)[MasterName].Ok? ==> lists == SavedLists(old(lists), streams, vtt)
      ensures !(MasterName in old(lists) && old(lists)[MasterName].Ok?) ==> lists == old(lists)
      ensures match Planned(old(lists), streams, vtt, dir)
        case Err(e) =>
          && err == Some(e)
          && (Loaded(old(lists), streams, vtt).Err? ==> f.data == old(f.data))
          && (Loaded(old(lists), streams, vtt).Ok? ==> Unmarked(f.data))
        case Ok(plan) =>
          err == None && Packed(f.data, |plan.pls|, Entries(plan.pls, plan.order, dir), PlBytes(plan.master), now)
    {
      var mr := if MasterName in lists then lists[MasterName] else Err(NotExist);
      if mr.Err? {
        return Some(mr.error);
      }
      var m := AddSubtitles(mr.value, vtt);
      var pls, m', uf, e := LoadPlaylists(m);
      if e.Some? {
        return e;
      }
      LoadLength(lists, m.files);
      err := Pack(m', pls, uf, now);
    }
  }

  /** Every media name a playlist references goes into uniqueFiles with 0
      (hls.go:189-198). */
  method CollectRefs(pl: Pl, uf: map<string, int>) returns (uf': map<string, int>)
    ensures forall x :: x in uf' <==> x in uf || x in PlRefs(pl)
    ensures forall x :: x in uf' ==> uf'[x] == if x in PlRefs(pl) then 0 else uf[x]
  {
    uf' := CollectTags(pl.headers, uf);
    uf' := CollectFiles(pl.files, uf');
  }

  /** The standalone master entries marked with the subtitle group
      (hls.go:170-178); the others stay as they are. */
  method MarkStandalone(fs: seq<PlFile>) returns (r: seq<PlFile>)
    ensures |r| == |fs|
    ensures forall k :: 0 <= k < |fs| ==> r[k] == MarkSubs(fs[k])
    ensures forall k :: 0 <= k < |fs| && !fs[k].standalone ==> r[k] == fs[k]
  {
    r := fs;
    for j := 0 to |r|
      invariant |r| == |fs|
      invariant forall k :: 0 <= k < j ==> r[k] == MarkSubs(fs[k])
      invariant forall k :: j <= k < |r| ==> r[k] == fs[k]
    {
      if r[j].standalone {
        r := r[j := MarkSubs(r[j])];
      }
    }
  }

  /** Renaming one more master entry (hls.go:195). */
  lemma RenamedNext(fs: seq<PlFile>, files: seq<PlFile>, n: nat)
    requires |fs| == |files| && n < |fs|
    requires forall i :: 0 <= i < n ==> fs[i] == SetFilename(files[i], NatToString(i) + ".m3u8")
    requires forall i :: n <= i < |fs| ==> fs[i] == files[i]
    ensures var fs' := fs[n := SetFilename(fs[n], NatToString(n) + ".m3u8")];
      && |fs'| == |files|
      && (forall i :: 0 <= i < n + 1 ==> fs'[i] == SetFilename(files[i], NatToString(i) + ".m3u8"))
      && (forall i :: n + 1 <= i < |fs'| ==> fs'[i] == files[i])
  {
  }

  /** The init segments of a playlist go into uniqueFiles with 0
      (hls.go:189-194). */
  method CollectTags(tags: seq<Tag>, uf: map<string, int>) returns (uf': map<string, int>)
    ensures forall x :: x in uf' <==> x in uf || x in MapURIs(tags)
    ensures forall x :: x in uf' ==> uf'[x] == if x in MapURIs(tags) then 0 else uf[x]
  {
    uf' := uf;
    for j := 0 to |tags|
      invariant forall x :: x in uf' <==> x in uf || x in MapURIs(tags[..j])
      invariant forall x :: x in uf' ==> uf'[x] == if x in MapURIs(tags[..j]) then 0 else uf[x]
    {
      MapURIsNext(tags, j);
      if tags[j].key == MapKey {
        uf' := uf'[Get(tags[j], "URI") := 0];
      }
    }
    assert tags[..|tags|] == tags;
  }

  /** The entries of a playlist go into uniqueFiles with 0 (hls.go:196-198). */
  method CollectFiles(fls: seq<PlFile>, uf: map<string, int>) returns (uf': map<string, int>)
    ensures forall x :: x in uf' <==> x in uf || x in Names(fls)
    ensures forall x :: x in uf' ==> uf'[x] == if x in Names(fls) then 0 else uf[x]
  {
    uf' := uf;
    for j := 0 to |fls|
      invariant forall x :: x in uf' <==> x in uf || x in Names(fls[..j])
      invariant forall x :: x in uf' ==> uf'[x] == if x in Names(fls[..j]) then 0 else uf[x]
    {
      NamesPrefix(fls, j);
      uf' := uf'[fls[j].filename := 0];
    }
    assert fls[..|fls|] == fls;
  }
}
