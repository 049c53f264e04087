/** The encoding step of encode.go: prepareVideo picks the input's tracks and
    the ladder of sizes, encodeVideo turns them into the ffmpeg command line
    and registers one output stream per rendition. The ffprobe and ffmpeg
    processes are not modelled: what they report (the probed streams,
    whether an NVENC encoder works, the bit rate of a size) is given. */
module Encode {
  import opened Base
  import opened VSize
  import opened Codecs
  import opened Probe
  import opened HlsPlan
  import opened Hls

  // ---------------------------------------------------------------------------
  // prepareVideo (encode.go:29-84)
  // ---------------------------------------------------------------------------

  /** Subtitle codecs ffmpeg cannot turn into WebVTT. */
  const Unusable: set<string> := {"dvd_subtitle", "subrip", "hdmv_pgs_subtitle"}

  /** The subtitle tracks kept, in their order. */
  function Usable(subs: seq<ProbeStream>): seq<ProbeStream>
  {
    if subs == [] then []
    else Usable(subs[..|subs| - 1]) + (if subs[|subs| - 1].codecName in Unusable then [] else [subs[|subs| - 1]])
  }

  /** The filter keeps order: filtering a concatenation filters each part. */
  lemma {:induction false} UsableAppend(a: seq<ProbeStream>, b: seq<ProbeStream>)
    ensures Usable(a + b) == Usable(a) + Usable(b)
    decreases |b|
  {
    if b == [] {
      assert a + b == a;
    } else {
      var b' := b[..|b| - 1];
      assert (a + b)[..|a + b| - 1] == a + b';
      UsableAppend(a, b');
    }
  }

  /** The kept tracks are exactly the tracks whose codec is usable. */
  lemma {:induction false} UsableExactly(subs: seq<ProbeStream>)
    ensures forall x :: x in Usable(subs) <==> x in subs && x.codecName !in Unusable
    decreases |subs|
  {
    if subs != [] {
      var init := subs[..|subs| - 1];
      UsableExactly(init);
      assert subs == init + [subs[|subs| - 1]];
    }
  }

  /** The ladder prepareVideo makes from a `v` input: `v` itself, then the
      successive smaller sizes, at most `maxStreams` sizes in all (but always
      `v`). */
  function Ladder(v: VSize, maxStreams: int): seq<VSize>
  {
    var c := Chain(v);
    [v] + c[..if maxStreams <= 1 then 0 else if |c| < maxStreams - 1 then |c| else maxStreams - 1]
  }

  /** The ladder starts with the input size, each further size is smaller
      of the one before, it holds at most max(1, maxStreams) sizes, and when
      it holds fewer the last size has no smaller one. */
  lemma LadderSpec(v: VSize, maxStreams: int)
    ensures var l := Ladder(v, maxStreams);
      && l[0] == v
      && (forall i :: 0 < i < |l| ==> Smaller(l[i - 1]) == Some(l[i]))
      && 1 <= |l| <= (if maxStreams <= 1 then 1 else maxStreams)
      && (|l| < maxStreams ==> Smaller(l[|l| - 1]).None?)
  {
    var c := Chain(v);
    var l := Ladder(v, maxStreams);
    ChainIsIteration(v);
    assert forall i :: 0 < i < |l| ==> l[i] == c[i - 1];
    forall i | 0 < i < |l|
      ensures Smaller(l[i - 1]) == Some(l[i])
    {
      if i > 1 {
        assert l[i - 1] == c[i - 2];
      }
    }
  }

  /** prepareVideo with the ffprobe report `info` of `input`: the first video
      track, the audio tracks, the usable subtitle tracks and the ladder of
      at most `maxStreams` sizes; "video track missing" when there is no
      video track. */
  method PrepareVideo(hls: HlsBuilder, input: string, info: Info, maxStreams: int) returns (err: Option<Error>)
    modifies hls`input, hls`info, hls`video, hls`audios, hls`subtitles, hls`variants
    ensures hls.input == input && hls.info == info
    ensures hls.video == First(info.streams, "video") && hls.audios == Matching(info.streams, "audio")
    ensures hls.video.None? ==>
      && err == Some(VideoTrackMissing)
      && hls.subtitles == Matching(info.streams, "subtitle") && hls.variants == old(hls.variants)
    ensures hls.video.Some? ==>
      && err == None
      && hls.subtitles == Usable(Matching(info.streams, "subtitle"))
      && hls.variants == Ladder(VSize(hls.video.value.width, hls.video.value.height), maxStreams)
  {
    hls.input := input;
    hls.info := info;
    hls.video := info.Video();
    hls.audios := info.Streams("audio");
    hls.subtitles := info.Streams("subtitle");
    if hls.video.None? {
      return Some(VideoTrackMissing);
    }
    var usableSubs := [];
    for i := 0 to |hls.subtitles|
      invariant usableSubs == Usable(hls.subtitles[..i])
    {
      assert hls.subtitles[..i + 1][..i] == hls.subtitles[..i];
      var subtitle := hls.subtitles[i];
      if subtitle.codecName !in Unusable {
        usableSubs := usableSubs + [subtitle];
      }
    }
    assert hls.subtitles[..|hls.subtitles|] == hls.subtitles;
    hls.subtitles := usableSubs;
    hls.variants := MakeLadder(VSize(hls.video.value.width, hls.video.value.height), maxStreams);
    err := None;
  }

  /** The ladder loop of prepareVideo (encode.go:70-80). */
  method MakeLadder(v: VSize, maxStreams: int) returns (variants: seq<VSize>)
    ensures variants == Ladder(v, maxStreams)
  {
    ghost var c := Chain(v);
    ChainIsIteration(v);
    variants := [v];
    var siz := Smaller(v);
    while siz.Some?
      invariant 1 <= |variants| <= |c| + 1
      invariant |variants| <= (if maxStreams <= 1 then 1 else maxStreams)
      invariant variants == [v] + c[..|variants| - 1]
      invariant siz == if |variants| - 1 < |c| then Some(c[|variants| - 1]) else None
      decreases |c| + 1 - |variants|
    {
      if |variants| >= maxStreams {
        break;
      }
      variants := variants + [siz.value];
      siz := Smaller(siz.value);
    }
  }

  // ---------------------------------------------------------------------------
  // Encoder choice (encode.go:118-139, 175-183)
  // ---------------------------------------------------------------------------

  /** What testVideoCodec reported for each NVENC encoder: true when the one
      frame test encode succeeded. */
  datatype Probes = Probes(h264: bool, hevc: bool, av1: bool)

  /** The encoder settings of encodeVideo: software encoding, and whether
      HEVC and AV1 may be used. */
  datatype Encoders = Encoders(software: bool, allowHevc: bool, allowAv1: bool)

  /** The settings as encode.go:118-139 computes them: a failed h264_nvenc
      test sets softwareEncode to false, which it already is, so HEVC stays
      allowed and NVENC stays in use; in software mode HEVC stays allowed
      too. */
  function EncodersAsWritten(softwareMode: bool, p: Probes): Encoders
  {
    if softwareMode then Encoders(true, true, false)
    else
      var software := false;
      var allowHevc := !software;
      Encoders(software, allowHevc && p.hevc, p.av1)
  }

  /** The settings as the log messages describe them: a failed h264_nvenc
      test falls back to software encoding, and HEVC is only allowed when
      hevc_nvenc is in use. */
  function ChooseEncoders(softwareMode: bool, p: Probes): Encoders
  {
    if softwareMode then Encoders(true, false, false)
    else
      var software := !p.h264;
      var allowHevc := !software;
      Encoders(software, allowHevc && p.hevc, p.av1)
  }

  /** The codec of a rendition: H264 unless a side exceeds 1280 pixels,
      then AV1 if allowed, else HEVC if allowed, else H264. */
  function ChooseCodec(e: Encoders, v: VSize): (c: Codec)
  {
    if IsOver(v, 1280) then (if e.allowAv1 then AV1 else if e.allowHevc then HEVC else H264) else H264
  }

  /** The codec choice: H264 up to 1280 pixels; above, AV1 when allowed, HEVC
      when only it is allowed, H264 otherwise. With the corrected settings
      every rendition gets real encoder options, never the error list, and
      after a failed h264_nvenc test no rendition uses NVENC. */
  lemma ChosenCodecEncodes(softwareMode: bool, p: Probes, v: VSize, tsid: string, bitrate: nat)
    ensures var e := ChooseEncoders(softwareMode, p);
      var c := ChooseCodec(e, v);
      && (!IsOver(v, 1280) ==> c == H264)
      && (IsOver(v, 1280) && e.allowAv1 ==> c == AV1)
      && (IsOver(v, 1280) && !e.allowAv1 && e.allowHevc ==> c == HEVC)
      && (IsOver(v, 1280) && !e.allowAv1 && !e.allowHevc ==> c == H264)
      && ArgsList(c, e.software, tsid, bitrate, v) != Unsupported
      && (!softwareMode && !p.h264 ==> !Hardware(c, e.software, v))
  {
    var e := ChooseEncoders(softwareMode, p);
    var c := ChooseCodec(e, v);
    if Hardware(c, e.software, v) {
      ArgsHardware(c, e.software, tsid, bitrate, v);
    } else {
      ArgsSoftware(c, e.software, tsid, bitrate, v);
    }
  }

  /** As written, a failed h264_nvenc test changes nothing: a 1280x720
      rendition is still given to h264_nvenc. */
  lemma NvencFallbackIgnored(tsid: string, bitrate: nat)
    ensures var e := EncodersAsWritten(false, Probes(false, true, false));
      var v := VSize(1280, 720);
      && !e.software
      && ("-c:" + tsid, "h264_nvenc") in Pairs(ArgsList(ChooseCodec(e, v), e.software, tsid, bitrate, v))
  {
    var e := EncodersAsWritten(false, Probes(false, true, false));
    ArgsHardware(H264, e.software, tsid, bitrate, VSize(1280, 720));
  }

  /** As written, software mode keeps HEVC allowed: a 1920x1080 rendition is
      given to HEVC, whose software options are the error list. */
  lemma SoftwareHevcUnsupported(p: Probes, tsid: string, bitrate: nat)
    ensures var e := EncodersAsWritten(true, p);
      var v := VSize(1920, 1080);
      ChooseCodec(e, v) == HEVC && ArgsList(ChooseCodec(e, v), e.software, tsid, bitrate, v) == Unsupported
  {
    ArgsSoftware(HEVC, true, tsid, bitrate, VSize(1920, 1080));
  }

  // ---------------------------------------------------------------------------
  // The filter graph (encode.go:141-162)
  // ---------------------------------------------------------------------------

  /** `sub` occurs in `s`. */
  predicate Mentions(s: string, sub: string)
  {
    exists i :: 0 <= i <= |s| && sub <= s[i..]
  }

  lemma MentionsLeft(a: string, b: string, sub: string)
    requires Mentions(a, sub)
    ensures Mentions(a + b, sub)
  {
    var i :| 0 <= i <= |a| && sub <= a[i..];
    assert (a + b)[i..] == a[i..] + b;
  }

  lemma MentionsRight(a: string, b: string, sub: string)
    requires Mentions(b, sub)
    ensures Mentions(a + b, sub)
  {
    var i :| 0 <= i <= |b| && sub <= b[i..];
    assert (a + b)[|a| + i..] == b[i..];
  }

  lemma MentionsSuffix(a: string, b: string)
    ensures Mentions(a + b, b)
  {
    assert (a + b)[|a|..] == b;
  }

  /** The label of the filter output that rendition `n` is mapped from. */
  function MapLabel(n: nat): string
  {
    "[v" + NatToString(n) + "]"
  }

  /** The head of the graph: the optional user filters, then a split of the
      first video track into `n` outputs. */
  function SplitHead(filters: string, n: nat): string
  {
    if filters != "" then "[v:0]" + filters + ",split=" + NatToString(n)
    else "[v:0]split=" + NatToString(n)
  }

  /** The split's output label `n`: "[v0]" for the full size rendition,
      "[vin<n>]" for the ones still to be scaled. */
  function SplitLabel(n: nat): string
  {
    if n == 0 then "[v0]" else "[vin" + NatToString(n) + "]"
  }

  /** The split's first `n` output labels. */
  function SplitLabels(n: nat): string
  {
    if n == 0 then "" else SplitLabels(n - 1) + SplitLabel(n - 1)
  }

  /** vsize.Scale. */
  function ScaleFilter(v: VSize): string
  {
    "scale=w=" + IntToString(v.w) + ":h=" + IntToString(v.h)
  }

  /** The scale filter of rendition `n`: from split output n to output
      label n. */
  function ScaleStep(n: nat, v: VSize): string
  {
    (";[vin" + NatToString(n) + "]" + ScaleFilter(v)) + MapLabel(n)
  }

  /** The scale filters of renditions 1 .. |vs|-1. */
  function ScaleSteps(vs: seq<VSize>): string
  {
    if |vs| <= 1 then "" else ScaleSteps(vs[..|vs| - 1]) + ScaleStep(|vs| - 1, vs[|vs| - 1])
  }

  /** The filter_complex argument for renditions `vs`. */
  function FilterSpec(vs: seq<VSize>, filters: string): string
  {
    SplitHead(filters, |vs|) + SplitLabels(|vs|) + ScaleSteps(vs)
  }

  lemma {:induction false} SplitLabelsMention(n: nat, k: nat)
    requires k < n
    ensures Mentions(SplitLabels(n), SplitLabel(k))
  {
    if k == n - 1 {
      MentionsSuffix(SplitLabels(n - 1), SplitLabel(k));
    } else {
      SplitLabelsMention(n - 1, k);
      MentionsLeft(SplitLabels(n - 1), SplitLabel(n - 1), SplitLabel(k));
    }
  }

  lemma {:induction false} ScaleStepsMention(vs: seq<VSize>, k: nat)
    requires 1 <= k < |vs|
    ensures Mentions(ScaleSteps(vs), MapLabel(k))
  {
    var init := vs[..|vs| - 1];
    if k == |vs| - 1 {
      var s := ";[vin" + NatToString(k) + "]" + ScaleFilter(vs[k]);
      MentionsSuffix(s, MapLabel(k));
      MentionsRight(ScaleSteps(init), ScaleStep(k, vs[k]), MapLabel(k));
    } else {
      assert init[..|init|] == init;
      ScaleStepsMention(init, k);
      MentionsLeft(ScaleSteps(init), ScaleStep(|vs| - 1, vs[|vs| - 1]), MapLabel(k));
    }
  }

  /** Every rendition's `-map [v<n>]` names an output of the filter graph:
      [v0] is an output of the split, [v<n>] for n >= 1 the output of the
      scale filter of rendition n. */
  lemma MapLabelsDefined(vs: seq<VSize>, filters: string, n: nat)
    requires n < |vs|
    ensures Mentions(FilterSpec(vs, filters), MapLabel(n))
  {
    var head := SplitHead(filters, |vs|);
    if n == 0 {
      assert MapLabel(0) == SplitLabel(0);
      SplitLabelsMention(|vs|, 0);
      MentionsRight(head, SplitLabels(|vs|), MapLabel(0));
      MentionsLeft(head + SplitLabels(|vs|), ScaleSteps(vs), MapLabel(0));
    } else {
      ScaleStepsMention(vs, n);
      MentionsRight(head + SplitLabels(|vs|), ScaleSteps(vs), MapLabel(n));
    }
  }

  lemma SplitLabelsNext(head: string, n: nat)
    ensures head + SplitLabels(n + 1) == (head + SplitLabels(n)) + SplitLabel(n)
  {
    assert SplitLabels(n + 1) == SplitLabels(n) + SplitLabel(n);
  }

  lemma ScaleStepsNext(pre: string, vs: seq<VSize>, n: nat)
    requires n < |vs|
    ensures pre + ScaleSteps(vs[..n + 1])
         == pre + ScaleSteps(vs[..n]) + (if n == 0 then "" else ScaleStep(n, vs[n]))
  {
    var w := vs[..n + 1];
    assert w[..|w| - 1] == vs[..n];
  }

  /** The filter graph loops of encodeVideo. */
  method FilterGraph(vs: seq<VSize>, filters: string) returns (flt: string)
    ensures flt == FilterSpec(vs, filters)
  {
    flt := SplitHead(filters, |vs|);
    ghost var head := flt;
    for n := 0 to |vs|
      invariant flt == head + SplitLabels(n)
    {
      SplitLabelsNext(head, n);
      flt := flt + SplitLabel(n);
    }
    ghost var labels := flt;
    for n := 0 to |vs|
      invariant flt == labels + ScaleSteps(vs[..n])
    {
      ScaleStepsNext(labels, vs, n);
      if n > 0 {
        flt := flt + ScaleStep(n, vs[n]);
      }
    }
    assert vs[..|vs|] == vs;
  }

  // ---------------------------------------------------------------------------
  // Stream registration (encode.go:185-205, 296)
  // ---------------------------------------------------------------------------

  /** Every probed stream has a kind letter newStream can read. */
  predicate Kinded(srcs: seq<ProbeStream>)
  {
    forall i :: 0 <= i < |srcs| ==> |srcs[i].codecType| > 0
  }

  /** The stream newStream adds after `ss` for `src`. */
  function Register(ss: seq<HlsStream>, src: ProbeStream): HlsStream
    requires |src.codecType| > 0
  {
    HlsStream(|ss|, CountKind(ss, src.codecType[0]), src.codecType[0], src)
  }

  /** The streams after newStream is called on each of `srcs` in turn. */
  function Registered(base: seq<HlsStream>, srcs: seq<ProbeStream>): (ss: seq<HlsStream>)
    requires Kinded(srcs)
    ensures |ss| == |base| + |srcs|
  {
    if srcs == [] then base
    else
      var r := Registered(base, srcs[..|srcs| - 1]);
      r + [Register(r, srcs[|srcs| - 1])]
  }

  /** `n` copies of `x`: the video track once per rendition. */
  function Copies(x: ProbeStream, n: nat): (r: seq<ProbeStream>)
    ensures |r| == n
    ensures |x.codecType| > 0 ==> Kinded(r)
  {
    if n == 0 then [] else Copies(x, n - 1) + [x]
  }

  /** The String() of each stream: the var_stream_map entries. */
  function Ids(ss: seq<HlsStream>): (r: seq<string>)
    ensures |r| == |ss|
  {
    if ss == [] then [] else Ids(ss[..|ss| - 1]) + [ss[|ss| - 1].String()]
  }

  lemma NumberedExtend(ss: seq<HlsStream>, src: ProbeStream)
    requires Numbered(ss) && |src.codecType| > 0
    ensures Numbered(ss + [Register(ss, src)])
  {
    var r := ss + [Register(ss, src)];
    assert r[..|ss|] == ss;
    assert forall i :: 0 <= i < |ss| ==> r[..i] == ss[..i];
  }

  /** Registering keeps the earlier streams and appends one stream per
      source, of the source's kind, in order. */
  lemma {:induction false} RegisteredShape(base: seq<HlsStream>, srcs: seq<ProbeStream>)
    requires Kinded(srcs)
    ensures var ss := Registered(base, srcs);
      && |ss| == |base| + |srcs| && ss[..|base|] == base
      && (forall j :: |base| <= j < |ss| ==> ss[j].src == srcs[j - |base|] && ss[j].typ == srcs[j - |base|].codecType[0])
    decreases |srcs|
  {
    if srcs != [] {
      var init := srcs[..|srcs| - 1];
      var r := Registered(base, init);
      RegisteredShape(base, init);
      var ss := r + [Register(r, srcs[|srcs| - 1])];
      assert ss[..|base|] == r[..|base|];
      forall j | |base| <= j < |ss|
        ensures ss[j].src == srcs[j - |base|] && ss[j].typ == srcs[j - |base|].codecType[0]
      {
        if j < |r| {
          assert srcs[j - |base|] == init[j - |base|];
        }
      }
    }
  }

  /** Registering keeps the numbering newStream maintains. */
  lemma {:induction false} RegisteredNumbered(base: seq<HlsStream>, srcs: seq<ProbeStream>)
    requires Numbered(base) && Kinded(srcs)
    ensures Numbered(Registered(base, srcs))
    decreases |srcs|
  {
    if srcs != [] {
      RegisteredNumbered(base, srcs[..|srcs| - 1]);
      NumberedExtend(Registered(base, srcs[..|srcs| - 1]), srcs[|srcs| - 1]);
    }
  }

  /** A run of streams of kind `t` from `lo` to `hi` adds hi - lo to the
      count of kind `t`. */
  lemma {:induction false} CountRun(ss: seq<HlsStream>, lo: nat, hi: nat, t: char)
    requires lo <= hi <= |ss|
    requires forall m :: lo <= m < hi ==> ss[m].typ == t
    ensures CountKind(ss[..hi], t) == CountKind(ss[..lo], t) + (hi - lo)
    decreases hi
  {
    if hi > lo {
      CountRun(ss, lo, hi - 1, t);
      assert ss[..hi][..hi - 1] == ss[..hi - 1];
    }
  }

  /** A prefix with no stream of kind `t` counts none. */
  lemma {:induction false} CountNone(ss: seq<HlsStream>, hi: nat, t: char)
    requires hi <= |ss|
    requires forall m :: 0 <= m < hi ==> ss[m].typ != t
    ensures CountKind(ss[..hi], t) == 0
    decreases hi
  {
    if hi > 0 {
      CountNone(ss, hi - 1, t);
      assert ss[..hi][..hi - 1] == ss[..hi - 1];
    }
  }

  /** The per-kind name of stream n in a numbered list whose first `k`
      streams are of kind `t`. */
  lemma RunName(ss: seq<HlsStream>, k: nat, n: nat, t: char)
    requires Numbered(ss) && n < k <= |ss|
    requires forall m :: 0 <= m < k ==> ss[m].typ == t
    ensures ss[n].String() == [t] + ":" + NatToString(n)
  {
    CountRun(ss, 0, n, t);
  }

  /** The per-kind name of stream k + j in a numbered list whose first `k`
      streams are not of kind `t` and whose next ones are. */
  lemma AfterRunName(ss: seq<HlsStream>, k: nat, j: nat, t: char)
    requires Numbered(ss) && k + j < |ss|
    requires forall m :: 0 <= m < |ss| ==> (ss[m].typ == t <==> k <= m)
    ensures ss[k + j].String() == [t] + ":" + NatToString(j)
  {
    CountNone(ss, k, t);
    CountRun(ss, k, k + j, t);
  }

  /** The names of a numbered list are pairwise different. */
  lemma IdsDistinct(ss: seq<HlsStream>)
    requires Numbered(ss)
    ensures forall i, j :: 0 <= i < j < |ss| ==> Ids(ss)[i] != Ids(ss)[j]
  {
    IdsAre(ss);
    forall i, j | 0 <= i < j < |ss|
      ensures Ids(ss)[i] != Ids(ss)[j]
    {
      NumberedNamesDistinct(ss, i, j);
    }
  }

  /** Registering from no streams numbers the sources in order. */
  lemma RegisteredFromNone(srcs: seq<ProbeStream>)
    requires Kinded(srcs)
    ensures var ss := Registered([], srcs);
      && |ss| == |srcs| && Numbered(ss)
      && (forall m :: 0 <= m < |ss| ==> ss[m].src == srcs[m] && ss[m].typ == srcs[m].codecType[0])
  {
    var none: seq<HlsStream> := [];
    RegisteredShape(none, srcs);
    RegisteredNumbered(none, srcs);
    var ss := Registered(none, srcs);
    forall m | 0 <= m < |ss|
      ensures ss[m].src == srcs[m] && ss[m].typ == srcs[m].codecType[0]
    {
      assert m - |none| == m;
    }
  }

  /** The streams encodeVideo registers from no streams: the video track
      once per rendition, then each audio track. */
  function EncodedStreams(video: ProbeStream, audios: seq<ProbeStream>, k: nat): (ss: seq<HlsStream>)
    requires |video.codecType| > 0 && Kinded(audios)
    ensures |ss| == k + |audios|
  {
    var srcs := Copies(video, k) + audios;
    CopiesAre(video, k);
    assert forall m :: 0 <= m < |srcs| ==> srcs[m] == if m < k then video else audios[m - k];
    RegisteredShape([], srcs);
    Registered([], srcs)
  }

  /** The kinds of the sources of EncodedStreams. */
  lemma EncodedSources(video: ProbeStream, audios: seq<ProbeStream>, k: nat)
    requires video.codecType == "video"
    requires forall j :: 0 <= j < |audios| ==> audios[j].codecType == "audio"
    ensures var srcs := Copies(video, k) + audios;
      && Kinded(srcs)
      && (forall m :: 0 <= m < |srcs| ==> srcs[m] == (if m < k then video else audios[m - k]))
      && (forall m :: 0 <= m < |srcs| ==> (srcs[m].codecType[0] == VideoStream <==> m < k))
      && (forall m :: 0 <= m < |srcs| ==> (srcs[m].codecType[0] == AudioStream <==> k <= m))
  {
    CopiesAre(video, k);
    assert "video"[0] == VideoStream && "audio"[0] == AudioStream;
  }

  /** Rendition n of encodeVideo is stream "v:n" of the video track. */
  lemma EncodedVideoIds(video: ProbeStream, audios: seq<ProbeStream>, k: nat)
    requires video.codecType == "video"
    requires forall j :: 0 <= j < |audios| ==> audios[j].codecType == "audio"
    ensures var ss := EncodedStreams(video, audios, k);
      && |ss| == k + |audios|
      && forall n :: 0 <= n < k ==> ss[n].src == video && ss[n].String() == [VideoStream] + ":" + NatToString(n)
  {
    var srcs := Copies(video, k) + audios;
    EncodedSources(video, audios, k);
    RegisteredFromNone(srcs);
    var ss := Registered([], srcs);
    assert ss == EncodedStreams(video, audios, k);
    assert forall m :: 0 <= m < k ==> ss[m].typ == VideoStream;
    forall n | 0 <= n < k
      ensures ss[n].src == video && ss[n].String() == [VideoStream] + ":" + NatToString(n)
    {
      assert ss[n].src == srcs[n];
      RunName(ss, k, n, VideoStream);
    }
  }

  /** Audio track j of encodeVideo is stream "a:j", after all the
      renditions. */
  lemma EncodedAudioIds(video: ProbeStream, audios: seq<ProbeStream>, k: nat)
    requires video.codecType == "video"
    requires forall j :: 0 <= j < |audios| ==> audios[j].codecType == "audio"
    ensures var ss := EncodedStreams(video, audios, k);
      && |ss| == k + |audios|
      && forall j :: 0 <= j < |audios| ==> ss[k + j].src == audios[j] && ss[k + j].String() == [AudioStream] + ":" + NatToString(j)
  {
    var srcs := Copies(video, k) + audios;
    EncodedSources(video, audios, k);
    RegisteredFromNone(srcs);
    var ss := Registered([], srcs);
    assert ss == EncodedStreams(video, audios, k);
    forall j | 0 <= j < |audios|
      ensures ss[k + j].src == audios[j] && ss[k + j].String() == [AudioStream] + ":" + NatToString(j)
    {
      var m := k + j;
      assert ss[m].src == srcs[m] && m - k == j;
      AfterRunName(ss, k, j, AudioStream);
    }
  }

  /** The var_stream_map entries of encodeVideo are pairwise different. */
  lemma EncodedIdsDistinct(video: ProbeStream, audios: seq<ProbeStream>, k: nat)
    requires |video.codecType| > 0 && Kinded(audios)
    ensures var ss := EncodedStreams(video, audios, k);
      forall i, j :: 0 <= i < j < |ss| ==> Ids(ss)[i] != Ids(ss)[j]
  {
    var srcs := Copies(video, k) + audios;
    CopiesAre(video, k);
    assert forall m :: 0 <= m < |srcs| ==> srcs[m] == if m < k then video else audios[m - k];
    RegisteredFromNone(srcs);
    IdsDistinct(Registered([], srcs));
  }

  lemma {:induction false} CopiesAre(x: ProbeStream, n: nat)
    ensures forall i :: 0 <= i < n ==> Copies(x, n)[i] == x
  {
    if n > 0 {
      CopiesAre(x, n - 1);
    }
  }

  lemma {:induction false} IdsAre(ss: seq<HlsStream>)
    ensures forall i :: 0 <= i < |ss| ==> Ids(ss)[i] == ss[i].String()
  {
    if ss != [] {
      IdsAre(ss[..|ss| - 1]);
    }
  }

  // ---------------------------------------------------------------------------
  // The ffmpeg command line of encodeVideo (encode.go:102-250)
  // ---------------------------------------------------------------------------

  /** The command line flags encodeVideo reads: -software, -verbose,
      -single_file and -filter_complex. */
  datatype Options = Options(software: bool, verbose: bool, singleFile: bool, filters: string)

  /** The arguments before the filter graph. */
  function HeadArgs(o: Options, input: string): seq<string>
  {
    ["-hide_banner"]
      + (if !o.verbose then ["-loglevel", "warning"] else [])
      + (if !o.software then ["-hwaccel", "auto"] else [])
      + ["-i", input]
  }

  /** The arguments of rendition `n`: its filter output, then the options
      of its codec for stream `tsid`. */
  function RenditionArgs(n: nat, e: Encoders, v: VSize, tsid: string, bitrate: nat): seq<string>
  {
    ["-map", MapLabel(n)] + ArgsList(ChooseCodec(e, v), e.software, tsid, bitrate, v)
  }

  /** The arguments of the renditions whose streams are named `ids`. */
  function VideoArgs(vs: seq<VSize>, rates: seq<nat>, e: Encoders, ids: seq<string>): seq<string>
    requires |ids| <= |vs| && |rates| == |vs|
  {
    if ids == [] then []
    else
      var n := |ids| - 1;
      VideoArgs(vs, rates, e, ids[..n]) + RenditionArgs(n, e, vs[n], ids[n], rates[n])
  }

  /** The arguments of audio track `j`, encoded as stereo AAC at 96k into
      stream `tsid`. */
  function AudioArg(j: nat, tsid: string): seq<string>
  {
    ["-map", "a:" + NatToString(j), "-c:" + tsid, "aac", "-b:" + tsid, "96k", "-ac:" + tsid, "2"]
  }

  /** The arguments of the audio tracks whose streams are named `ids`. */
  function AudioArgs(ids: seq<string>): seq<string>
  {
    if ids == [] then [] else AudioArgs(ids[..|ids| - 1]) + AudioArg(|ids| - 1, ids[|ids| - 1])
  }

  /** The -hls_flags value, before joining with "+". */
  function HlsFlags(singleFile: bool): seq<string>
  {
    ["independent_segments"] + (if singleFile then ["single_file"] else [])
  }

  /** The HLS muxer options and the var_stream_map naming stream `ids`. */
  function TailArgs(o: Options, ids: seq<string>): seq<string>
  {
    ["-f", "hls", "-hls_time", "10", "-hls_playlist_type", "vod",
     "-hls_flags", Join(HlsFlags(o.singleFile), "+"),
     "-hls_allow_cache", "1", "-hls_segment_type", "fmp4", "-master_pl_name", "master.m3u8"]
      + ["-hls_segment_filename", if o.singleFile then "stream_%v.mp4" else "stream_%v_%d.mp4"]
      + ["-var_stream_map", Join(ids, " "), "stream_%v.m3u8"]
  }

  /** The whole ffmpeg command line of encodeVideo for renditions `vs` at
      bit rates `rates`, whose output streams are named `ids` (renditions
      first, then audio tracks). */
  function EncodeArgs(o: Options, input: string, e: Encoders, vs: seq<VSize>, rates: seq<nat>, ids: seq<string>): seq<string>
    requires |vs| <= |ids| && |rates| == |vs|
  {
    HeadArgs(o, input) + ["-filter_complex", FilterSpec(vs, o.filters)]
      + VideoArgs(vs, rates, e, ids[..|vs|]) + AudioArgs(ids[|vs|..]) + TailArgs(o, ids)
  }

  /** The rendition loop of encodeVideo (encode.go:174-192): one stream of
      the video track per rendition, with its arguments. */
  method MapRenditions(hls: HlsBuilder, video: ProbeStream, e: Encoders, rates: seq<nat>)
      returns (vargs: seq<string>, ids: seq<string>)
    requires hls.streams == [] && |video.codecType| > 0
    requires |rates| == |hls.variants| && forall i :: 0 <= i < |rates| ==> rates[i] < U64
    modifies hls`streams
    ensures hls.streams == Registered([], Copies(video, |hls.variants|))
    ensures ids == Ids(hls.streams) && |ids| == |hls.variants|
    ensures vargs == VideoArgs(hls.variants, rates, e, ids)
  {
    vargs, ids := [], [];
    ghost var srcs: seq<ProbeStream> := [];
    for n := 0 to |hls.variants|
      invariant srcs == Copies(video, n) && Kinded(srcs) && hls.streams == Registered([], srcs)
      invariant ids == Ids(hls.streams) && |ids| == n
      invariant vargs == VideoArgs(hls.variants, rates, e, ids)
    {
      var s := hls.variants[n];
      var codec := ChooseCodec(e, s);
      ghost var before := hls.streams;
      var ts := hls.NewStream(video);
      var tsid := ts.String();
      var ca := Args(codec, e.software, tsid, rates[n], s);
      vargs := vargs + (["-map", "[v" + NatToString(n) + "]"] + ca);
      RenditionStep(hls.variants, rates, e, ids, tsid);
      IdsStep(before, ts);
      RegisteredStep(srcs, video);
      ids := ids + [tsid];
      srcs := srcs + [video];
    }
  }

  lemma RenditionStep(vs: seq<VSize>, rates: seq<nat>, e: Encoders, ids: seq<string>, tsid: string)
    requires |ids| < |vs| && |rates| == |vs|
    ensures var n := |ids|;
      VideoArgs(vs, rates, e, ids + [tsid]) == VideoArgs(vs, rates, e, ids) + RenditionArgs(n, e, vs[n], tsid, rates[n])
  {
    assert (ids + [tsid])[..|ids|] == ids;
  }

  lemma IdsStep(ss: seq<HlsStream>, s: HlsStream)
    ensures Ids(ss + [s]) == Ids(ss) + [s.String()]
  {
    assert (ss + [s])[..|ss|] == ss;
  }

  lemma RegisteredStep(srcs: seq<ProbeStream>, src: ProbeStream)
    requires Kinded(srcs) && |src.codecType| > 0
    ensures Kinded(srcs + [src])
    ensures var r := Registered([], srcs); Registered([], srcs + [src]) == r + [Register(r, src)]
  {
    assert (srcs + [src])[..|srcs|] == srcs;
  }

  /** The audio loop of encodeVideo (encode.go:194-206): one stream per
      audio track, after the `k` rendition streams, with its arguments. */
  method MapAudios(hls: HlsBuilder, video: ProbeStream, k: nat) returns (aargs: seq<string>, ids: seq<string>)
    requires |video.codecType| > 0 && Kinded(hls.audios)
    requires hls.streams == Registered([], Copies(video, k))
    modifies hls`streams
    ensures hls.streams == EncodedStreams(video, hls.audios, k)
    ensures Ids(hls.streams) == Ids(old(hls.streams)) + ids
    ensures aargs == AudioArgs(ids)
  {
    aargs, ids := [], [];
    var audios := hls.audios;
    ghost var start := hls.streams;
    RegisteredShape([], Copies(video, k));
    for j := 0 to |audios|
      invariant hls.streams == Registered(start, audios[..j]) && |hls.streams| == k + j
      invariant ids == IdsFrom(hls.streams, k) && |ids| == j
      invariant aargs == AudioArgs(ids)
    {
      var audio := audios[j];
      ghost var before := hls.streams;
      var arg, tsid := MapAudio(hls, audio, j);
      AudioStep(aargs, ids, arg, tsid);
      aargs := aargs + arg;
      IdsFromStep(before, Register(before, audio), k);
      RegisteredNext(start, audios, j);
      ids := ids + [tsid];
    }
    assert audios[..|audios|] == audios;
    IdsSplit(hls.streams, k);
    RegisteredShape(start, audios);
    assert hls.streams[..k] == start;
    RegisteredAppend(Copies(video, k), audios);
  }

  /** One audio track of encodeVideo's audio loop. */
  method MapAudio(hls: HlsBuilder, audio: ProbeStream, j: nat) returns (arg: seq<string>, tsid: string)
    requires |audio.codecType| > 0
    modifies hls`streams
    ensures hls.streams == old(hls.streams) + [Register(old(hls.streams), audio)]
    ensures tsid == Register(old(hls.streams), audio).String() && arg == AudioArg(j, tsid)
  {
    var ts := hls.NewStream(audio);
    tsid := ts.String();
    arg := ["-map", "a:" + NatToString(j), "-c:" + tsid, "aac", "-b:" + tsid, "96k", "-ac:" + tsid, "2"];
  }

  lemma RegisteredNext(base: seq<HlsStream>, s: seq<ProbeStream>, j: nat)
    requires j < |s| && Kinded(s)
    ensures Kinded(s[..j]) && Kinded(s[..j + 1])
    ensures var r := Registered(base, s[..j]); Registered(base, s[..j + 1]) == r + [Register(r, s[j])]
  {
    assert s[..j + 1][..j] == s[..j];
  }

  /** Registering `a` then `b` is registering a + b. */
  lemma {:induction false} RegisteredAppend(a: seq<ProbeStream>, b: seq<ProbeStream>)
    requires Kinded(a) && Kinded(b)
    ensures Kinded(a + b) && Registered([], a + b) == Registered(Registered([], a), b)
    decreases |b|
  {
    if b == [] {
      assert a + b == a;
    } else {
      var b' := b[..|b| - 1];
      RegisteredAppend(a, b');
      assert (a + b)[..|a + b| - 1] == a + b';
    }
  }

  /** The String() of each stream from position `k` on. */
  function IdsFrom(ss: seq<HlsStream>, k: nat): seq<string>
  {
    if |ss| <= k then [] else IdsFrom(ss[..|ss| - 1], k) + [ss[|ss| - 1].String()]
  }

  lemma IdsFromStep(ss: seq<HlsStream>, s: HlsStream, k: nat)
    requires k <= |ss|
    ensures IdsFrom(ss + [s], k) == IdsFrom(ss, k) + [s.String()]
  {
    assert (ss + [s])[..|ss|] == ss;
  }

  lemma {:induction false} IdsSplit(ss: seq<HlsStream>, k: nat)
    requires k <= |ss|
    ensures Ids(ss) == Ids(ss[..k]) + IdsFrom(ss, k)
    decreases |ss|
  {
    if |ss| > k {
      var init := ss[..|ss| - 1];
      IdsSplit(init, k);
      assert init[..k] == ss[..k];
    } else {
      assert ss[..k] == ss;
    }
  }

  lemma PrefixNext(pre: seq<ProbeStream>, s: seq<ProbeStream>, j: nat)
    requires j < |s|
    ensures pre + s[..j] + [s[j]] == pre + s[..j + 1]
  {
    assert s[..j + 1] == s[..j] + [s[j]];
  }

  lemma AudioStep(aargs: seq<string>, ids: seq<string>, arg: seq<string>, tsid: string)
    requires aargs == AudioArgs(ids) && arg == AudioArg(|ids|, tsid)
    ensures aargs + arg == AudioArgs(ids + [tsid])
  {
    var ids' := ids + [tsid];
    assert ids'[..|ids'| - 1] == ids && ids'[|ids'| - 1] == tsid;
  }

  /** The input options of encodeVideo's command line (encode.go:104-116). */
  method InputArgs(o: Options, input: string) returns (args: seq<string>)
    ensures args == HeadArgs(o, input)
  {
    args := ["-hide_banner"];
    if !o.verbose {
      args := args + ["-loglevel", "warning"];
    }
    if !o.software {
      args := args + ["-hwaccel", "auto"];
    }
    args := args + ["-i", input];
  }

  /** The HLS muxer options of encodeVideo's command line
      (encode.go:208-226, 247-250). */
  method MuxerArgs(o: Options, varStreamMap: seq<string>) returns (args: seq<string>)
    ensures args == TailArgs(o, varStreamMap)
  {
    var hlsFlags := ["independent_segments"];
    if o.singleFile {
      hlsFlags := hlsFlags + ["single_file"];
    }
    args := ["-f", "hls", "-hls_time", "10", "-hls_playlist_type", "vod",
             "-hls_flags", Join(hlsFlags, "+"),
             "-hls_allow_cache", "1", "-hls_segment_type", "fmp4", "-master_pl_name", "master.m3u8"];
    if o.singleFile {
      args := args + ["-hls_segment_filename", "stream_%v.mp4"];
    } else {
      args := args + ["-hls_segment_filename", "stream_%v_%d.mp4"];
    }
    args := args + ["-var_stream_map", Join(varStreamMap, " "), "stream_%v.m3u8"];
  }

  /** The command line with the rendition streams `vids` and the audio
      streams `aids`. */
  lemma EncodeArgsParts(o: Options, input: string, e: Encoders, vs: seq<VSize>, rates: seq<nat>, vids: seq<string>, aids: seq<string>)
    requires |vids| == |vs| == |rates|
    ensures EncodeArgs(o, input, e, vs, rates, vids + aids)
         == HeadArgs(o, input) + ["-filter_complex", FilterSpec(vs, o.filters)]
            + VideoArgs(vs, rates, e, vids) + AudioArgs(aids) + TailArgs(o, vids + aids)
  {
    assert (vids + aids)[..|vs|] == vids && (vids + aids)[|vs|..] == aids;
  }

  /** The two loops of encodeVideo, from no streams: the rendition streams
      `vids` with their arguments `vargs`, then the audio streams `aids` with
      their arguments `aargs`. */
  method MapStreams(hls: HlsBuilder, video: ProbeStream, e: Encoders, rates: seq<nat>)
      returns (vargs: seq<string>, aargs: seq<string>, vids: seq<string>, aids: seq<string>)
    requires |video.codecType| > 0 && Kinded(hls.audios)
    requires |rates| == |hls.variants| && forall i :: 0 <= i < |rates| ==> rates[i] < U64
    modifies hls`streams
    ensures hls.streams == EncodedStreams(video, hls.audios, |hls.variants|)
    ensures Ids(hls.streams) == vids + aids && |vids| == |hls.variants|
    ensures vargs == VideoArgs(hls.variants, rates, e, vids) && aargs == AudioArgs(aids)
  {
    hls.streams := [];
    vargs, vids := MapRenditions(hls, video, e, rates);
    aargs, aids := MapAudios(hls, video, |hls.variants|);
  }

  /** encodeVideo up to the ffmpeg run: the streams it registers and the
      command line it builds, with the encoder settings chosen from the
      NVENC test results `p` and rendition n encoded at bit rate
      rates[n]. */
  method EncodeVideo(hls: HlsBuilder, o: Options, p: Probes, rates: seq<nat>) returns (args: seq<string>)
    requires hls.video.Some? && |hls.video.value.codecType| > 0 && Kinded(hls.audios)
    requires |rates| == |hls.variants| && forall i :: 0 <= i < |rates| ==> rates[i] < U64
    modifies hls`streams
    ensures hls.streams == EncodedStreams(hls.video.value, hls.audios, |hls.variants|)
    ensures args == EncodeArgs(o, hls.input, ChooseEncoders(o.software, p), hls.variants, rates, Ids(hls.streams))
  {
    var head := InputArgs(o, hls.input);
    var enc := ChooseEncoders(o.software, p);
    var flt := FilterGraph(hls.variants, o.filters);
    var vargs, aargs, vids, aids := MapStreams(hls, hls.video.value, enc, rates);
    var tail := MuxerArgs(o, vids + aids);
    args := head + ["-filter_complex", flt] + vargs + aargs + tail;
    EncodeArgsParts(o, hls.input, enc, hls.variants, rates, vids, aids);
  }

  // ---------------------------------------------------------------------------
  // Subtitle extraction (encode.go:286-319)
  // ---------------------------------------------------------------------------

  /** The ffmpeg command line that extracts subtitle track `n` as WebVTT
      into the file of stream `id`, shifted by the start time `start` of the
      encoded video (as formatted by FormatFloat). */
  function SubtitleArgs(o: Options, input: string, start: string, n: nat, id: nat): seq<string>
  {
    ["-itsoffset", start, "-i", input, "-hide_banner"]
      + (if !o.verbose then ["-loglevel", "warning"] else [])
      + ["-map", "s:" + NatToString(n), "-c:0", "webvtt", "-f", "webvtt", SubsFile(id)]
  }

  /** The WebVTT file of subtitle stream `id`. */
  function SubsFile(id: nat): string
  {
    "subs_" + NatToString(id) + ".vtt"
  }

  /** Different streams extract to different files. */
  lemma SubsFileInjective(a: nat, b: nat)
    requires SubsFile(a) == SubsFile(b)
    ensures a == b
  {
    var sa, sb := SubsFile(a), SubsFile(b);
    var na, nb := NatToString(a), NatToString(b);
    assert |na| == |nb|;
    assert na == sa[5..5 + |na|] && nb == sb[5..5 + |nb|];
    NatToStringInjective(a, b);
  }

  /** The subtitle loop of encodeVideo: one stream per usable subtitle
      track, registered after the existing ones, and the command line that
      extracts it. Each ffmpeg run is taken to succeed. */
  method ExtractSubtitles(hls: HlsBuilder, o: Options, start: string) returns (cmds: seq<seq<string>>)
    requires Kinded(hls.subtitles)
    modifies hls`streams
    ensures hls.streams == Registered(old(hls.streams), hls.subtitles)
    ensures |cmds| == |hls.subtitles|
    ensures forall n :: 0 <= n < |cmds| ==> cmds[n] == SubtitleArgs(o, hls.input, start, n, |old(hls.streams)| + n)
  {
    var subs := hls.subtitles;
    var input := hls.input;
    ghost var base := hls.streams;
    cmds := [];
    for n := 0 to |subs|
      invariant hls.streams == Registered(base, subs[..n]) && |hls.streams| == |base| + n
      invariant |cmds| == n
      invariant forall i :: 0 <= i < n ==> cmds[i] == SubtitleArgs(o, input, start, i, |base| + i)
    {
      var args := ExtractSubtitle(hls, o, input, start, n, subs[n]);
      RegisteredNext(base, subs, n);
      cmds := cmds + [args];
    }
    assert subs[..|subs|] == subs;
  }

  /** One subtitle track of the subtitle loop. */
  method ExtractSubtitle(hls: HlsBuilder, o: Options, input: string, start: string, n: nat, sub: ProbeStream)
      returns (args: seq<string>)
    requires |sub.codecType| > 0
    modifies hls`streams
    ensures hls.streams == old(hls.streams) + [Register(old(hls.streams), sub)]
    ensures args == SubtitleArgs(o, input, start, n, |old(hls.streams)|)
  {
    args := ["-itsoffset", start, "-i", input, "-hide_banner"];
    if !o.verbose {
      args := args + ["-loglevel", "warning"];
    }
    var ts := hls.NewStream(sub);
    args := args + ["-map", "s:" + NatToString(n), "-c:0", "webvtt", "-f", "webvtt", "subs_" + NatToString(ts.id) + ".vtt"];
  }

  /** After encodeVideo's streams, subtitle track n becomes stream
      "s:n" with the next free id, so each one is extracted to its own
      file. */
  lemma SubtitleIds(base: seq<HlsStream>, subs: seq<ProbeStream>)
    requires Numbered(base) && forall m :: 0 <= m < |base| ==> base[m].typ != SubsStream
    requires forall j :: 0 <= j < |subs| ==> subs[j].codecType == "subtitle"
    ensures Kinded(subs)
    ensures var ss := Registered(base, subs);
      forall n :: 0 <= n < |subs| ==> ss[|base| + n].id == |base| + n && ss[|base| + n].String() == [SubsStream] + ":" + NatToString(n)
  {
    var ss := SubsKinds(base, subs);
    forall n | 0 <= n < |subs|
      ensures ss[|base| + n].String() == [SubsStream] + ":" + NatToString(n)
    {
      AfterRunName(ss, |base|, n, SubsStream);
    }
  }

  lemma SubsKinds(base: seq<HlsStream>, subs: seq<ProbeStream>) returns (ss: seq<HlsStream>)
    requires Numbered(base) && forall m :: 0 <= m < |base| ==> base[m].typ != SubsStream
    requires forall j :: 0 <= j < |subs| ==> subs[j].codecType == "subtitle"
    ensures Kinded(subs) && ss == Registered(base, subs) && Numbered(ss)
    ensures forall m :: 0 <= m < |ss| ==> (ss[m].typ == SubsStream <==> |base| <= m)
  {
    assert "subtitle"[0] == SubsStream;
    RegisteredShape(base, subs);
    RegisteredNumbered(base, subs);
    ss := Registered(base, subs);
    forall m | 0 <= m < |ss|
      ensures ss[m].typ == SubsStream <==> |base| <= m
    {
      if m < |base| {
        assert ss[m] == ss[..|base|][m];
      }
    }
  }
}
