/** The ffmpeg encoder arguments of codec.go for one video output stream. */
module Codecs {
  import opened Base
  import opened VSize

  /** The NVENC encoder name of a codec (nvencName). */
  function NvencName(c: Codec): (r: string)
    ensures c == H264 <==> r == "h264_nvenc"
    ensures c == HEVC <==> r == "hevc_nvenc"
    ensures c == AV1 <==> r == "av1_nvenc"
    ensures c != H264 && c != HEVC && c != AV1 <==> r == "bad_nvenc"
  {
    if c == H264 then "h264_nvenc"
    else if c == HEVC then "hevc_nvenc"
    else if c == AV1 then "av1_nvenc"
    else "bad_nvenc"
  }

  /** codecTags and codecProfile: the `-tag` and `-profile` values per NVENC encoder. */
  const CodecTags: map<string, string> := map["hevc_nvenc" := "hvc1", "av1_nvenc" := "av01"]
  const CodecProfile: map<string, string> := map["h264_nvenc" := "main", "hevc_nvenc" := "main"]

  /** An ffmpeg argument list read as its flag/value pairs. */
  function Pairs(args: seq<string>): (ps: seq<(string, string)>)
    ensures |ps| == |args| / 2
  {
    seq(|args| / 2, i requires 0 <= i < |args| / 2 => (args[2 * i], args[2 * i + 1]))
  }

  /** The NVENC options: five common pairs, then `-profile` and `-tag` when
      the encoder has one. */
  function NvencArgs(codec: string, tsid: string, br: string): seq<string>
  {
    ["-c:" + tsid, codec, "-pix_fmt:" + tsid, "yuv420p", "-preset:" + tsid, "p6",
     "-b:" + tsid, br, "-maxrate:" + tsid, br]
    + (if codec in CodecProfile then ["-profile:" + tsid, CodecProfile[codec]] else [])
    + (if codec in CodecTags then ["-tag:" + tsid, CodecTags[codec]] else [])
  }

  /** The libx264 options, constant bit rate `br` with a `buf` buffer. */
  function X264Args(tsid: string, br: string, buf: string): seq<string>
  {
    ["-c:" + tsid, "libx264", "-x264-params", "nal-hrd=cbr:force-cfr=1",
     "-b:" + tsid, br, "-maxrate:" + tsid, br, "-minrate:" + tsid, br, "-bufsize", buf,
     "-preset", "slow", "-g", "48", "-sc_threshold", "0", "-keyint_min", "48"]
  }

  /** The libaom-av1 options, constant bit rate `br` with a `buf` buffer. */
  function AomArgs(tsid: string, br: string, buf: string): seq<string>
  {
    ["-c:" + tsid, "libaom-av1", "-b:" + tsid, br, "-maxrate:" + tsid, br,
     "-minrate:" + tsid, br, "-bufsize", buf, "-preset:" + tsid, "slow"]
  }

  /** Whether Args takes the NVENC path: not in software mode, and not an
      H264 stream above 2048 pixels on a side, which NVENC cannot encode. */
  predicate Hardware(c: Codec, software: bool, v: VSize)
  {
    !software && !(c == H264 && IsOver(v, 2048))
  }

  const Unsupported: seq<string> := ["error", "unsupported_codec"]

  /** The options Args returns for codec `c` on output stream `tsid`. The
      buffer is twice the bit rate as a uint64 (FormatUint of bitrateInt*2). */
  function ArgsList(c: Codec, software: bool, tsid: string, bitrate: nat, v: VSize): seq<string>
  {
    var br := NatToString(bitrate);
    var buf := NatToString(bitrate * 2 % U64);
    if Hardware(c, software, v) then NvencArgs(NvencName(c), tsid, br)
    else if c == H264 then X264Args(tsid, br, buf)
    else if c == AV1 then AomArgs(tsid, br, buf)
    else Unsupported
  }

  lemma NvencPairs(codec: string, tsid: string, br: string)
    ensures var res := NvencArgs(codec, tsid, br);
      && |res| == 10 + (if codec in CodecProfile then 2 else 0) + (if codec in CodecTags then 2 else 0)
      && ("-c:" + tsid, codec) in Pairs(res) && ("-pix_fmt:" + tsid, "yuv420p") in Pairs(res)
      && ("-preset:" + tsid, "p6") in Pairs(res)
      && ("-b:" + tsid, br) in Pairs(res) && ("-maxrate:" + tsid, br) in Pairs(res)
      && (codec in CodecProfile ==> ("-profile:" + tsid, "main") in Pairs(res))
      && (codec in CodecTags ==> ("-tag:" + tsid, CodecTags[codec]) in Pairs(res))
  {
    var res := NvencArgs(codec, tsid, br);
    assert Pairs(res)[0] == ("-c:" + tsid, codec) && Pairs(res)[1] == ("-pix_fmt:" + tsid, "yuv420p");
    assert Pairs(res)[2] == ("-preset:" + tsid, "p6");
    assert Pairs(res)[3] == ("-b:" + tsid, br) && Pairs(res)[4] == ("-maxrate:" + tsid, br);
    if codec in CodecProfile {
      assert Pairs(res)[5] == ("-profile:" + tsid, "main");
    }
    if codec in CodecTags {
      assert Pairs(res)[|res| / 2 - 1] == ("-tag:" + tsid, CodecTags[codec]);
    }
  }

  lemma X264Pairs(tsid: string, br: string, buf: string)
    ensures var res := X264Args(tsid, br, buf);
      && ("-c:" + tsid, "libx264") in Pairs(res) && ("-x264-params", "nal-hrd=cbr:force-cfr=1") in Pairs(res)
      && ("-b:" + tsid, br) in Pairs(res) && ("-maxrate:" + tsid, br) in Pairs(res)
      && ("-minrate:" + tsid, br) in Pairs(res) && ("-bufsize", buf) in Pairs(res)
      && ("-preset", "slow") in Pairs(res) && ("-g", "48") in Pairs(res)
      && ("-sc_threshold", "0") in Pairs(res) && ("-keyint_min", "48") in Pairs(res)
  {
    var res := X264Args(tsid, br, buf);
    assert Pairs(res)[0] == ("-c:" + tsid, "libx264") && Pairs(res)[1] == ("-x264-params", "nal-hrd=cbr:force-cfr=1");
    assert Pairs(res)[2] == ("-b:" + tsid, br) && Pairs(res)[3] == ("-maxrate:" + tsid, br);
    assert Pairs(res)[4] == ("-minrate:" + tsid, br) && Pairs(res)[5] == ("-bufsize", buf);
    assert Pairs(res)[6] == ("-preset", "slow") && Pairs(res)[7] == ("-g", "48");
    assert Pairs(res)[8] == ("-sc_threshold", "0") && Pairs(res)[9] == ("-keyint_min", "48");
  }

  lemma AomPairs(tsid: string, br: string, buf: string)
    ensures var res := AomArgs(tsid, br, buf);
      && ("-c:" + tsid, "libaom-av1") in Pairs(res)
      && ("-b:" + tsid, br) in Pairs(res) && ("-maxrate:" + tsid, br) in Pairs(res)
      && ("-minrate:" + tsid, br) in Pairs(res) && ("-bufsize", buf) in Pairs(res)
      && ("-preset:" + tsid, "slow") in Pairs(res)
  {
    var res := AomArgs(tsid, br, buf);
    assert Pairs(res)[0] == ("-c:" + tsid, "libaom-av1");
    assert Pairs(res)[1] == ("-b:" + tsid, br) && Pairs(res)[2] == ("-maxrate:" + tsid, br);
    assert Pairs(res)[3] == ("-minrate:" + tsid, br) && Pairs(res)[4] == ("-bufsize", buf);
    assert Pairs(res)[5] == ("-preset:" + tsid, "slow");
  }

  /** On the NVENC path the options name the encoder, the pixel format and
      preset p6, the bit rate as both rate and maximum rate, then the
      encoder's profile and tag. */
  lemma ArgsHardware(c: Codec, software: bool, tsid: string, bitrate: nat, v: VSize)
    requires Hardware(c, software, v)
    ensures var res := ArgsList(c, software, tsid, bitrate, v);
      var br := NatToString(bitrate);
      var codec := NvencName(c);
      && res != Unsupported
      && |res| == 10 + (if codec in CodecProfile then 2 else 0) + (if codec in CodecTags then 2 else 0)
      && ("-c:" + tsid, codec) in Pairs(res)
      && ("-pix_fmt:" + tsid, "yuv420p") in Pairs(res)
      && ("-preset:" + tsid, "p6") in Pairs(res)
      && ("-b:" + tsid, br) in Pairs(res) && ("-maxrate:" + tsid, br) in Pairs(res)
      && (codec in CodecProfile ==> ("-profile:" + tsid, "main") in Pairs(res))
      && (codec in CodecTags ==> ("-tag:" + tsid, CodecTags[codec]) in Pairs(res))
  {
    var br := NatToString(bitrate);
    NvencPairs(NvencName(c), tsid, br);
    assert NvencArgs(NvencName(c), tsid, br)[0][0] != Unsupported[0][0];
  }

  /** On the software path H264 gets libx264 and AV1 libaom-av1, each with
      bit rate, maximum and minimum rate equal and a buffer of twice the bit
      rate; any other codec (HEVC included) gets the error list. */
  lemma ArgsSoftware(c: Codec, software: bool, tsid: string, bitrate: nat, v: VSize)
    requires !Hardware(c, software, v)
    ensures var res := ArgsList(c, software, tsid, bitrate, v);
      var br := NatToString(bitrate);
      && (c == H264 || c == AV1 ==>
            && ("-c:" + tsid, if c == H264 then "libx264" else "libaom-av1") in Pairs(res)
            && ("-b:" + tsid, br) in Pairs(res) && ("-maxrate:" + tsid, br) in Pairs(res)
            && ("-minrate:" + tsid, br) in Pairs(res)
            && ("-bufsize", NatToString(bitrate * 2 % U64)) in Pairs(res))
      && (c == H264 ==>
            && |res| == 20
            && ("-x264-params", "nal-hrd=cbr:force-cfr=1") in Pairs(res)
            && ("-preset", "slow") in Pairs(res)
            && ("-g", "48") in Pairs(res) && ("-keyint_min", "48") in Pairs(res)
            && ("-sc_threshold", "0") in Pairs(res))
      && (c == AV1 ==> |res| == 12 && ("-preset:" + tsid, "slow") in Pairs(res))
      && (c != H264 && c != AV1 <==> res == Unsupported)
  {
    var br := NatToString(bitrate);
    var buf := NatToString(bitrate * 2 % U64);
    if c == H264 {
      X264Pairs(tsid, br, buf);
      assert |X264Args(tsid, br, buf)| != |Unsupported|;
    } else if c == AV1 {
      AomPairs(tsid, br, buf);
      assert |AomArgs(tsid, br, buf)| != |Unsupported|;
    }
  }

  /** Args: the encoder options of one output stream `tsid`, for a bit rate
      `bitrate` (computed from floating point in the source and taken here as
      given). */
  method Args(c: Codec, software: bool, tsid: string, bitrate: nat, v: VSize) returns (res: seq<string>)
    requires bitrate < U64
    ensures res == ArgsList(c, software, tsid, bitrate, v)
  {
    var br := NatToString(bitrate);
    var software := software;
    if !software && c == H264 && IsOver(v, 2048) {
      software := true;
    }
    if !software {
      var codec := NvencName(c);
      res := ["-c:" + tsid, codec,
              "-pix_fmt:" + tsid, "yuv420p",
              "-preset:" + tsid, "p6",
              "-b:" + tsid, br,
              "-maxrate:" + tsid, br];
      if codec in CodecProfile {
        res := res + ["-profile:" + tsid, CodecProfile[codec]];
      }
      if codec in CodecTags {
        res := res + ["-tag:" + tsid, CodecTags[codec]];
      }
      return;
    }
    if c == H264 {
      res := ["-c:" + tsid, "libx264",
              "-x264-params", "nal-hrd=cbr:force-cfr=1",
              "-b:" + tsid, br,
              "-maxrate:" + tsid, br,
              "-minrate:" + tsid, br,
              "-bufsize", NatToString(bitrate * 2 % U64),
              "-preset", "slow",
              "-g", "48",
              "-sc_threshold", "0",
              "-keyint_min", "48"];
    } else if c == AV1 {
      res := ["-c:" + tsid, "libaom-av1",
              "-b:" + tsid, br,
              "-maxrate:" + tsid, br,
              "-minrate:" + tsid, br,
              "-bufsize", NatToString(bitrate * 2 % U64),
              "-preset:" + tsid, "slow"];
    } else {
      res := Unsupported;
    }
  }
}
