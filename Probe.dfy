/** The stream lookups of ffprobe.go over the tracks ffprobe reports. */
module Probe {
  import opened Base

  /** The fields of one ffprobe stream that the rest of the model reads. */
  datatype ProbeStream = ProbeStream(index: int, codecName: string, codecType: string,
                                     width: int, height: int, tags: map<string, string>)

  /** The streams of a probed file, in ffprobe's order. */
  datatype Info = Info(streams: seq<ProbeStream>)
  {
    /** stream: the first stream of type `typ`, or nil. */
    method Stream(typ: string) returns (r: Option<ProbeStream>)
      ensures r == First(streams, typ)
    {
      for i := 0 to |streams|
        invariant First(streams, typ) == First(streams[i..], typ)
      {
        assert streams[i..][0] == streams[i] && streams[i..][1..] == streams[i + 1..];
        if streams[i].codecType == typ {
          return Some(streams[i]);
        }
      }
      return None;
    }

    /** streams: every stream of type `typ`, in order. */
    method Streams(typ: string) returns (res: seq<ProbeStream>)
      ensures res == Matching(streams, typ)
    {
      res := [];
      for i := 0 to |streams|
        invariant res == Matching(streams[..i], typ)
      {
        assert streams[..i + 1][..i] == streams[..i];
        if streams[i].codecType == typ {
          res := res + [streams[i]];
        }
      }
      assert streams[..|streams|] == streams;
    }

    /** video: the first video stream. */
    function Video(): (r: Option<ProbeStream>)
      ensures r == First(streams, "video")
      ensures r.Some? ==> r.value in streams && r.value.codecType == "video"
      ensures r.None? <==> forall i :: 0 <= i < |streams| ==> streams[i].codecType != "video"
    {
      First(streams, "video")
    }

    /** audio: the first audio stream. */
    function Audio(): (r: Option<ProbeStream>)
      ensures r == First(streams, "audio")
      ensures r.Some? ==> r.value in streams && r.value.codecType == "audio"
      ensures r.None? <==> forall i :: 0 <= i < |streams| ==> streams[i].codecType != "audio"
    {
      First(streams, "audio")
    }
  }

  /** The first stream of type `typ`: it has that type, and no stream
      before it does; when there is none, no stream has that type. */
  function First(ss: seq<ProbeStream>, typ: string): (r: Option<ProbeStream>)
    ensures r.Some? ==> exists i :: 0 <= i < |ss| && ss[i] == r.value && r.value.codecType == typ
                                    && forall j :: 0 <= j < i ==> ss[j].codecType != typ
    ensures r.None? <==> forall i :: 0 <= i < |ss| ==> ss[i].codecType != typ
  {
    if ss == [] then None
    else if ss[0].codecType == typ then Some(ss[0])
    else
      var r := First(ss[1..], typ);
      assert forall i :: 1 <= i < |ss| ==> ss[i] == ss[1..][i - 1];
      if r.Some? then
        var k :| 0 <= k < |ss[1..]| && ss[1..][k] == r.value && r.value.codecType == typ
                 && forall j :: 0 <= j < k ==> ss[1..][j].codecType != typ;
        assert ss[k + 1] == r.value && forall j :: 0 <= j < k + 1 ==> ss[j].codecType != typ;
        r
      else r
  }

  /** The streams of type `typ`, keeping their order. */
  function Matching(ss: seq<ProbeStream>, typ: string): seq<ProbeStream>
  {
    if ss == [] then []
    else Matching(ss[..|ss| - 1], typ) + (if ss[|ss| - 1].codecType == typ then [ss[|ss| - 1]] else [])
  }

  /** Filtering a concatenation filters each part: the filter keeps order. */
  lemma {:induction false} MatchingAppend(a: seq<ProbeStream>, b: seq<ProbeStream>, typ: string)
    ensures Matching(a + b, typ) == Matching(a, typ) + Matching(b, typ)
    decreases |b|
  {
    if b == [] {
      assert a + b == a;
    } else {
      var b' := b[..|b| - 1];
      assert (a + b)[..|a + b| - 1] == a + b';
      MatchingAppend(a, b', typ);
    }
  }

  /** The filter keeps exactly the streams of type `typ`: every stream it
      returns has that type and comes from `ss`, and every stream of that
      type in `ss` is returned. */
  lemma {:induction false} MatchingExactly(ss: seq<ProbeStream>, typ: string)
    ensures forall x :: x in Matching(ss, typ) ==> x in ss && x.codecType == typ
    ensures forall i :: 0 <= i < |ss| && ss[i].codecType == typ ==> ss[i] in Matching(ss, typ)
    decreases |ss|
  {
    if ss != [] {
      var init := ss[..|ss| - 1];
      MatchingExactly(init, typ);
      forall i | 0 <= i < |ss| - 1 ensures ss[i] == init[i] { }
    }
  }

  /** stream(typ) is nil exactly when streams(typ) is empty, and otherwise
      it is the first element of streams(typ). */
  lemma {:induction false} FirstIsHeadOfMatching(ss: seq<ProbeStream>, typ: string)
    ensures First(ss, typ).None? <==> Matching(ss, typ) == []
    ensures First(ss, typ).Some? ==> First(ss, typ).value == Matching(ss, typ)[0]
    decreases |ss|
  {
    if ss != [] {
      MatchingAppend([ss[0]], ss[1..], typ);
      assert [ss[0]] + ss[1..] == ss;
      assert Matching([ss[0]], typ) == (if ss[0].codecType == typ then [ss[0]] else []) by {
        assert [ss[0]][..0] == [];
      }
      FirstIsHeadOfMatching(ss[1..], typ);
    }
  }
}
