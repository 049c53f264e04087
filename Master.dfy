/** fixMaster (master.go:8-82): the master playlist ffmpeg writes lists every
    audio rendition as a variant stream; the fix moves each one into an
    `#EXT-X-MEDIA` rendition tag (section 4.3.4.1 of RFC 8216) and puts the
    remaining variants in the "audio" group. */
module Master {
  import opened Base
  import opened M3u8
  import opened HlsPlan
  import opened Hls

  const MediaTag: string := "#EXT-X-MEDIA:"
  const AudioGroup: string := ",AUDIO=\"audio\""

  /** The playlist ffmpeg writes for stream `id`: "<id>.m3u8". */
  function PlaylistName(id: nat): string
  {
    NatToString(id) + ".m3u8"
  }

  lemma PlaylistNameInjective(a: nat, b: nat)
    requires PlaylistName(a) == PlaylistName(b)
    ensures a == b
  {
    assert NatToString(a) == PlaylistName(a)[..|PlaylistName(a)| - 5];
    assert NatToString(b) == PlaylistName(b)[..|PlaylistName(b)| - 5];
    NatToStringInjective(a, b);
  }

  /** The attributes of the rendition tag of audio stream `s`, in the order
      fixMaster appends them; `first` tells whether it is the first audio
      rendition, the default one. */
  function AudioProps(s: HlsStream, first: bool): seq<string>
  {
    var tags := s.src.tags;
    var name := if "title" in tags then "NAME=" + Quote(tags["title"]) else "NAME=\"Undefined audio track\"";
    var lang := if "language" in tags then ["LANGUAGE=" + Quote(tags["language"])] else [];
    var default := if first then "DEFAULT=YES" else "DEFAULT=NO";
    ((["TYPE=AUDIO", "GROUP-ID=\"audio\""] + [name]) + lang + [default]) + ["AUTOSELECT=YES"] + ["URI=" + Quote(PlaylistName(s.id))]
  }

  /** The rendition tag line of audio stream `s`. */
  function MediaLine(s: HlsStream, first: bool): string
  {
    MediaTag + Join(AudioProps(s, first), ",")
  }

  /** The rendition attributes: TYPE, GROUP-ID and NAME (the title tag, or a
      fixed text) first, then LANGUAGE exactly when the stream has a language
      tag, DEFAULT=YES for the first rendition and DEFAULT=NO otherwise,
      AUTOSELECT and last the URI of the stream's playlist; no other
      attribute is a LANGUAGE or a DEFAULT one. */
  lemma AudioPropsShape(s: HlsStream, first: bool)
    ensures var p := AudioProps(s, first);
      var L := if "language" in s.src.tags then 1 else 0;
      && |p| == 6 + L
      && p[0] == "TYPE=AUDIO" && p[1] == "GROUP-ID=\"audio\""
      && ("title" in s.src.tags ==> p[2] == "NAME=" + Quote(s.src.tags["title"]))
      && ("title" !in s.src.tags ==> p[2] == "NAME=\"Undefined audio track\"")
      && ("language" in s.src.tags ==> p[3] == "LANGUAGE=" + Quote(s.src.tags["language"]))
      && p[3 + L] == (if first then "DEFAULT=YES" else "DEFAULT=NO")
      && p[4 + L] == "AUTOSELECT=YES"
      && p[5 + L] == "URI=" + Quote(PlaylistName(s.id))
  {
  }

  /** Only the LANGUAGE attribute starts with "LANGUAGE=", and only the
      DEFAULT attribute with "DEFAULT=". */
  lemma AudioPropsUnique(s: HlsStream, first: bool)
    ensures var p := AudioProps(s, first);
      forall k :: 0 <= k < |p| ==>
        && ("LANGUAGE=" <= p[k] ==> "language" in s.src.tags && k == 3)
        && ("DEFAULT=" <= p[k] ==> k == |p| - 3)
  {
    var p := AudioProps(s, first);
    forall k | 0 <= k < |p|
      ensures "LANGUAGE=" <= p[k] ==> "language" in s.src.tags && k == 3
      ensures "DEFAULT=" <= p[k] ==> k == |p| - 3
    {
      assert |p[k]| > 0;
      if "LANGUAGE=" <= p[k] {
        assert p[k][0] == 'L';
      }
      if "DEFAULT=" <= p[k] {
        assert p[k][0] == 'D';
      }
    }
  }

  // ---------------------------------------------------------------------------
  // The stream loop (master.go:41-73)
  // ---------------------------------------------------------------------------

  /** What the stream loop has done to the master: its files, its headers and
      whether an audio rendition was moved (`first` is its negation). */
  datatype Fixing = Fixing(files: seq<M3u8File>, headers: seq<string>, hasAudio: bool)

  /** One turn of the loop: an audio stream's playlist is taken out of the
      files and becomes a rendition tag; any other stream changes nothing. */
  function MoveOne(s: HlsStream, st: Fixing): (Fixing, Option<Error>)
  {
    if s.typ != AudioStream then (st, None)
    else match FindFile(st.files, PlaylistName(s.id))
      case None => (st, Some(CouldNotRemoveStream(s.id)))
      case Some(k) =>
        (Fixing(st.files[..k] + st.files[k + 1..], st.headers + [MediaLine(s, !st.hasAudio)], true), None)
  }

  /** The loop over the streams in creation order, stopping at the first
      stream whose playlist is missing. */
  function Moves(ss: seq<HlsStream>, st: Fixing): (Fixing, Option<Error>)
  {
    if ss == [] then (st, None)
    else
      var (p, e) := Moves(ss[..|ss| - 1], st);
      if e.Some? then (p, e) else MoveOne(ss[|ss| - 1], p)
  }

  lemma MovesNext(ss: seq<HlsStream>, i: nat, st: Fixing)
    requires i < |ss|
    ensures Moves(ss[..i + 1], st) ==
      (var (p, e) := Moves(ss[..i], st); if e.Some? then (p, e) else MoveOne(ss[i], p))
  {
    assert ss[..i + 1][..i] == ss[..i];
  }

  /** Once a stream's playlist is missing the loop has returned: the later
      streams change nothing. */
  lemma {:induction false} MovesStops(ss: seq<HlsStream>, i: nat, st: Fixing)
    requires i <= |ss| && Moves(ss[..i], st).1.Some?
    ensures Moves(ss, st) == Moves(ss[..i], st)
    decreases |ss| - i
  {
    if i < |ss| {
      MovesNext(ss, i, st);
      MovesStops(ss, i + 1, st);
    } else {
      assert ss[..i] == ss;
    }
  }

  /** The audio streams, in order. */
  function Audios(ss: seq<HlsStream>): seq<HlsStream>
  {
    if ss == [] then []
    else Audios(ss[..|ss| - 1]) + (if ss[|ss| - 1].typ == AudioStream then [ss[|ss| - 1]] else [])
  }

  /** The rendition tags of the audio streams `au`, the first of them the
      default one when `first` holds. */
  function MediaLines(au: seq<HlsStream>, first: bool): seq<string>
  {
    if au == [] then []
    else MediaLines(au[..|au| - 1], first) + [MediaLine(au[|au| - 1], first && |au| == 1)]
  }

  /** When no playlist is missing, the loop has taken one entry out per
      audio stream and knows whether there was audio. */
  lemma {:induction false} MovesTakes(ss: seq<HlsStream>, st: Fixing)
    requires Moves(ss, st).1.None?
    ensures Moves(ss, st).0.hasAudio == (st.hasAudio || |Audios(ss)| > 0)
    ensures |Moves(ss, st).0.files| == |st.files| - |Audios(ss)|
  {
    if ss != [] {
      var p := ss[..|ss| - 1];
      var s := ss[|ss| - 1];
      var q := Moves(p, st).0;
      assert Moves(p, st).1.None? && Moves(ss, st) == MoveOne(s, q);
      MovesTakes(p, st);
      if s.typ == AudioStream {
        assert |Moves(ss, st).0.files| == |q.files| - 1;
      }
    }
  }

  /** When no playlist is missing, the loop has appended one rendition tag
      per audio stream, in stream order, with only the very first rendition
      the default; other streams leave no trace. */
  lemma {:induction false} MovesAppends(ss: seq<HlsStream>, st: Fixing)
    requires Moves(ss, st).1.None?
    ensures Moves(ss, st).0.headers == st.headers + MediaLines(Audios(ss), !st.hasAudio)
  {
    if ss != [] {
      var p := ss[..|ss| - 1];
      var s := ss[|ss| - 1];
      var q := Moves(p, st).0;
      assert Moves(p, st).1.None? && Moves(ss, st) == MoveOne(s, q);
      MovesAppends(p, st);
      if s.typ == AudioStream {
        MovesTakes(p, st);
        var au := Audios(ss);
        assert au == Audios(p) + [s];
        assert au[..|au| - 1] == Audios(p) && au[|au| - 1] == s;
        var line := MediaLine(s, !q.hasAudio);
        assert Moves(ss, st).0.headers == q.headers + [line];
        assert line == MediaLine(s, !st.hasAudio && |au| == 1);
        assert MediaLines(au, !st.hasAudio) == MediaLines(Audios(p), !st.hasAudio) + [line];
        assert q.headers + [line] == st.headers + (MediaLines(Audios(p), !st.hasAudio) + [line]);
      } else {
        assert Audios(ss) == Audios(p);
      }
    }
  }

  /** Every line the loop appends is a rendition tag whose DEFAULT is YES for
      the first audio stream and NO for every later one. */
  lemma {:induction false} MediaLinesDefault(au: seq<HlsStream>, first: bool, j: nat)
    requires j < |au|
    ensures |MediaLines(au, first)| == |au|
    ensures MediaLines(au, first)[j] == MediaLine(au[j], first && j == 0)
    decreases |au|
  {
    if j < |au| - 1 {
      MediaLinesDefault(au[..|au| - 1], first, j);
    } else if |au| > 1 {
      MediaLinesDefault(au[..|au| - 1], first, 0);
    }
  }

  // ---------------------------------------------------------------------------
  // When does the loop fail?
  // ---------------------------------------------------------------------------

  /** The filenames of a playlist's entries. */
  function Names(files: seq<M3u8File>): set<string>
  {
    set j | 0 <= j < |files| :: files[j].filename
  }

  predicate DistinctNames(files: seq<M3u8File>)
  {
    forall i, j :: 0 <= i < j < |files| ==> files[i].filename != files[j].filename
  }

  predicate DistinctIds(ss: seq<HlsStream>)
  {
    forall i, j :: 0 <= i < j < |ss| ==> ss[i].id != ss[j].id
  }

  /** The playlist names of the audio streams. */
  function AudioNames(ss: seq<HlsStream>): set<string>
  {
    set i | 0 <= i < |ss| && ss[i].typ == AudioStream :: PlaylistName(ss[i].id)
  }

  /** Taking out the entry at `k` drops exactly its name when names are
      distinct. */
  lemma TakeNames(files: seq<M3u8File>, k: nat)
    requires k < |files| && DistinctNames(files)
    ensures var rest := files[..k] + files[k + 1..];
      DistinctNames(rest) && Names(rest) == Names(files) - {files[k].filename}
  {
    var rest := files[..k] + files[k + 1..];
    assert forall j :: 0 <= j < |rest| ==> rest[j] == files[if j < k then j else j + 1];
    forall x | x in Names(files) - {files[k].filename}
      ensures x in Names(rest)
    {
      var j :| 0 <= j < |files| && files[j].filename == x;
      assert rest[if j < k then j else j - 1].filename == x;
    }
  }

  /** Every audio stream's playlist is among `names`. */
  predicate AllListed(ss: seq<HlsStream>, names: set<string>)
  {
    forall i :: 0 <= i < |ss| && ss[i].typ == AudioStream ==> PlaylistName(ss[i].id) in names
  }

  lemma AudioNext(ss: seq<HlsStream>, names: set<string>)
    requires ss != []
    ensures var p, s := ss[..|ss| - 1], ss[|ss| - 1];
      && (AllListed(ss, names) <==> AllListed(p, names) && (s.typ == AudioStream ==> PlaylistName(s.id) in names))
      && AudioNames(ss) == AudioNames(p) + (if s.typ == AudioStream then {PlaylistName(s.id)} else {})
  {
    var p, s := ss[..|ss| - 1], ss[|ss| - 1];
    assert forall i :: 0 <= i < |p| ==> p[i] == ss[i];
    forall x | x in AudioNames(ss)
      ensures x in AudioNames(p) + (if s.typ == AudioStream then {PlaylistName(s.id)} else {})
    {
      var i :| 0 <= i < |ss| && ss[i].typ == AudioStream && x == PlaylistName(ss[i].id);
      if i < |p| {
        assert p[i] == ss[i];
      }
    }
  }

  /** With distinct ids, the last stream's playlist name is not one of the
      earlier audio streams'. */
  lemma AudioNameFresh(ss: seq<HlsStream>)
    requires ss != [] && DistinctIds(ss)
    ensures PlaylistName(ss[|ss| - 1].id) !in AudioNames(ss[..|ss| - 1])
  {
    var p, s := ss[..|ss| - 1], ss[|ss| - 1];
    if PlaylistName(s.id) in AudioNames(p) {
      var i :| 0 <= i < |p| && p[i].typ == AudioStream && PlaylistName(s.id) == PlaylistName(p[i].id);
      assert ss[i] == p[i];
      PlaylistNameInjective(p[i].id, s.id);
      assert false;
    }
  }

  /** With distinct stream ids (newStream numbers streams by position) and
      distinct filenames in the master, fixMaster fails exactly when some
      audio stream's playlist is not among the master's entries; when it
      succeeds the remaining entries are the others. */
  lemma {:induction false} MovesFails(ss: seq<HlsStream>, st: Fixing)
    requires DistinctIds(ss) && DistinctNames(st.files)
    ensures var (r, e) := Moves(ss, st);
      && (e.None? <==> AllListed(ss, Names(st.files)))
      && (e.None? ==> DistinctNames(r.files) && Names(r.files) == Names(st.files) - AudioNames(ss))
  {
    if ss == [] {
      assert AudioNames(ss) == {};
    } else {
      var p, s := ss[..|ss| - 1], ss[|ss| - 1];
      assert DistinctIds(p);
      MovesFails(p, st);
      AudioNext(ss, Names(st.files));
      var q := Moves(p, st).0;
      if Moves(p, st).1.None? && s.typ == AudioStream {
        var nm := PlaylistName(s.id);
        AudioNameFresh(ss);
        var found := FindFile(q.files, nm);
        if found.Some? {
          TakeNames(q.files, found.value);
          assert nm in Names(q.files);
        } else {
          assert nm !in Names(q.files);
        }
      }
    }
  }

  /** newStream's numbering makes the stream ids distinct. */
  lemma NumberedIds(ss: seq<HlsStream>)
    requires Numbered(ss)
    ensures DistinctIds(ss)
  {
  }

  // ---------------------------------------------------------------------------
  // The audio group (master.go:75-79)
  // ---------------------------------------------------------------------------

  /** Every entry has a first header: parse opens each entry with its tag. */
  predicate Headed(files: seq<M3u8File>)
  {
    forall j :: 0 <= j < |files| ==> |files[j].headers| > 0
  }

  /** The entries with AUDIO="audio" appended to their first header. */
  function Grouped(files: seq<M3u8File>): (r: seq<M3u8File>)
    requires Headed(files)
  {
    seq(|files|, j requires 0 <= j < |files| =>
      files[j].(headers := files[j].headers[0 := files[j].headers[0] + AudioGroup]))
  }

  /** Grouping keeps each entry's name and its other headers and only
      extends its first header. */
  lemma GroupedKeeps(files: seq<M3u8File>, j: nat, k: nat)
    requires Headed(files) && j < |files| && k < |files[j].headers|
    ensures |Grouped(files)| == |files|
    ensures Grouped(files)[j].filename == files[j].filename
    ensures |Grouped(files)[j].headers| == |files[j].headers|
    ensures Grouped(files)[j].headers[k] == if k == 0 then files[j].headers[0] + AudioGroup else files[j].headers[k]
  {
  }

  /** What fixMaster demands of the master: when the loop moves an audio
      rendition, every remaining entry has a first header to extend. */
  predicate Groupable(ss: seq<HlsStream>, files: seq<M3u8File>, headers: seq<string>)
  {
    var (r, e) := Moves(ss, Fixing(files, headers, false));
    e.None? && r.hasAudio ==> Headed(r.files)
  }

  /** fixMaster on the builder's streams: on success the master holds the
      rendition tags after its headers and its remaining entries in the
      audio group when there was audio; on a missing playlist the error,
      with the master as the loop left it. */
  method FixMaster(hls: HlsBuilder, master: M3u8) returns (err: Option<Error>)
    requires Groupable(hls.streams, master.files, master.headers)
    modifies master
    ensures master.footer == old(master.footer)
    ensures var (r, e) := Moves(hls.streams, Fixing(old(master.files), old(master.headers), false));
      && err == e && master.headers == r.headers
      && master.files == (if e.None? && r.hasAudio then Grouped(r.files) else r.files)
  {
    ghost var st0 := Fixing(master.files, master.headers, false);
    var first, hasAudio := true, false;
    for i := 0 to |hls.streams|
      invariant Moves(hls.streams[..i], st0) == (Fixing(master.files, master.headers, hasAudio), None)
      invariant first == !hasAudio
      invariant master.footer == old(master.footer)
    {
      MovesNext(hls.streams, i, st0);
      var stream := hls.streams[i];
      if stream.typ == AudioStream {
        err := MoveAudio(master, stream, first);
        if err.Some? {
          MovesStops(hls.streams, i + 1, st0);
          return;
        }
        first := false;
        hasAudio := true;
      }
    }
    assert hls.streams[..|hls.streams|] == hls.streams;
    err := None;
    if hasAudio {
      AddAudioGroup(master);
    }
  }

  /** The body of the stream loop for an audio stream: take its playlist out
      of the master and append its rendition tag. */
  method MoveAudio(master: M3u8, stream: HlsStream, first: bool) returns (err: Option<Error>)
    requires stream.typ == AudioStream
    modifies master
    ensures master.footer == old(master.footer)
    ensures var (r, e) := MoveOne(stream, Fixing(old(master.files), old(master.headers), !first));
      err == e && master.files == r.files && master.headers == r.headers
  {
    var r := master.TakeFile(PlaylistName(stream.id));
    if r.Err? {
      return Some(CouldNotRemoveStream(stream.id));
    }
    var f := r.value;
    assert f.filename == PlaylistName(stream.id);
    var tags := stream.src.tags;
    var props := ["TYPE=AUDIO", "GROUP-ID=\"audio\""];
    if "title" in tags {
      props := props + ["NAME=" + Quote(tags["title"])];
    } else {
      props := props + ["NAME=\"Undefined audio track\""];
    }
    if "language" in tags {
      props := props + ["LANGUAGE=" + Quote(tags["language"])];
    }
    if first {
      props := props + ["DEFAULT=YES"];
    } else {
      props := props + ["DEFAULT=NO"];
    }
    props := props + ["AUTOSELECT=YES"];
    props := props + ["URI=" + Quote(f.filename)];
    assert props == AudioProps(stream, first);
    master.headers := master.headers + [MediaTag + Join(props, ",")];
    err := None;
  }

  /** The audio group loop: every entry's first header gets AUDIO="audio". */
  method AddAudioGroup(master: M3u8)
    requires Headed(master.files)
    modifies master
    ensures master.files == Grouped(old(master.files))
    ensures master.headers == old(master.headers) && master.footer == old(master.footer)
  {
    ghost var fs := master.files;
    for j := 0 to |master.files|
      invariant |master.files| == |fs|
      invariant forall k :: 0 <= k < j ==> master.files[k] == Grouped(fs)[k]
      invariant forall k :: j <= k < |fs| ==> master.files[k] == fs[k]
      invariant master.headers == old(master.headers) && master.footer == old(master.footer)
    {
      var hs := master.files[j].headers;
      master.files := master.files[j := master.files[j].(headers := hs[0 := hs[0] + AudioGroup])];
    }
  }
}
