/** What build (hls.go:121-292) produces, stated as functions of its inputs:
    the master with its subtitle entries, the sub-playlists it loads, the
    media files they reference in first-reference order, the index slot of
    each, the rewritten playlists and the entries of the container. */
module HlsPlan {
  import opened Base
  import opened HlsTags
  import opened Probe

  // ---------------------------------------------------------------------------
  // Streams (stream.go)
  // ---------------------------------------------------------------------------

  /** The stream kinds: the first byte of ffprobe's codec type. */
  const VideoStream: char := 'v'
  const AudioStream: char := 'a'
  const SubsStream: char := 's'

  /** An output stream: global number, number among streams of its kind,
      kind and the probed stream it comes from. */
  datatype HlsStream = HlsStream(id: nat, lid: nat, typ: char, src: ProbeStream)
  {
    /** String: the kind, ':' and the per-kind number, as in "a:1". */
    function String(): string
    {
      [typ] + ":" + NatToString(lid)
    }
  }

  /** Two streams with the same String() are of the same kind and have the
      same per-kind number. */
  lemma StringInjective(a: HlsStream, b: HlsStream)
    requires a.String() == b.String()
    ensures a.typ == b.typ && a.lid == b.lid
  {
    var s := a.String();
    assert s[0] == a.typ && b.String()[0] == b.typ;
    assert s[2..] == NatToString(a.lid) && b.String()[2..] == NatToString(b.lid);
    NatToStringInjective(a.lid, b.lid);
  }

  /** The number of streams of kind `typ`. */
  function CountKind(ss: seq<HlsStream>, typ: char): nat
  {
    if ss == [] then 0
    else CountKind(ss[..|ss| - 1], typ) + (if ss[|ss| - 1].typ == typ then 1 else 0)
  }

  /** The invariant newStream keeps on hls.streams: every stream's id is its
      position and its lid counts the earlier streams of its kind. */
  ghost predicate Numbered(ss: seq<HlsStream>)
  {
    forall i :: 0 <= i < |ss| ==> ss[i].id == i && ss[i].lid == CountKind(ss[..i], ss[i].typ)
  }

  lemma {:induction false} CountKindGrows(ss: seq<HlsStream>, i: nat, j: nat, typ: char)
    requires i < j <= |ss| && ss[i].typ == typ
    ensures CountKind(ss[..j], typ) >= CountKind(ss[..i], typ) + 1
    decreases j
  {
    if j == i + 1 {
      assert ss[..j][..i] == ss[..i];
    } else {
      CountKindGrows(ss, i, j - 1, typ);
      assert ss[..j][..j - 1] == ss[..j - 1];
    }
  }

  /** The stream names of a numbered stream list are all different, so the
      names ffmpeg's var_stream_map receives identify the streams. */
  lemma NumberedNamesDistinct(ss: seq<HlsStream>, i: nat, j: nat)
    requires Numbered(ss) && i < j < |ss|
    ensures ss[i].String() != ss[j].String()
  {
    if ss[i].String() == ss[j].String() {
      StringInjective(ss[i], ss[j]);
      CountKindGrows(ss, i, j, ss[i].typ);
      assert false;
    }
  }

  // ---------------------------------------------------------------------------
  // File type flags (hlsFlags, hlsFlagsName)
  // ---------------------------------------------------------------------------

  const FilePlaylist: nat := 0
  const FileMpegTS: nat := 1
  const FileMP4: nat := 2
  const FileVTT: nat := 3
  const FileM4S: nat := 4

  /** The extensions of the five file types, in flag order. */
  const FlagExts: seq<string> := [".m3u8", ".ts", ".mp4", ".vtt", ".m4s"]

  /** hlsFlagsName: the type flag of a file name by its extension; an unknown
      extension is the panic "invalid filename". hlsFlags is the same switch
      on an entry's file name. */
  function FlagsName(fn: string): Result<nat>
  {
    match Ext(fn)
    case ".m3u8" => Ok(FilePlaylist)
    case ".ts" => Ok(FileMpegTS)
    case ".mp4" => Ok(FileMP4)
    case ".vtt" => Ok(FileVTT)
    case ".m4s" => Ok(FileM4S)
    case _ => Err(UnsupportedMediaType(fn))
  }

  /** The flag is k exactly when the extension is the k-th known one, and an
      error exactly when the extension is none of them. */
  lemma FlagsNameTable(fn: string)
    ensures forall k :: 0 <= k < |FlagExts| ==> (FlagsName(fn) == Ok(k) <==> Ext(fn) == FlagExts[k])
    ensures FlagsName(fn).Err? <==> Ext(fn) !in FlagExts
    ensures FlagsName(fn).Err? ==> FlagsName(fn).error == UnsupportedMediaType(fn)
  {
    var e := Ext(fn);
    if e == ".m3u8" {
    } else if e == ".ts" {
    } else if e == ".mp4" {
    } else if e == ".vtt" {
    } else if e == ".m4s" {
    } else {
      assert e !in FlagExts;
    }
  }

  // ---------------------------------------------------------------------------
  // Subtitles (hls.go:131-178)
  // ---------------------------------------------------------------------------

  /** The name of the playlist written for subtitle stream `id`. */
  function SubName(id: nat): string
  {
    "stream_" + NatToString(id) + "_sub.m3u8"
  }

  /** The language code: the first two characters of a longer tag. */
  function Lang(lng: string): string
  {
    if |lng| > 2 then lng[..2] else lng
  }

  /** The display name: the title tag, else "<language> subs", else "subtitles". */
  function SubTitle(tags: map<string, string>): string
  {
    if "title" in tags then tags["title"]
    else if "language" in tags then tags["language"] + " subs"
    else "subtitles"
  }

  /** The attributes of the #EXT-X-MEDIA entry of a subtitle stream. */
  function SubOpts(s: HlsStream): seq<string>
  {
    ["TYPE=SUBTITLES", "GROUP-ID=\"subs\"", "DEFAULT=NO", "AUTOSELECT=YES", "FORCED=NO", "URI=" + Quote(SubName(s.id))]
    + (if "language" in s.src.tags then ["LANGUAGE=" + Quote(Lang(s.src.tags["language"]))] else [])
    + ["NAME=" + Quote(SubTitle(s.src.tags))]
  }

  /** What each subtitle entry carries: the fixed attributes first, then
      LANGUAGE exactly when the stream has a language tag, then NAME last. */
  lemma SubOptsShape(s: HlsStream)
    ensures var o := SubOpts(s);
      && o[..6] == ["TYPE=SUBTITLES", "GROUP-ID=\"subs\"", "DEFAULT=NO", "AUTOSELECT=YES", "FORCED=NO", "URI=" + Quote(SubName(s.id))]
      && o[|o| - 1] == "NAME=" + Quote(SubTitle(s.src.tags))
      && ("language" in s.src.tags <==> |o| == 8)
      && ("language" in s.src.tags ==> o[6] == "LANGUAGE=" + Quote(Lang(s.src.tags["language"])))
  {
  }

  /** The language code has at most two characters and starts the tag. */
  lemma LangPrefix(lng: string)
    ensures |Lang(lng)| <= 2 && Lang(lng) <= lng
    ensures |lng| <= 2 ==> Lang(lng) == lng
  {
  }

  function SubEntry(s: HlsStream): PlFile
  {
    PlFile([Tag("#EXT-X-MEDIA", SubOpts(s))], SubName(s.id), false)
  }

  /** The entries appended to the master: one per subtitle stream, in order. */
  function SubEntries(ss: seq<HlsStream>): seq<PlFile>
  {
    if ss == [] then []
    else SubEntries(ss[..|ss| - 1]) + (if ss[|ss| - 1].typ == SubsStream then [SubEntry(ss[|ss| - 1])] else [])
  }

  /** The working directory's playlists after the subtitle playlists are
      saved; `vtt(id)` is the single-segment playlist m3u8BuildVTT makes for
      stream `id`. */
  function SavedLists(lists: map<string, Result<Pl>>, ss: seq<HlsStream>, vtt: nat -> Pl): map<string, Result<Pl>>
  {
    if ss == [] then lists
    else
      var before := SavedLists(lists, ss[..|ss| - 1], vtt);
      var s := ss[|ss| - 1];
      if s.typ == SubsStream then before[SubName(s.id) := Ok(vtt(s.id))] else before
  }

  /** One more stream: a subtitle stream adds its entry and its playlist,
      any other changes nothing. */
  lemma SubsNext(ss: seq<HlsStream>, i: nat, lists: map<string, Result<Pl>>, vtt: nat -> Pl)
    requires i < |ss|
    ensures SubEntries(ss[..i + 1]) == SubEntries(ss[..i]) + (if ss[i].typ == SubsStream then [SubEntry(ss[i])] else [])
    ensures SavedLists(lists, ss[..i + 1], vtt) ==
      if ss[i].typ == SubsStream then SavedLists(lists, ss[..i], vtt)[SubName(ss[i].id) := Ok(vtt(ss[i].id))]
      else SavedLists(lists, ss[..i], vtt)
  {
    assert ss[..i + 1][..i] == ss[..i];
  }

  /** set on a tag that may lack the attribute: replace it in place, or add
      it at the end. */
  function SetOrAdd(t: Tag, name: string, raw: string): Tag
  {
    if FindVar(t.vars, name).Some? then Set(t, name, raw) else t.(vars := t.vars + [name + "=" + raw])
  }

  /** The subtitle group reference, as hls.go:175 means it (the attribute is
      added when the tag lacks it). */
  function MarkSubs(f: PlFile): PlFile
  {
    if f.standalone && |f.headers| > 0 then f.(headers := f.headers[0 := SetOrAdd(f.headers[0], "SUBTITLES", Quote("subs"))])
    else f
  }

  /** hls.go:175 as written: set is a no-op on a tag without SUBTITLES. */
  function MarkSubsAsWritten(f: PlFile): PlFile
  {
    if f.standalone && |f.headers| > 0 then f.(headers := f.headers[0 := Set(f.headers[0], "SUBTITLES", Quote("subs"))])
    else f
  }

  /** After marking, a standalone entry's first tag names the subtitle group;
      referential entries are untouched. */
  lemma MarkSubsRefers(f: PlFile)
    ensures !f.standalone ==> MarkSubs(f) == f
    ensures f.standalone && |f.headers| > 0 ==> Get(MarkSubs(f).headers[0], "SUBTITLES") == "subs"
  {
    if f.standalone && |f.headers| > 0 {
      var t := f.headers[0];
      if FindVar(t.vars, "SUBTITLES").Some? {
        SetThenGet(t, "SUBTITLES", "subs");
      } else {
        var nv := "SUBTITLES" + "=" + Quote("subs");
        var t' := t.(vars := t.vars + [nv]);
        assert SetOrAdd(t, "SUBTITLES", Quote("subs")) == t';
        assert MarkSubs(f).headers[0] == t';
        assert Named(nv, "SUBTITLES");
        FindVarLast(t.vars, nv, "SUBTITLES");
        assert t'.vars[|t.vars|] == nv;
        assert nv[|"SUBTITLES"| + 1..] == Quote("subs");
        assert Unquote(Quote("subs")) == "subs";
      }
    }
  }

  lemma {:induction false} FindVarLast(vars: seq<string>, v: string, name: string)
    requires FindVar(vars, name).None? && Named(v, name)
    ensures FindVar(vars + [v], name) == Some(|vars|)
    decreases |vars|
  {
    if vars != [] {
      assert (vars + [v])[1..] == vars[1..] + [v];
      assert FindVar(vars[1..], name).None? by {
        assert forall j :: 0 <= j < |vars[1..]| ==> vars[1..][j] == vars[j + 1];
      }
      FindVarLast(vars[1..], v, name);
    }
  }

  /** The discrepancy at hls.go:175: a video entry whose stream tag has no
      SUBTITLES attribute (what the packager writes for streams it packaged
      without subtitles) keeps no reference to the subtitle group. */
  lemma MarkSubsAsWrittenMissesGroup()
    ensures var f := PlFile([Tag("#EXT-X-STREAM-INF", ["BANDWIDTH=1000", "RESOLUTION=640x360"])], "stream_0.m3u8", true);
      && Get(MarkSubsAsWritten(f).headers[0], "SUBTITLES") == ""
      && Get(MarkSubs(f).headers[0], "SUBTITLES") == "subs"
  {
    var f := PlFile([Tag("#EXT-X-STREAM-INF", ["BANDWIDTH=1000", "RESOLUTION=640x360"])], "stream_0.m3u8", true);
    var t := f.headers[0];
    assert t.vars[0][0] != ("SUBTITLES" + "=")[0];
    assert t.vars[1][0] != ("SUBTITLES" + "=")[0];
    assert FindVar(t.vars[1..], "SUBTITLES") == None by {
      assert FindVar(t.vars[1..][1..], "SUBTITLES") == None;
    }
    MarkSubsRefers(f);
  }

  /** The master after hls.go:131-178: the subtitle entries appended and,
      when there are any, the standalone entries marked. */
  function WithSubtitles(master: Pl, ss: seq<HlsStream>): Pl
  {
    var subs := SubEntries(ss);
    var files := master.files + subs;
    master.(files := if |subs| > 0 then seq(|files|, i requires 0 <= i < |files| => MarkSubs(files[i])) else files)
  }

  // ---------------------------------------------------------------------------
  // Loading the sub-playlists and collecting their media (hls.go:180-199)
  // ---------------------------------------------------------------------------

  /** The playlist each master entry names, in master order, or the first
      error reading one. */
  function Load(lists: map<string, Result<Pl>>, files: seq<PlFile>): Result<seq<Pl>>
  {
    if files == [] then Ok([])
    else match Load(lists, files[..|files| - 1])
      case Err(e) => Err(e)
      case Ok(pls) =>
        var fn := files[|files| - 1].filename;
        if fn !in lists then Err(NotExist)
        else match lists[fn]
          case Err(e) => Err(e)
          case Ok(pl) => Ok(pls + [pl])
  }

  lemma LoadLength(lists: map<string, Result<Pl>>, files: seq<PlFile>)
    ensures Load(lists, files).Ok? ==> |Load(lists, files).value| == |files|
  {
  }

  /** Loading stops at the first entry that fails: an error in a prefix is
      the error of the whole list. */
  lemma {:induction false} LoadStops(lists: map<string, Result<Pl>>, files: seq<PlFile>, n: nat)
    requires n <= |files| && Load(lists, files[..n]).Err?
    ensures Load(lists, files) == Load(lists, files[..n])
    decreases |files| - n
  {
    if n < |files| {
      assert files[..n + 1][..n] == files[..n];
      LoadStops(lists, files, n + 1);
    } else {
      assert files[..n] == files;
    }
  }

  /** Reading the next entry's playlist: an error ends the load with that
      error, a playlist is appended. */
  lemma LoadNext(lists: map<string, Result<Pl>>, files: seq<PlFile>, n: nat, pls: seq<Pl>)
    requires n < |files| && Load(lists, files[..n]) == Ok(pls)
    ensures var fn := files[n].filename;
      var r := if fn in lists then lists[fn] else Err(NotExist);
      && (r.Err? ==> Load(lists, files) == Err(r.error))
      && (r.Ok? ==> Load(lists, files[..n + 1]) == Ok(pls + [r.value]))
  {
    assert files[..n + 1][..n] == files[..n];
    var fn := files[n].filename;
    if fn !in lists || lists[fn].Err? {
      LoadStops(lists, files, n + 1);
    }
  }

  /** The master entries renamed to "<n>.m3u8" (setFilename). */
  function Renamed(master: Pl): (r: Pl)
    ensures r.headers == master.headers && r.footer == master.footer && |r.files| == |master.files|
    ensures forall n :: 0 <= n < |r.files| ==> r.files[n] == SetFilename(master.files[n], NatToString(n) + ".m3u8")
  {
    master.(files := seq(|master.files|, n requires 0 <= n < |master.files| => SetFilename(master.files[n], NatToString(n) + ".m3u8")))
  }

  const MapKey := "#EXT-X-MAP"

  /** The init segment a tag references: the URI of an #EXT-X-MAP tag. */
  function TagRef(h: Tag): seq<string>
  {
    if h.key == MapKey then [Get(h, "URI")] else []
  }

  /** The init segments a playlist's tags reference, in tag order. */
  function MapURIs(hs: seq<Tag>): seq<string>
  {
    if hs == [] then [] else MapURIs(hs[..|hs| - 1]) + TagRef(hs[|hs| - 1])
  }

  lemma {:induction false} MapURIsPrefix(hs: seq<Tag>, i: nat)
    requires i <= |hs|
    ensures MapURIs(hs[..i]) <= MapURIs(hs)
    decreases |hs| - i
  {
    if i < |hs| {
      MapURIsPrefix(hs, i + 1);
      assert hs[..i + 1][..i] == hs[..i];
    } else {
      assert hs[..i] == hs;
    }
  }

  /** One more tag adds its init segment, if it has one. */
  lemma MapURIsNext(hs: seq<Tag>, j: nat)
    requires j < |hs|
    ensures MapURIs(hs[..j + 1]) == MapURIs(hs[..j]) + TagRef(hs[j])
  {
    assert hs[..j + 1][..j] == hs[..j];
  }

  function Names(fs: seq<PlFile>): (r: seq<string>)
    ensures |r| == |fs| && forall i :: 0 <= i < |fs| ==> r[i] == fs[i].filename
  {
    seq(|fs|, i requires 0 <= i < |fs| => fs[i].filename)
  }

  /** The media references of one playlist: init segments, then entries. */
  function PlRefs(pl: Pl): seq<string>
  {
    MapURIs(pl.headers) + Names(pl.files)
  }

  /** The media references of all playlists, in the order build visits them. */
  function Refs(pls: seq<Pl>): seq<string>
  {
    if pls == [] then [] else Refs(pls[..|pls| - 1]) + PlRefs(pls[|pls| - 1])
  }

  lemma {:induction false} RefsPrefix(pls: seq<Pl>, i: nat)
    requires i <= |pls|
    ensures Refs(pls[..i]) <= Refs(pls)
    decreases |pls| - i
  {
    if i < |pls| {
      RefsPrefix(pls, i + 1);
      assert pls[..i + 1][..i] == pls[..i];
    } else {
      assert pls[..i] == pls;
    }
  }

  /** Appending a playlist appends its references. */
  lemma RefsAppend(pls: seq<Pl>, pl: Pl)
    ensures Refs(pls + [pl]) == Refs(pls) + PlRefs(pl)
  {
    assert (pls + [pl])[..|pls|] == pls;
  }

  /** One more playlist adds its references. */
  lemma RefsNext(pls: seq<Pl>, k: nat)
    requires k < |pls|
    ensures Refs(pls[..k + 1]) == Refs(pls[..k]) + PlRefs(pls[k])
  {
    assert pls[..k + 1][..k] == pls[..k];
  }

  // ---------------------------------------------------------------------------
  // First-reference order and slots (hls.go:207-248)
  // ---------------------------------------------------------------------------

  /** The distinct names of `s` in order of first occurrence. */
  function Dedup(s: seq<string>): seq<string>
  {
    if s == [] then []
    else
      var d := Dedup(s[..|s| - 1]);
      if s[|s| - 1] in s[..|s| - 1] then d else d + [s[|s| - 1]]
  }

  predicate Distinct(s: seq<string>)
  {
    forall i, j :: 0 <= i < j < |s| ==> s[i] != s[j]
  }

  /** Dedup keeps exactly the names of `s`, each once. */
  lemma {:induction false} DedupElements(s: seq<string>)
    ensures Distinct(Dedup(s))
    ensures forall x :: x in Dedup(s) <==> x in s
  {
    if s != [] {
      var init := s[..|s| - 1];
      DedupElements(init);
      assert s == init + [s[|s| - 1]];
    }
  }

  /** Reading more references only appends to the order found so far. */
  lemma {:induction false} DedupPrefix(a: seq<string>, b: seq<string>)
    ensures Dedup(a) <= Dedup(a + b)
    decreases |b|
  {
    if b != [] {
      var b' := b[..|b| - 1];
      DedupPrefix(a, b');
      assert (a + b)[..|a + b| - 1] == a + b';
    } else {
      assert a + b == a;
    }
  }

  /** The position of the first `x` in `s`, or |s|. */
  function IndexOf(s: seq<string>, x: string): (r: nat)
    ensures r <= |s|
    ensures r < |s| <==> x in s
    ensures r < |s| ==> s[r] == x && x !in s[..r]
  {
    if s == [] then 0
    else if s[0] == x then 0
    else
      var k := IndexOf(s[1..], x);
      assert s[1..][..k] == s[1..k + 1];
      k + 1
  }

  /** The slot of a media file: after the P sub-playlists, by first reference. */
  function Slot(P: nat, order: seq<string>, fn: string): nat
  {
    P + IndexOf(order, fn)
  }

  /** Every referenced name gets a slot in [P, P + U), and different names
      get different slots. */
  lemma SlotsDistinct(P: nat, refs: seq<string>, x: string, y: string)
    requires x in refs && y in refs && x != y
    ensures var order := Dedup(refs);
      && P <= Slot(P, order, x) < P + |order|
      && Slot(P, order, x) != Slot(P, order, y)
  {
    DedupElements(refs);
  }

  /** The name a media reference is rewritten to: its slot and its extension. */
  function RefName(P: nat, order: seq<string>, fn: string): string
  {
    NatToString(Slot(P, order, fn)) + Ext(fn)
  }

  function RewriteTag(h: Tag, P: nat, order: seq<string>): Tag
  {
    if h.key == MapKey then Set(h, "URI", Quote(RefName(P, order, Get(h, "URI")))) else h
  }

  function RewriteFile(f: PlFile, P: nat, order: seq<string>): PlFile
  {
    f.(filename := RefName(P, order, f.filename))
  }

  /** A sub-playlist with every media reference renamed to its slot. */
  function Rewrite(pl: Pl, P: nat, order: seq<string>): Pl
  {
    Pl(seq(|pl.headers|, i requires 0 <= i < |pl.headers| => RewriteTag(pl.headers[i], P, order)),
       seq(|pl.files|, i requires 0 <= i < |pl.files| => RewriteFile(pl.files[i], P, order)),
       pl.footer)
  }

  /** A rewritten init-segment reference reads back as its new name, and
      every rewritten entry keeps its tags and its extension's name part. */
  lemma RewriteRenames(pl: Pl, P: nat, order: seq<string>)
    ensures var r := Rewrite(pl, P, order);
      && |r.headers| == |pl.headers| && |r.files| == |pl.files| && r.footer == pl.footer
      && (forall i :: 0 <= i < |pl.headers| && pl.headers[i].key != MapKey ==> r.headers[i] == pl.headers[i])
      && (forall i :: 0 <= i < |pl.files| ==>
            r.files[i].headers == pl.files[i].headers
            && r.files[i].filename == NatToString(Slot(P, order, pl.files[i].filename)) + Ext(pl.files[i].filename))
    ensures forall i :: 0 <= i < |pl.headers| && pl.headers[i].key == MapKey && FindVar(pl.headers[i].vars, "URI").Some? ==>
      Get(Rewrite(pl, P, order).headers[i], "URI") == RefName(P, order, Get(pl.headers[i], "URI"))
  {
    forall i | 0 <= i < |pl.headers| && pl.headers[i].key == MapKey && FindVar(pl.headers[i].vars, "URI").Some?
      ensures Get(Rewrite(pl, P, order).headers[i], "URI") == RefName(P, order, Get(pl.headers[i], "URI"))
    {
      SetThenGet(pl.headers[i], "URI", RefName(P, order, Get(pl.headers[i], "URI")));
    }
  }

  /** Every sub-playlist rewritten, in order. */
  function RewriteAll(pls: seq<Pl>, P: nat, order: seq<string>): (r: seq<Pl>)
    ensures |r| == |pls|
  {
    if pls == [] then [] else RewriteAll(pls[..|pls| - 1], P, order) + [Rewrite(pls[|pls| - 1], P, order)]
  }

  lemma RewriteAllNext(pls: seq<Pl>, k: nat, P: nat, order: seq<string>)
    requires k < |pls|
    ensures RewriteAll(pls[..k + 1], P, order) == RewriteAll(pls[..k], P, order) + [Rewrite(pls[k], P, order)]
  {
    assert pls[..k + 1][..k] == pls[..k];
  }

  /** Entry i of RewriteAll is playlist i rewritten. */
  lemma {:induction false} RewriteAllAt(pls: seq<Pl>, P: nat, order: seq<string>)
    ensures forall i :: 0 <= i < |pls| ==> RewriteAll(pls, P, order)[i] == Rewrite(pls[i], P, order)
    decreases |pls|
  {
    if pls != [] {
      RewriteAllAt(pls[..|pls| - 1], P, order);
    }
  }

  // ---------------------------------------------------------------------------
  // The container's entries
  // ---------------------------------------------------------------------------

  /** The bytes of a media file, or nothing for a name the directory lacks. */
  function Media(dir: map<string, seq<byte>>, fn: string): seq<byte>
  {
    if fn in dir then dir[fn] else []
  }

  /** The flag of a media file, 0 for an unknown extension. */
  function Flag(fn: string): nat
  {
    if FlagsName(fn).Ok? then FlagsName(fn).value else 0
  }

  /** Why a media file cannot be stored: it is missing (os.Open fails) or its
      extension is unknown (the panic of hlsFlags). */
  function MediaError(dir: map<string, seq<byte>>, fn: string): Option<Error>
  {
    if fn !in dir then Some(NotExist)
    else if FlagsName(fn).Err? then Some(FlagsName(fn).error)
    else None
  }

  /** The first media error in first-reference order. */
  function FirstMediaError(dir: map<string, seq<byte>>, order: seq<string>): Option<Error>
  {
    if order == [] then None
    else if MediaError(dir, order[0]).Some? then MediaError(dir, order[0])
    else FirstMediaError(dir, order[1..])
  }

  /** The first media error is the error of the first file that has one. */
  lemma {:induction false} FirstMediaErrorAt(dir: map<string, seq<byte>>, order: seq<string>, m: nat)
    requires m < |order| && MediaError(dir, order[m]).Some?
    requires forall k :: 0 <= k < m ==> MediaError(dir, order[k]).None?
    ensures FirstMediaError(dir, order) == MediaError(dir, order[m])
    decreases m
  {
    if m > 0 {
      FirstMediaErrorAt(dir, order[1..], m - 1);
    }
  }

  /** There is no media error exactly when every file can be stored. */
  lemma {:induction false} FirstMediaErrorNone(dir: map<string, seq<byte>>, order: seq<string>)
    ensures FirstMediaError(dir, order).None? <==> forall k :: 0 <= k < |order| ==> MediaError(dir, order[k]).None?
  {
    if order != [] {
      FirstMediaErrorNone(dir, order[1..]);
      assert forall k :: 1 <= k < |order| ==> order[k] == order[1..][k - 1];
    }
  }

  /** The container's entries: the rewritten sub-playlists (flags 0) in
      master order, then the media files in first-reference order. */
  function Entries(pls: seq<Pl>, order: seq<string>, dir: map<string, seq<byte>>): (es: seq<(seq<byte>, nat)>)
    ensures |es| == |pls| + |order|
    ensures forall n :: 0 <= n < |pls| ==> es[n] == (PlBytes(Rewrite(pls[n], |pls|, order)), 0)
    ensures forall k :: 0 <= k < |order| ==> es[|pls| + k] == (Media(dir, order[k]), Flag(order[k]))
  {
    seq(|pls|, n requires 0 <= n < |pls| => (PlBytes(Rewrite(pls[n], |pls|, order)), 0))
    + seq(|order|, k requires 0 <= k < |order| => (Media(dir, order[k]), Flag(order[k])))
  }

  /** A referenced media file's slot holds that file's bytes and flag: the
      renamed reference in a rewritten playlist points at the right entry. */
  lemma SlotHoldsMedia(pls: seq<Pl>, dir: map<string, seq<byte>>, fn: string)
    requires fn in Refs(pls)
    ensures var order := Dedup(Refs(pls));
      && |pls| <= Slot(|pls|, order, fn) < |Entries(pls, order, dir)|
      && Entries(pls, order, dir)[Slot(|pls|, order, fn)] == (Media(dir, fn), Flag(fn))
  {
    var order := Dedup(Refs(pls));
    DedupElements(Refs(pls));
    assert order[IndexOf(order, fn)] == fn;
  }

  // ---------------------------------------------------------------------------
  // The outcome of build
  // ---------------------------------------------------------------------------

  const MasterName := "master.m3u8"

  /** What a successful build packs: the renamed master, the sub-playlists
      in master order and the media files in first-reference order. */
  datatype Plan = Plan(master: Pl, pls: seq<Pl>, order: seq<string>)

  /** The master and the sub-playlists build reads (hls.go:125-199), or the
      first error reading them: the master with the subtitle entries
      added, and the playlist each of its entries names. */
  function Loaded(lists: map<string, Result<Pl>>, ss: seq<HlsStream>, vtt: nat -> Pl): Result<(Pl, seq<Pl>)>
  {
    if MasterName !in lists then Err(NotExist)
    else match lists[MasterName]
      case Err(e) => Err(e)
      case Ok(master) =>
        var m := WithSubtitles(master, ss);
        match Load(SavedLists(lists, ss, vtt), m.files)
        case Err(e) => Err(e)
        case Ok(pls) => Ok((m, pls))
  }

  /** The outcome of build for the packager's playlists `lists`, the streams
      `ss`, the subtitle playlists `vtt` and the files of the working
      directory `dir`: the first error, in the order build meets them, or
      the plan of the container. */
  function Planned(lists: map<string, Result<Pl>>, ss: seq<HlsStream>, vtt: nat -> Pl,
                   dir: map<string, seq<byte>>): Result<Plan>
  {
    match Loaded(lists, ss, vtt)
    case Err(e) => Err(e)
    case Ok(loaded) =>
      var order := Dedup(Refs(loaded.1));
      match FirstMediaError(dir, order)
      case Some(e) => Err(e)
      case None => Ok(Plan(Renamed(loaded.0), loaded.1, order))
  }
}
