/** The m3u8 playlist model of m3u8.go: a single-pass, line-oriented parser for
    the HLS playlist text format (RFC 8216), its serialiser, `takeFile` and
    `offsetFile`.

    A playlist is a list of header tags, a list of file entries (the tags that
    lead up to a media or playlist file, then its name) and a footer
    (`#EXT-X-ENDLIST`, section 4.3.3.4 of RFC 8216). */
module M3u8 {
  import opened Base

  /** A body entry. `standalone` entries (started by `#EXTINF` or
      `#EXT-X-STREAM-INF`) are written with their file name on a line of its
      own; the others carry their file name in a `URI` attribute of their
      first tag. The parser only ever makes standalone entries. */
  datatype M3u8File = M3u8File(headers: seq<string>, filename: string, standalone: bool)
  {
    /** m3u8file.WriteTo: the text handed to the writer and the byte count. */
    method WriteTo() returns (written: string, n: int)
      ensures written == Text(FileLines(this))
      ensures n == |written|
    {
      written, n := "", 0;
      for j := 0 to |headers|
        invariant written == Text(headers[..j]) && n == |written|
      {
        TextAppend(headers[..j], [headers[j]]);
        assert headers[..j + 1] == headers[..j] + [headers[j]];
        written := written + (headers[j] + "\n");
        n := n + |headers[j] + "\n"|;
      }
      assert headers[..|headers|] == headers;
      if standalone {
        TextAppend(headers, [filename]);
        written := written + (filename + "\n");
        n := n + |filename + "\n"|;
      } else {
        assert FileLines(this) == headers;
      }
    }
  }

  datatype Playlist = Playlist(headers: seq<string>, files: seq<M3u8File>, footer: seq<string>)

  const StreamInf := "#EXT-X-STREAM-INF:"
  const ExtInf := "#EXTINF:"
  const EndList := "#EXT-X-ENDLIST"
  const ByteRange := "#EXT-X-BYTERANGE:"

  /** A tag that opens a file entry (sections 4.3.2.1 and 4.3.4.2 of RFC 8216). */
  predicate OpensFile(ln: string)
  {
    StreamInf <= ln || ExtInf <= ln
  }

  // ---------------------------------------------------------------------------
  // Serialisation
  // ---------------------------------------------------------------------------

  /** Every line followed by "\n". */
  function Text(lines: seq<string>): string
  {
    if lines == [] then "" else Text(lines[..|lines| - 1]) + (lines[|lines| - 1] + "\n")
  }

  function FileLines(f: M3u8File): seq<string>
  {
    f.headers + (if f.standalone then [f.filename] else [])
  }

  function FilesLines(files: seq<M3u8File>): seq<string>
  {
    if files == [] then [] else FilesLines(files[..|files| - 1]) + FileLines(files[|files| - 1])
  }

  /** The lines of a playlist in the order m3u8.WriteTo emits them: the
      headers, each file's headers and name, then the footer. */
  function PlaylistLines(pl: Playlist): seq<string>
  {
    pl.headers + FilesLines(pl.files) + pl.footer
  }

  /** The text m3u8.WriteTo / m3u8.Bytes produce. */
  function Serialize(pl: Playlist): string
  {
    Text(PlaylistLines(pl))
  }

  lemma {:induction false} TextAppend(a: seq<string>, b: seq<string>)
    ensures Text(a + b) == Text(a) + Text(b)
    decreases |b|
  {
    if b == [] {
      assert a + b == a;
    } else {
      var b' := b[..|b| - 1];
      assert (a + b)[..|a + b| - 1] == a + b';
      TextAppend(a, b');
    }
  }

  lemma TextPrefixStep(ls: seq<string>, i: nat)
    requires i < |ls|
    ensures Text(ls[..i + 1]) == Text(ls[..i]) + (ls[i] + "\n")
  {
    assert ls[..i + 1][..i] == ls[..i];
  }

  lemma FilesLinesPrefixStep(files: seq<M3u8File>, i: nat)
    requires i < |files|
    ensures FilesLines(files[..i + 1]) == FilesLines(files[..i]) + FileLines(files[i])
  {
    assert files[..i + 1][..i] == files[..i];
  }

  /** The text of a playlist is the text of its three parts, one after the other. */
  lemma SerializeParts(pl: Playlist)
    ensures Serialize(pl) == Text(pl.headers) + Text(FilesLines(pl.files)) + Text(pl.footer)
  {
    TextAppend(pl.headers + FilesLines(pl.files), pl.footer);
    TextAppend(pl.headers, FilesLines(pl.files));
  }

  /** The text of each line followed by "\n", line by line. */
  function Terminated(lines: seq<string>): (r: seq<string>)
    ensures |r| == |lines|
    ensures forall i :: 0 <= i < |lines| ==> r[i] == lines[i] + "\n"
  {
    seq(|lines|, i requires 0 <= i < |lines| => lines[i] + "\n")
  }

  // ---------------------------------------------------------------------------
  // Reading lines (bufio.Reader.ReadString('\n'))
  // ---------------------------------------------------------------------------

  /** The successive results of ReadString('\n') that parse processes: each
      line with its '\n'. Text after the last '\n' arrives together with
      io.EOF, and parse returns before looking at it. */
  function Lines(text: string): seq<string>
    decreases |text|
  {
    match IndexOfChar(text, '\n')
    case None => []
    case Some(k) => [text[..k + 1]] + Lines(text[k + 1..])
  }

  predicate NoNewline(lines: seq<string>)
  {
    forall i :: 0 <= i < |lines| ==> '\n' !in lines[i]
  }

  /** Reading back serialised lines gives each line with its '\n'. */
  lemma {:induction false} LinesOfText(lines: seq<string>)
    requires NoNewline(lines)
    ensures Lines(Text(lines)) == Terminated(lines)
    decreases |lines|
  {
    if lines != [] {
      var t := Text(lines);
      var first := lines[0] + "\n";
      assert Text([lines[0]]) == first;
      TextAppend([lines[0]], lines[1..]);
      assert [lines[0]] + lines[1..] == lines;
      assert t == first + Text(lines[1..]);
      assert IndexOfChar(t, '\n') == Some(|lines[0]|) by {
        IndexOfPrefix(first, Text(lines[1..]), |lines[0]|);
      }
      assert t[..|lines[0]| + 1] == first;
      assert t[|lines[0]| + 1..] == Text(lines[1..]);
      LinesOfText(lines[1..]);
    }
  }

  lemma IndexOfPrefix(a: string, b: string, k: nat)
    requires k < |a| && a[k] == '\n' && '\n' !in a[..k]
    ensures IndexOfChar(a + b, '\n') == Some(k)
  {
    var r := IndexOfChar(a + b, '\n');
    assert (a + b)[k] == '\n';
    assert (a + b)[..k] == a[..k];
  }

  lemma LinesFirst(text: string, k: nat)
    requires IndexOfChar(text, '\n') == Some(k)
    ensures Lines(text) == [text[..k + 1]] + Lines(text[k + 1..])
  {
  }

  /** Content after the last '\n' never reaches the parser. */
  lemma {:induction false} LinesDropTail(text: string, tail: string)
    requires '\n' !in tail
    ensures Lines(text + tail) == Lines(text)
    decreases |text|
  {
    match IndexOfChar(text, '\n')
    case None =>
      assert '\n' !in text + tail;
    case Some(k) =>
      assert (text + tail)[k] == '\n';
      assert (text + tail)[..k] == text[..k];
      assert IndexOfChar(text + tail, '\n') == Some(k);
      assert (text + tail)[..k + 1] == text[..k + 1];
      assert (text + tail)[k + 1..] == text[k + 1..] + tail;
      LinesDropTail(text[k + 1..], tail);
  }

  // ---------------------------------------------------------------------------
  // Parsing
  // ---------------------------------------------------------------------------

  /** parse's state: what it has appended to the playlist so far and the
      pending file `f` (started, waiting for its file name). */
  datatype ParseState = ParseState(headers: seq<string>, files: seq<M3u8File>, footer: seq<string>,
                                   pending: Option<M3u8File>)

  function Start(pl: Playlist): ParseState
  {
    ParseState(pl.headers, pl.files, pl.footer, None)
  }

  /** One turn of parse's loop on a line after strings.TrimSpace. */
  function Step(st: ParseState, ln: string): Result<ParseState>
  {
    if ln == "" then Ok(st)
    else if OpensFile(ln) then
      if st.pending.Some? then Err(Unexpected(ln))
      else Ok(st.(pending := Some(M3u8File([ln], "", true))))
    else if ln == EndList then Ok(st.(footer := st.footer + [ln]))
    else if ln[0] != '#' then
      if st.pending.None? then Err(Unexpected(ln))
      else Ok(st.(files := st.files + [st.pending.value.(filename := ln)], pending := None))
    else if st.pending.None? then
      if |st.files| != 0 then Err(Unexpected(ln)) else Ok(st.(headers := st.headers + [ln]))
    else Ok(st.(pending := Some(st.pending.value.(headers := st.pending.value.headers + [ln]))))
  }

  /** parse over the lines ReadString returns: the state it stops in and the
      error it returns, if any. At the end of input a pending file is
      io.ErrUnexpectedEOF. */
  function Run(st: ParseState, lines: seq<string>): (ParseState, Option<Error>)
    decreases |lines|
  {
    if lines == [] then (st, if st.pending.Some? then Some(UnexpectedEOF) else None)
    else match Step(st, TrimSpace(lines[0]))
      case Err(e) => (st, Some(e))
      case Ok(next) => Run(next, lines[1..])
  }

  /** When parse rejects a line: an opener while a file is pending, a file
      name with none pending, or a plain tag after the first file with
      none pending. The error names the line; blank lines change nothing. */
  lemma StepErrors(st: ParseState, ln: string)
    ensures ln == "" ==> Step(st, ln) == Ok(st)
    ensures Step(st, ln).Err? <==>
      && ln != ""
      && ((OpensFile(ln) && st.pending.Some?)
          || (!OpensFile(ln) && ln != EndList && ln[0] != '#' && st.pending.None?)
          || (!OpensFile(ln) && ln != EndList && ln[0] == '#' && st.pending.None? && |st.files| != 0))
    ensures Step(st, ln).Err? ==> Step(st, ln).error == Unexpected(ln)
  {
  }

  lemma RunLine(st: ParseState, raw: string, rest: seq<string>)
    ensures Step(st, TrimSpace(raw)).Err? ==> Run(st, [raw] + rest) == (st, Some(Step(st, TrimSpace(raw)).error))
    ensures Step(st, TrimSpace(raw)).Ok? ==> Run(st, [raw] + rest) == Run(Step(st, TrimSpace(raw)).value, rest)
  {
    assert ([raw] + rest)[0] == raw && ([raw] + rest)[1..] == rest;
  }

  /** m3u8Parse on the text of a file: the playlist, or the first error. */
  function ParseText(text: string): Result<Playlist>
  {
    var (st, err) := Run(Start(Playlist([], [], [])), Lines(text));
    if err.Some? then Err(err.value) else Ok(Playlist(st.headers, st.files, st.footer))
  }

  /** A line as parse keeps it: non-empty, trimmed, one line. */
  predicate LineOk(l: string)
  {
    |l| > 0 && '\n' !in l && !IsSpace(l[0]) && !IsSpace(l[|l| - 1])
  }

  /** A tag that parse files under a header (not a file opener, not the footer). */
  predicate PlainTag(l: string)
  {
    LineOk(l) && l[0] == '#' && !OpensFile(l) && l != EndList
  }

  predicate WellFormedFile(f: M3u8File)
  {
    && f.standalone
    && |f.headers| > 0 && LineOk(f.headers[0]) && OpensFile(f.headers[0])
    && (forall j :: 1 <= j < |f.headers| ==> PlainTag(f.headers[j]))
    && LineOk(f.filename) && f.filename[0] != '#'
  }

  /** The playlists whose text parse reads back unchanged. */
  predicate WellFormed(pl: Playlist)
  {
    && (forall i :: 0 <= i < |pl.headers| ==> PlainTag(pl.headers[i]))
    && (forall i :: 0 <= i < |pl.files| ==> WellFormedFile(pl.files[i]))
    && (forall i :: 0 <= i < |pl.footer| ==> pl.footer[i] == EndList)
  }

  lemma TrimLine(l: string)
    requires LineOk(l)
    ensures TrimSpace(l + "\n") == l
  {
    assert TrimLeft(l + "\n") == l + "\n";
    assert (l + "\n")[..|l|] == l;
  }

  /** A line that does not start with '#' is no tag. */
  lemma NotTag(l: string)
    requires |l| > 0 && l[0] != '#'
    ensures !OpensFile(l) && l != EndList
  {
    assert StreamInf[0] == '#' && ExtInf[0] == '#' && EndList[0] == '#';
  }

  lemma EndListIsNoOpener()
    ensures !OpensFile(EndList)
  {
    assert EndList[7] != StreamInf[7];
    assert EndList[4] != ExtInf[4];
  }

  lemma StepHeader(st: ParseState, l: string)
    requires |l| > 0 && l[0] == '#' && !OpensFile(l) && l != EndList && st.pending.None? && st.files == []
    ensures Step(st, l) == Ok(st.(headers := st.headers + [l]))
  {
  }

  lemma StepOpen(st: ParseState, l: string)
    requires |l| > 0 && OpensFile(l) && st.pending.None?
    ensures Step(st, l) == Ok(st.(pending := Some(M3u8File([l], "", true))))
  {
  }

  lemma StepFileTag(st: ParseState, l: string)
    requires |l| > 0 && l[0] == '#' && !OpensFile(l) && l != EndList && st.pending.Some?
    ensures Step(st, l) == Ok(st.(pending := Some(st.pending.value.(headers := st.pending.value.headers + [l]))))
  {
  }

  lemma StepFilename(st: ParseState, l: string)
    requires |l| > 0 && l[0] != '#' && st.pending.Some?
    ensures Step(st, l) == Ok(st.(files := st.files + [st.pending.value.(filename := l)], pending := None))
  {
    NotTag(l);
  }

  lemma StepEndList(st: ParseState)
    ensures Step(st, EndList) == Ok(st.(footer := st.footer + [EndList]))
  {
    EndListIsNoOpener();
  }

  lemma TerminatedCons(hs: seq<string>, rest: seq<string>)
    requires hs != []
    ensures Terminated(hs) + rest == [hs[0] + "\n"] + (Terminated(hs[1..]) + rest)
  {
    assert Terminated(hs) == [hs[0] + "\n"] + Terminated(hs[1..]);
  }

  lemma AppendFirst<T>(a: seq<T>, s: seq<T>)
    requires s != []
    ensures a + [s[0]] + s[1..] == a + s
  {
    assert [s[0]] + s[1..] == s;
  }

  lemma ConsTail<T>(s: seq<T>)
    requires s != []
    ensures [s[0]] + s[1..] == s
  {
  }

  lemma AppendLast<T>(a: seq<T>, s: seq<T>)
    requires s != []
    ensures a + s[..|s| - 1] + [s[|s| - 1]] == a + s
  {
    assert s[..|s| - 1] + [s[|s| - 1]] == s;
  }

  /** Run over a first line and the rest. */
  lemma RunCons(st: ParseState, l: string, rest: seq<string>, next: ParseState)
    requires LineOk(l) && Step(st, l) == Ok(next)
    ensures Run(st, [l + "\n"] + rest) == Run(next, rest)
  {
    TrimLine(l);
    var ls := [l + "\n"] + rest;
    assert ls[0] == l + "\n" && ls[1..] == rest;
  }

  lemma {:induction false} RunHeaders(hs: seq<string>, st: ParseState, rest: seq<string>)
    requires forall i :: 0 <= i < |hs| ==> PlainTag(hs[i])
    requires st.pending.None? && st.files == []
    ensures Run(st, Terminated(hs) + rest) == Run(st.(headers := st.headers + hs), rest)
    decreases |hs|
  {
    if hs == [] {
      assert Terminated(hs) + rest == rest;
      assert st.headers + hs == st.headers;
    } else {
      var next := st.(headers := st.headers + [hs[0]]);
      var tl := hs[1..];
      assert forall i :: 0 <= i < |tl| ==> PlainTag(tl[i]) by {
        forall i | 0 <= i < |tl| ensures PlainTag(tl[i]) { assert tl[i] == hs[i + 1]; }
      }
      RunHeaders(tl, next, rest);
      assert PlainTag(hs[0]);
      StepHeader(st, hs[0]);
      TerminatedCons(hs, rest);
      RunCons(st, hs[0], Terminated(tl) + rest, next);
      AppendFirst(st.headers, hs);
    }
  }

  lemma {:induction false} RunFileTags(hs: seq<string>, st: ParseState, rest: seq<string>)
    requires forall i :: 0 <= i < |hs| ==> PlainTag(hs[i])
    requires st.pending.Some?
    ensures Run(st, Terminated(hs) + rest)
         == Run(st.(pending := Some(st.pending.value.(headers := st.pending.value.headers + hs))), rest)
    decreases |hs|
  {
    var p := st.pending.value;
    if hs == [] {
      assert Terminated(hs) + rest == rest;
      assert p.headers + hs == p.headers;
      assert p.(headers := p.headers) == p;
    } else {
      var next := st.(pending := Some(p.(headers := p.headers + [hs[0]])));
      var tl := hs[1..];
      assert forall i :: 0 <= i < |tl| ==> PlainTag(tl[i]) by {
        forall i | 0 <= i < |tl| ensures PlainTag(tl[i]) { assert tl[i] == hs[i + 1]; }
      }
      RunFileTags(tl, next, rest);
      assert PlainTag(hs[0]);
      StepFileTag(st, hs[0]);
      TerminatedCons(hs, rest);
      RunCons(st, hs[0], Terminated(tl) + rest, next);
      AppendFirst(p.headers, hs);
    }
  }

  lemma RunFile(f: M3u8File, st: ParseState, rest: seq<string>)
    requires WellFormedFile(f)
    requires st.pending.None?
    ensures Run(st, Terminated(FileLines(f)) + rest) == Run(st.(files := st.files + [f]), rest)
  {
    var h0 := f.headers[0];
    var tags := f.headers[1..];
    assert forall i :: 0 <= i < |tags| ==> PlainTag(tags[i]) by {
      forall i | 0 <= i < |tags| ensures PlainTag(tags[i]) { assert tags[i] == f.headers[i + 1]; }
    }
    var started := st.(pending := Some(M3u8File([h0], "", true)));
    StepOpen(st, h0);
    var tail := Terminated([f.filename]) + rest;
    TerminatedFile(f, rest);
    RunCons(st, h0, Terminated(tags) + tail, started);
    RunFileTags(tags, started, tail);
    ConsTail(f.headers);
    assert started.pending.value.(headers := [h0] + tags) == M3u8File(f.headers, "", true);
    RunFilename(st, f, rest);
  }

  /** The file name line completes the pending entry. */
  lemma RunFilename(st: ParseState, f: M3u8File, rest: seq<string>)
    requires LineOk(f.filename) && f.filename[0] != '#' && f.standalone
    ensures Run(st.(pending := Some(M3u8File(f.headers, "", true))), Terminated([f.filename]) + rest)
         == Run(st.(files := st.files + [f], pending := None), rest)
  {
    var full := st.(pending := Some(M3u8File(f.headers, "", true)));
    StepFilename(full, f.filename);
    assert Terminated([f.filename]) == [f.filename + "\n"];
    RunCons(full, f.filename, rest, st.(files := st.files + [f], pending := None));
  }

  lemma TerminatedFile(f: M3u8File, rest: seq<string>)
    requires f.standalone && |f.headers| > 0
    ensures Terminated(FileLines(f)) + rest
         == [f.headers[0] + "\n"] + (Terminated(f.headers[1..]) + (Terminated([f.filename]) + rest))
  {
    TerminatedCons(FileLines(f), rest);
    assert FileLines(f)[1..] == f.headers[1..] + [f.filename];
    TerminatedAppend(f.headers[1..], [f.filename]);
  }

  lemma {:induction false} TerminatedAppend(a: seq<string>, b: seq<string>)
    ensures Terminated(a + b) == Terminated(a) + Terminated(b)
  {
    assert forall i :: 0 <= i < |a| ==> Terminated(a + b)[i] == Terminated(a)[i];
    assert forall i :: 0 <= i < |b| ==> Terminated(a + b)[|a| + i] == Terminated(b)[i];
  }

  lemma {:induction false} RunFiles(files: seq<M3u8File>, st: ParseState, rest: seq<string>)
    requires forall i :: 0 <= i < |files| ==> WellFormedFile(files[i])
    requires st.pending.None?
    ensures Run(st, Terminated(FilesLines(files)) + rest) == Run(st.(files := st.files + files), rest)
    decreases |files|
  {
    if files == [] {
      assert Terminated(FilesLines(files)) + rest == rest;
      assert st.files + files == st.files;
      assert st.(files := st.files) == st;
    } else {
      var init := files[..|files| - 1];
      var last := files[|files| - 1];
      assert forall i :: 0 <= i < |init| ==> WellFormedFile(init[i]) by {
        forall i | 0 <= i < |init| ensures WellFormedFile(init[i]) { assert init[i] == files[i]; }
      }
      assert WellFormedFile(last);
      TerminatedAppend(FilesLines(init), FileLines(last));
      assert Terminated(FilesLines(files)) + rest
          == Terminated(FilesLines(init)) + (Terminated(FileLines(last)) + rest);
      RunFiles(init, st, Terminated(FileLines(last)) + rest);
      RunFile(last, st.(files := st.files + init), rest);
      AppendLast(st.files, files);
    }
  }

  lemma {:induction false} RunFooter(ft: seq<string>, st: ParseState)
    requires forall i :: 0 <= i < |ft| ==> ft[i] == EndList
    requires st.pending.None?
    ensures Run(st, Terminated(ft)) == (st.(footer := st.footer + ft), None)
    decreases |ft|
  {
    if ft == [] {
      assert st.footer + ft == st.footer;
    } else {
      var next := st.(footer := st.footer + [EndList]);
      StepEndList(st);
      TerminatedCons(ft, []);
      assert Terminated(ft) + [] == Terminated(ft) && Terminated(ft[1..]) + [] == Terminated(ft[1..]);
      RunCons(st, EndList, Terminated(ft[1..]), next);
      RunFooter(ft[1..], next);
      AppendFirst(st.footer, ft);
    }
  }

  lemma NoNewlineAppend(a: seq<string>, b: seq<string>)
    requires NoNewline(a) && NoNewline(b)
    ensures NoNewline(a + b)
  {
    forall i | 0 <= i < |a + b| ensures '\n' !in (a + b)[i] {
      if i < |a| { assert (a + b)[i] == a[i]; } else { assert (a + b)[i] == b[i - |a|]; }
    }
  }

  lemma FileLinesNoNewline(f: M3u8File)
    requires WellFormedFile(f)
    ensures NoNewline(FileLines(f))
  {
    var ls := FileLines(f);
    forall i | 0 <= i < |ls| ensures '\n' !in ls[i] {
      if i == 0 {
        assert ls[i] == f.headers[0];
      } else if i < |f.headers| {
        assert ls[i] == f.headers[i] && PlainTag(f.headers[i]);
      } else {
        assert ls[i] == f.filename;
      }
    }
  }

  lemma {:induction false} FilesLinesNoNewline(files: seq<M3u8File>)
    requires forall i :: 0 <= i < |files| ==> WellFormedFile(files[i])
    ensures NoNewline(FilesLines(files))
  {
    if files != [] {
      var init := files[..|files| - 1];
      assert forall i :: 0 <= i < |init| ==> WellFormedFile(init[i]) by {
        forall i | 0 <= i < |init| ensures WellFormedFile(init[i]) { assert init[i] == files[i]; }
      }
      FilesLinesNoNewline(init);
      FileLinesNoNewline(files[|files| - 1]);
      NoNewlineAppend(FilesLines(init), FileLines(files[|files| - 1]));
    }
  }

  lemma PlaylistNoNewline(pl: Playlist)
    requires WellFormed(pl)
    ensures NoNewline(PlaylistLines(pl))
  {
    FilesLinesNoNewline(pl.files);
    var fl := FilesLines(pl.files);
    var lines := PlaylistLines(pl);
    forall i | 0 <= i < |lines| ensures '\n' !in lines[i] {
      if i < |pl.headers| {
        assert lines[i] == pl.headers[i];
      } else if i < |pl.headers| + |fl| {
        assert lines[i] == fl[i - |pl.headers|];
      } else {
        assert lines[i] == pl.footer[i - |pl.headers| - |fl|];
      }
    }
  }

  lemma TerminatedPlaylist(pl: Playlist)
    ensures Terminated(PlaylistLines(pl))
         == Terminated(pl.headers) + (Terminated(FilesLines(pl.files)) + Terminated(pl.footer))
  {
    var fl := FilesLines(pl.files);
    TerminatedAppend(pl.headers + fl, pl.footer);
    TerminatedAppend(pl.headers, fl);
  }

  /** After the headers: the files, then the footer. */
  lemma RunBody(files: seq<M3u8File>, footer: seq<string>, hs: seq<string>)
    requires forall i :: 0 <= i < |files| ==> WellFormedFile(files[i])
    requires forall i :: 0 <= i < |footer| ==> footer[i] == EndList
    ensures Run(ParseState(hs, [], [], None), Terminated(FilesLines(files)) + Terminated(footer))
         == (ParseState(hs, files, footer, None), None)
  {
    var s1 := ParseState(hs, [], [], None);
    var s2 := ParseState(hs, files, [], None);
    var s3 := ParseState(hs, files, footer, None);
    assert [] + files == files;
    assert s1.(files := s1.files + files) == s2;
    RunFiles(files, s1, Terminated(footer));
    assert Run(s1, Terminated(FilesLines(files)) + Terminated(footer)) == Run(s2, Terminated(footer));
    assert [] + footer == footer;
    assert s2.(footer := s2.footer + footer) == s3;
    RunFooter(footer, s2);
    assert Run(s2, Terminated(footer)) == (s3, None);
  }

  /** Running parse's loop over the lines of a well-formed playlist, each
      with its '\n', rebuilds the playlist with no file pending. */
  lemma RunPlaylist(pl: Playlist)
    requires WellFormed(pl)
    ensures Run(ParseState([], [], [], None), Terminated(PlaylistLines(pl)))
         == (ParseState(pl.headers, pl.files, pl.footer, None), None)
  {
    var body := Terminated(FilesLines(pl.files)) + Terminated(pl.footer);
    TerminatedPlaylist(pl);
    var s0 := ParseState([], [], [], None);
    var s1 := ParseState(pl.headers, [], [], None);
    assert [] + pl.headers == pl.headers;
    assert s0.(headers := s0.headers + pl.headers) == s1;
    RunHeaders(pl.headers, s0, body);
    assert Run(s0, Terminated(pl.headers) + body) == Run(s1, body);
    RunBody(pl.files, pl.footer, pl.headers);
  }

  /** Parsing the serialised form of a well-formed playlist gives back the
      same headers, files and footer. */
  lemma ParseSerialize(pl: Playlist)
    requires WellFormed(pl)
    ensures ParseText(Serialize(pl)) == Ok(pl)
  {
    PlaylistNoNewline(pl);
    LinesOfText(PlaylistLines(pl));
    assert Lines(Serialize(pl)) == Terminated(PlaylistLines(pl));
    RunPlaylist(pl);
  }

  // ---------------------------------------------------------------------------
  // Lookups used by takeFile and offsetFile
  // ---------------------------------------------------------------------------

  /** The index of the first file named exactly `fn`. */
  function FindFile(files: seq<M3u8File>, fn: string): (r: Option<nat>)
    ensures r.Some? ==> r.value < |files| && files[r.value].filename == fn
    ensures r.Some? ==> forall j :: 0 <= j < r.value ==> files[j].filename != fn
    ensures r.None? ==> forall j :: 0 <= j < |files| ==> files[j].filename != fn
  {
    if files == [] then None
    else if files[0].filename == fn then Some(0)
    else match FindFile(files[1..], fn)
      case None => None
      case Some(k) => Some(k + 1)
  }

  /** The index of the first `#EXT-X-BYTERANGE:` header. */
  function FindByteRange(headers: seq<string>): (r: Option<nat>)
    ensures r.Some? ==> r.value < |headers| && ByteRange <= headers[r.value]
    ensures r.Some? ==> forall j :: 0 <= j < r.value ==> !(ByteRange <= headers[j])
    ensures r.None? ==> forall j :: 0 <= j < |headers| ==> !(ByteRange <= headers[j])
  {
    if headers == [] then None
    else if ByteRange <= headers[0] then Some(0)
    else match FindByteRange(headers[1..])
      case None => None
      case Some(k) => Some(k + 1)
  }

  /** offsetFile on an entry: the first `#EXT-X-BYTERANGE:length@position`
      header (section 4.3.2.2 of RFC 8216) with its position moved by `offt`
      in int64 arithmetic. */
  function Offset(f: M3u8File, offt: int): Result<M3u8File>
    requires InInt64(offt)
  {
    match FindByteRange(f.headers)
    case None => Err(NotExist)
    case Some(n) =>
      var h := f.headers[n];
      match IndexOfChar(h, '@')
      case None => Err(MalformedByteRange)
      case Some(at) =>
        match ParseInt(h[at + 1..])
        case None => Err(InvalidSyntax(h[at + 1..]))
        case Some(cur) => Ok(f.(headers := f.headers[n := h[..at + 1] + IntToString(AddInt64(cur, offt))]))
  }

  /** What offsetFile promises: only the first byte-range header changes;
      everything up to and including its '@' is kept and the new position
      reads back as the old one plus `offt`. Without such a header the result
      is fs.ErrNotExist; without '@' or a number after it, an error. */
  lemma OffsetChangesOnlyPosition(f: M3u8File, offt: int)
    requires InInt64(offt)
    ensures FindByteRange(f.headers).None? <==> Offset(f, offt) == Err(NotExist)
    ensures FindByteRange(f.headers).Some? ==>
      var n := FindByteRange(f.headers).value;
      var h := f.headers[n];
      match IndexOfChar(h, '@')
      case None => Offset(f, offt) == Err(MalformedByteRange)
      case Some(at) =>
        match ParseInt(h[at + 1..])
        case None => Offset(f, offt) == Err(InvalidSyntax(h[at + 1..]))
        case Some(cur) =>
          var r := Offset(f, offt);
          && r.Ok?
          && r.value.filename == f.filename && r.value.standalone == f.standalone
          && |r.value.headers| == |f.headers|
          && (forall j :: 0 <= j < |f.headers| && j != n ==> r.value.headers[j] == f.headers[j])
          && at + 1 <= |r.value.headers[n]|
          && r.value.headers[n][..at + 1] == h[..at + 1]
          && ParseInt(r.value.headers[n][at + 1..]) == Some(AddInt64(cur, offt))
  {
    match FindByteRange(f.headers)
    case None =>
    case Some(n) =>
      var h := f.headers[n];
      match IndexOfChar(h, '@')
      case None =>
      case Some(at) =>
        match ParseInt(h[at + 1..])
        case None =>
        case Some(cur) => OffsetRewrites(f, offt, n, at, cur);
  }

  /** The success case of offsetFile: the rewritten header. */
  lemma OffsetRewrites(f: M3u8File, offt: int, n: nat, at: nat, cur: int)
    requires InInt64(offt)
    requires FindByteRange(f.headers) == Some(n)
    requires IndexOfChar(f.headers[n], '@') == Some(at)
    requires ParseInt(f.headers[n][at + 1..]) == Some(cur)
    ensures Offset(f, offt).Ok?
    ensures var r := Offset(f, offt).value;
      && r.filename == f.filename && r.standalone == f.standalone
      && |r.headers| == |f.headers|
      && (forall j :: 0 <= j < |f.headers| && j != n ==> r.headers[j] == f.headers[j])
      && at + 1 <= |r.headers[n]|
      && r.headers[n][..at + 1] == f.headers[n][..at + 1]
      && ParseInt(r.headers[n][at + 1..]) == Some(AddInt64(cur, offt))
  {
    var pos := AddInt64(cur, offt);
    var nh := f.headers[n][..at + 1] + IntToString(pos);
    var r := f.(headers := f.headers[n := nh]);
    assert Offset(f, offt) == Ok(r);
    assert r.headers[n] == nh;
    ReplaceAfter(f.headers[n][..at + 1], IntToString(pos));
    ParseFormatInt(pos);
  }

  lemma ReplaceAfter(a: string, b: string)
    ensures (a + b)[..|a|] == a && (a + b)[|a|..] == b
  {
  }

  /** offsetFile: scans the headers for the first byte range and rewrites it. */
  method OffsetFile(f: M3u8File, offt: int) returns (r: Result<M3u8File>)
    requires InInt64(offt)
    ensures r == Offset(f, offt)
  {
    for n := 0 to |f.headers|
      invariant forall j :: 0 <= j < n ==> !(ByteRange <= f.headers[j])
    {
      var h := f.headers[n];
      if ByteRange <= h {
        assert FindByteRange(f.headers) == Some(n);
        var atpos := IndexOfChar(h, '@');
        if atpos.None? {
          return Err(MalformedByteRange);
        }
        var at := atpos.value;
        var curpos := ParseInt(h[at + 1..]);
        if curpos.None? {
          return Err(InvalidSyntax(h[at + 1..]));
        }
        var pos := AddInt64(curpos.value, offt);
        return Ok(f.(headers := f.headers[n := h[..at + 1] + IntToString(pos)]));
      }
    }
    return Err(NotExist);
  }

  // ---------------------------------------------------------------------------
  // The playlist object
  // ---------------------------------------------------------------------------

  /** An m3u8 playlist being read or rewritten in place. */
  class M3u8 {
    var headers: seq<string>
    var files: seq<M3u8File>
    var footer: seq<string>

    constructor ()
      ensures Value() == Playlist([], [], [])
    {
      headers, files, footer := [], [], [];
    }

    function Value(): Playlist
      reads this
    {
      Playlist(headers, files, footer)
    }

    /** parse: reads `input` line by line, appending to the headers, files and
        footer, and stops at the first error with what it has appended so far. */
    method Parse(input: string) returns (err: Option<Error>)
      modifies this
      ensures var (st, e) := Run(Start(old(Value())), Lines(input));
              err == e && Value() == Playlist(st.headers, st.files, st.footer)
    {
      var rest := input;
      var f: Option<M3u8File> := None;
      while true
        invariant Run(Start(old(Value())), Lines(input)) == Run(ParseState(headers, files, footer, f), Lines(rest))
        decreases |rest|
      {
        // r.ReadString('\n')
        var eol := IndexOfChar(rest, '\n');
        if eol.None? {
          assert Lines(rest) == [];
          if f.Some? {
            return Some(UnexpectedEOF);
          }
          return None;
        }
        var raw := rest[..eol.value + 1];
        LinesFirst(rest, eol.value);
        RunLine(ParseState(headers, files, footer, f), raw, Lines(rest[eol.value + 1..]));
        rest := rest[eol.value + 1..];
        var e;
        f, e := ParseLine(TrimSpace(raw), f);
        if e.Some? {
          return e;
        }
      }
    }

    /** One turn of parse's loop on a trimmed line `ln`, with `f` the file
        entry waiting for its name: the new pending entry, or the error that
        ends parse with the playlist unchanged. */
    method ParseLine(ln: string, f: Option<M3u8File>) returns (f': Option<M3u8File>, err: Option<Error>)
      modifies this
      ensures var step := Step(ParseState(old(headers), old(files), old(footer), f), ln);
              match step
              case Err(e) => err == Some(e) && Value() == old(Value())
              case Ok(st) => err.None? && ParseState(headers, files, footer, f') == st
    {
      f', err := f, None;
      if ln == "" {
        return;
      }
      if OpensFile(ln) {
        if f.Some? {
          return f, Some(Unexpected(ln));
        }
        return Some(M3u8File([ln], "", true)), None;
      }
      if ln == EndList {
        footer := footer + [ln];
        return;
      }
      if ln[0] != '#' {
        if f.None? {
          return f, Some(Unexpected(ln));
        }
        files := files + [f.value.(filename := ln)];
        return None, None;
      }
      if f.None? {
        if |files| != 0 {
          return f, Some(Unexpected(ln));
        }
        headers := headers + [ln];
      } else {
        f' := Some(f.value.(headers := f.value.headers + [ln]));
      }
    }

    /** m3u8.WriteTo: the text handed to the writer and the byte count. */
    method WriteTo() returns (written: string, n: int)
      ensures written == Serialize(Value())
      ensures n == |written|
    {
      var hw, fw, tw := "", "", "";
      for i := 0 to |headers|
        invariant hw == Text(headers[..i])
      {
        TextPrefixStep(headers, i);
        hw := hw + (headers[i] + "\n");
      }
      for i := 0 to |files|
        invariant fw == Text(FilesLines(files[..i]))
      {
        var w, _ := files[i].WriteTo();
        FilesLinesPrefixStep(files, i);
        TextAppend(FilesLines(files[..i]), FileLines(files[i]));
        fw := fw + w;
      }
      for i := 0 to |footer|
        invariant tw == Text(footer[..i])
      {
        TextPrefixStep(footer, i);
        tw := tw + (footer[i] + "\n");
      }
      assert headers[..|headers|] == headers && files[..|files|] == files && footer[..|footer|] == footer;
      SerializeParts(Value());
      written := hw + fw + tw;
      n := |hw| + |fw| + |tw|;
    }

    /** m3u8.Bytes. */
    function Bytes(): seq<byte>
      reads this
    {
      ToBytes(Serialize(Value()))
    }

    /** takeFile: removes and returns the first file named exactly `fn`,
        keeping the others in order; fs.ErrNotExist and no change if none is. */
    method TakeFile(fn: string) returns (r: Result<M3u8File>)
      modifies this
      ensures headers == old(headers) && footer == old(footer)
      ensures match FindFile(old(files), fn)
              case Some(k) => r == Ok(old(files)[k]) && files == old(files)[..k] + old(files)[k + 1..]
              case None => r == Err(NotExist) && files == old(files)
    {
      for n := 0 to |files|
        invariant forall j :: 0 <= j < n ==> files[j].filename != fn
      {
        var f := files[n];
        if f.filename == fn {
          files := files[..n] + files[n + 1..];
          return Ok(f);
        }
      }
      return Err(NotExist);
    }
  }
}
