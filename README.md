# hlsmaker core, modelled in Dafny

hlsmaker turns a video file into a single-file HLS package. It probes the input (ffprobe), plans a ladder of
renditions, has ffmpeg encode them into HLS playlists and fMP4 segments, fixes the master playlist, and packs
every playlist and media file into one binary container with a 16-byte-per-entry index. This project models
the parts of that pipeline that compute something:

- **`M3u8`** (m3u8.go): the playlist model.
  - `M3u8.M3u8` is a class whose `Parse` runs the single-pass, line-oriented parser over the lines `ReadString('\n')` yields.
  - It also has `WriteTo`, and `TakeFile`, which splices `files` in place.
  - `OffsetFile` rewrites the `@position` of the first `#EXT-X-BYTERANGE:`.
  - The parse/serialise round trip is proved for every well-formed playlist.
- **`VSize`** (vsize.go): `smaller`, `reverse`, `isOver`, `variants`.
  - Proved: where the ladder steps down, evenness, the 160-pixel floor, the portrait swap, termination of the chain, and the chains the test suite pins.
- **`Probe`** (ffprobe.go): `stream`/`streams` as loops proved against a first-match and a filter, and `video`/`audio`.
- **`Codecs`** (codec.go): `nvencName` and `Args`.
  - The float-derived bit rate is an opaque natural, and the `uint64` doubling of `-bufsize` wraps.
- **`HlsTags`, `HlsPlan`, `Container`, `Hls`** (hls.go, stream.go): the `hlsBuilder` class.
  - It has `newStream`, `getFile`, `writeInt32`/`writeInt64`, `hlsFlagsName` and `build`.
  - The output file is an `OutFile` object (bytes plus a cursor). The working directory is a map from name to bytes.
  - `HlsPlan` states, as functions of the inputs, what `build` produces:
    - the subtitle `#EXT-X-MEDIA` entries and the master renamed to `<n>.m3u8`;
    - the media files in first-reference order and the slot of each;
    - the rewritten sub-playlists.
  - `Container` states the byte layout of the finished file and has a reader for it. `Build` is proved to produce exactly that layout, or the first error `build` meets.
- **`Master`** (master.go): `fixMaster`, proved against a function of the streams and the master.
- **`Encode`** (encode.go), in two parts:
  - `prepareVideo`: the usable-subtitle filter and the capped ladder loop.
  - `encodeVideo`:
    - the encoder choice and the `filter_complex` string;
    - the per-rendition and per-audio-track stream registration with its `var_stream_map` names;
    - the whole ffmpeg argument list, and the subtitle extraction loop.

`Base` holds shared vocabulary. Go strings are `seq<char>` with one char per byte. It also has the error values, `strconv`
decimal text, `strings.TrimSpace`, `path.Ext`, int64 wrap-around and big-endian fields.

## Model

| member | source | states |
|---|---|---|
| Base.NatToStringValue | stream.go:30 | the decimal text `%d` writes reads back as the number |
| Base.NatToString | stream.go:30 | `%d` of a count: a non-empty digit string with no leading zero |
| Base.NatToStringInjective | stream.go:29-31 | different numbers print differently, so `<typ>:<lid>` names and `<n>.m3u8` names of different numbers differ |
| Base.ParseFormatInt | m3u8.go:163-167 | `strconv.ParseInt(FormatInt(i))` gives back every int64 `i` |
| Base.ParseInt | m3u8.go:163-166 | `strconv.ParseInt(s, 10, 64)`: a value, when there is one, is in the int64 range |
| Base.AddInt64 | m3u8.go:167 | `curpos+offt` is int64 addition: always in range, and the exact sum whenever that sum fits |
| Base.TrimSpace | m3u8.go:54 | the trimmed line has no white space at either end |
| Base.TrimSpaceTrimmed | m3u8.go:54 | a line with no white space at either end is kept as it is |
| Base.TrimLeft | m3u8.go:54 | the leading white space is removed, and the rest starts with no white space |
| Base.TrimRight | m3u8.go:54 | the trailing white space is removed, and the rest ends with no white space |
| Base.IndexOfChar | m3u8.go:159 | `strings.IndexByte`: the first position of the byte, or none exactly when the byte does not occur |
| Base.ExtSuffix | hls.go:229 | `path.Ext` is a suffix of the name, empty or starting with '.', and contains no '/' |
| Base.FromBigEndianRoundTrip | hls.go:321-333 | reading back a big-endian field gives any value that fits its width |
| Base.BE32RoundTrip | hls.go:321-326 | `writeInt32` stores `uint32(v)`: the field reads back as v modulo 2^32 |
| Base.BE64RoundTrip | hls.go:328-333 | `writeInt64` stores `uint64(v)`: the field reads back as v modulo 2^64 |
| Codecs.NvencName | codec.go:19-30 | H264, HEVC and AV1 map to h264_nvenc, hevc_nvenc and av1_nvenc, each in both directions; every other codec maps to bad_nvenc |
| Codecs.NvencPairs | codec.go:41-57 | the NVENC list: `-c`, `-pix_fmt yuv420p`, `-preset p6`, `-b`/`-maxrate` br, then `-profile main` exactly for the encoders in codecProfile and `-tag` exactly for those in codecTags |
| Codecs.X264Pairs | codec.go:62-75 | the libx264 list: b = maxrate = minrate = br, the bufsize given, preset slow, GOP 48, no scene-cut |
| Codecs.AomPairs | codec.go:76-86 | the libaom-av1 list: b = maxrate = minrate = br, the bufsize given, preset slow |
| Codecs.ArgsHardware | codec.go:36-58 | on the NVENC path (not software, and not an H264 size over 2048) the arguments are the NVENC list for nvencName(c), never the error list |
| Codecs.ArgsSoftware | codec.go:36-89 | on the software path: libx264 for H264 (20 arguments), libaom-av1 for AV1 (12 arguments), each with bufsize = 2·bitrate modulo 2^64; any other codec gives exactly `["error","unsupported_codec"]` |
| Codecs.Args | codec.go:32-90 | the method that builds the list returns ArgsList, whose contents the three lemmas above state |
| Probe.Info.Stream | ffprobe.go:30-37 | the loop returns the first stream of the type, or nil |
| Probe.Info.Streams | ffprobe.go:39-47 | the loop returns the streams of the type, in order |
| Probe.Info.Video | ffprobe.go:22-24 | the first video stream of the file (the result of `stream("video")`), and nil exactly when the file has none |
| Probe.Info.Audio | ffprobe.go:26-28 | the first audio stream of the file (the result of `stream("audio")`), and nil exactly when the file has none |
| Probe.First | ffprobe.go:30-37 | the result has the type and no earlier stream does; nil exactly when no stream has the type |
| Probe.MatchingAppend | ffprobe.go:39-47 | the filter keeps order: filtering a concatenation filters each part |
| Probe.MatchingExactly | ffprobe.go:39-47 | the filter keeps exactly the streams of the type |
| Probe.FirstIsHeadOfMatching | ffprobe.go:30-47 | `stream(typ)` is nil exactly when `streams(typ)` is empty, and otherwise its first element |
| VSize.Reverse | vsize.go:48-53 | width and height swapped; nil stays nil |
| VSize.ReverseInvolution | vsize.go:48-53 | reverse undoes itself |
| VSize.StepsShape | vsize.go:30 | the height table is strictly descending and even, and ends at 160 |
| VSize.StepsFloor | vsize.go:30 | every table height is at least 160 |
| VSize.FirstBelowSpec | vsize.go:32-36 | the search returns a table height below h, or h itself only when no table height is below h |
| VSize.FirstBelowIsLargest | vsize.go:32-36 | on a descending table no height lies strictly between the result and h |
| VSize.ScaleToShrinks | vsize.go:38-43 | a successful rescale to a lower height is strictly smaller on both sides and at least 160 on both |
| VSize.ScaleLandscape | vsize.go:30-45 | a landscape result is strictly smaller on both sides and at least 160 on both |
| VSize.Smaller | vsize.go:24-46 | every result is strictly smaller than the input on both sides and at least 160 on both |
| VSize.SmallerLandscapeHeight | vsize.go:30-43 | for w ≥ h the new height is the first table height strictly below h; no table height lies between; it is even |
| VSize.SmallerLandscapeWidth | vsize.go:38 | for w ≥ h the new width is w·nh/h with its low bit cleared, hence even |
| VSize.SmallerLandscapeNil | vsize.go:32-45 | for w ≥ h the result is nil exactly when h ≤ 160 or the new width falls below 160 |
| VSize.SmallerPortrait | vsize.go:25-28 | for w < h, smaller is the swap of smaller of the swapped size |
| VSize.ChainIsIteration | vsize.go:24-46 | iterating smaller always reaches nil; the chain is exactly the successive results, each strictly inside the original size |
| VSize.VariantsBySize | vsize.go:61-73 | [AV1, HEVC] at the same size when a side exceeds 1280, otherwise [H264] |
| VSize.Chain3840x1610 | vsize_test.go:13-25 | the pinned chain from 3840x1610, then nil |
| VSize.Chain1920x1080 | vsize_test.go:26-36 | the pinned chain from 1920x1080, then nil |
| VSize.Chain3840x2160 | vsize_test.go:37-49 | the pinned chain from 3840x2160, then nil |
| VSize.Chain1080x1920 | vsize_test.go:50-60 | the pinned portrait chain from 1080x1920, then nil |
| M3u8.M3u8File.WriteTo | m3u8.go:139-151 | the loop writes each header, each with "\n", then the file name on its own line when the entry is standalone (every entry the parser builds is), and counts every byte it wrote |
| M3u8.M3u8.WriteTo | m3u8.go:112-137 | the loops write the headers, each file, then the footer, each line with "\n", and count every byte |
| M3u8.SerializeParts | m3u8.go:112-137 | the playlist text is the header text, then the files' text, then the footer text |
| M3u8.LinesOfText | m3u8.go:44-53 | reading serialised lines back with `ReadString('\n')` yields each line with its "\n" |
| M3u8.LinesDropTail | m3u8.go:45-52 | content after the last "\n" never reaches the parser |
| M3u8.StepErrors | m3u8.go:54-91 | a line is rejected with `unexpected <line>` exactly when it is an opener while a file is pending, a file name with none pending, or a plain tag after the first file with none pending; blank lines change nothing |
| M3u8.StepOpen | m3u8.go:60-68 | an opener with no file pending starts a file whose first header is that line |
| M3u8.StepFilename | m3u8.go:74-82 | a non-`#` line with a file pending names it, appends it to files and clears the pending slot |
| M3u8.StepHeader | m3u8.go:84-88 | a plain tag before any file goes to the playlist headers |
| M3u8.StepFileTag | m3u8.go:89-91 | a plain tag with a file pending goes to that file's headers |
| M3u8.StepEndList | m3u8.go:70-73 | `#EXT-X-ENDLIST` always goes to the footer |
| M3u8.TrimLine | m3u8.go:54 | trimming a serialised line gives the line back |
| M3u8.NotTag | m3u8.go:74 | a line not starting with '#' is neither an opener nor `#EXT-X-ENDLIST` |
| M3u8.EndListIsNoOpener | m3u8.go:60-73 | `#EXT-X-ENDLIST` does not open a file |
| M3u8.RunLine | m3u8.go:44-58 | the loop trims each line, stops at the first rejected line with its error, and otherwise goes on from the new state |
| M3u8.RunPlaylist | m3u8.go:40-93 | the lines of a well-formed playlist rebuild its headers, files and footer, with nothing pending and no error |
| M3u8.ParseSerialize | m3u8.go:40-151 | parsing the serialised text of any well-formed playlist gives back the same playlist |
| M3u8.M3u8.Parse | m3u8.go:40-93 | the loop appends to headers/files/footer as the line-by-line run does, returns its first error, and returns ErrUnexpectedEOF when input ends with a file pending |
| M3u8.M3u8.ParseLine | m3u8.go:54-91 | one turn of the loop: either the error, with the playlist unchanged, or exactly the next parse state |
| M3u8.FindFile | m3u8.go:101-108 | the first file with exactly that name, or none when no file has it |
| M3u8.M3u8.TakeFile | m3u8.go:101-110 | removes and returns the first file of that name and keeps the others in order; ErrNotExist with files unchanged when none matches; headers and footer untouched |
| M3u8.FindByteRange | m3u8.go:155-156 | the first `#EXT-X-BYTERANGE:` header, or none |
| M3u8.OffsetChangesOnlyPosition | m3u8.go:153-172 | ErrNotExist exactly when there is no byte range; a malformed error without '@'; the ParseInt error on a bad number; otherwise only that header changes, keeping `length@` and holding position+offt |
| M3u8.OffsetRewrites | m3u8.go:159-168 | the success case: the rewritten header keeps its prefix up to '@' and reads back as the int64 sum |
| M3u8.OffsetFile | m3u8.go:153-172 | the scanning loop computes the offset function whose cases OffsetChangesOnlyPosition states |
| HlsTags.FindVar | hls.go:192 | the first attribute named `name`, or none when no attribute has that name |
| HlsTags.SetThenGet | hls.go:175 | `set` keeps the key and the attribute count, is a no-op when the name is absent, and otherwise `get` reads the value back with every other attribute unchanged |
| HlsTags.SetFilename | hls.go:195 | the entry gets the new name; a referential entry's URI attribute is set to it, and the other headers are kept |
| HlsPlan.StringInjective | stream.go:29-31 | two streams with the same `String()` have the same kind and the same per-kind number |
| HlsPlan.CountKindGrows | stream.go:19-24 | a later stream of a kind counts every earlier one of that kind, so per-kind numbers grow |
| HlsPlan.NumberedNamesDistinct | stream.go:12-31 | in a list numbered as newStream numbers it, no two streams share a `String()` name |
| HlsPlan.FlagsNameTable | hls.go:362-379 | the extensions .m3u8, .ts, .mp4, .vtt, .m4s map to flags 0..4 in both directions; any other extension is the invalid-filename error |
| HlsPlan.SubOptsShape | hls.go:145-158 | subtitle attributes: TYPE, GROUP-ID "subs", DEFAULT=NO, AUTOSELECT=YES, FORCED=NO, the URI of `stream_<id>_sub.m3u8`; LANGUAGE only when a language tag exists; NAME last |
| HlsPlan.LangPrefix | hls.go:149-152 | LANGUAGE is the first two characters of a longer tag and the tag itself otherwise |
| HlsPlan.SubsNext | hls.go:133-168 | the subtitle loop adds one entry and one saved playlist per subtitle stream, in stream order, and nothing for other streams |
| HlsPlan.MarkSubsRefers | hls.go:170-178 | after marking, a standalone entry's first tag names the "subs" group; referential entries are untouched |
| HlsPlan.MarkSubsAsWrittenMissesGroup | hls.go:175 | with set as written, a stream tag lacking SUBTITLES gets no group reference (see Findings) |
| HlsPlan.LoadNext | hls.go:183-188 | the playlists are read in master order, and the first failing read is build's error |
| HlsPlan.LoadLength | hls.go:183-188 | a successful load has one playlist per master entry |
| HlsPlan.LoadStops | hls.go:183-188 | after a failing read no later playlist matters |
| HlsPlan.Renamed | hls.go:195 | master entry n is renamed `<n>.m3u8`; headers, footer and entry count are kept |
| HlsPlan.MapURIsNext | hls.go:189-194 | each `#EXT-X-MAP` tag contributes its URI, in tag order |
| HlsPlan.RefsAppend | hls.go:183-199 | the references of the playlists are each playlist's init segments then entries, playlist by playlist |
| HlsPlan.DedupElements | hls.go:181-199 | the unique media files are exactly the referenced names, each once |
| HlsPlan.DedupPrefix | hls.go:209-248 | reading further references only appends to the first-reference order found so far |
| HlsPlan.IndexOf | hls.go:215 | the position of a name in the order, found exactly when the name is in it |
| HlsPlan.SlotsDistinct | hls.go:207-246 | different media files get different slots, all in P .. P+U-1 |
| HlsPlan.RewriteRenames | hls.go:229-247 | every media reference becomes `<slot><ext>` with the original extension; non-map tags and entry headers are kept |
| HlsPlan.RewriteAllAt | hls.go:209-248 | playlist i of the rewritten list is playlist i rewritten |
| HlsPlan.FirstMediaErrorAt | hls.go:216-218 | the error build returns is that of the first file, in first-reference order, that cannot be stored |
| HlsPlan.FirstMediaErrorNone | hls.go:209-248 | no media error exactly when every referenced file exists with a known extension |
| HlsPlan.Entries | hls.go:203-268 | the container entries are the P rewritten sub-playlists (flags 0), then every media file with its flag, in first-reference order |
| HlsPlan.SlotHoldsMedia | hls.go:220-226 | the slot of every referenced file holds that file's bytes and flag |
| Container.Overwrite | hls.go:289 | a write grows the file only as far as its end; an empty write changes nothing |
| Container.Zeros | hls.go:203-205 | the gap the seek past the index leaves reads as n zero bytes |
| Container.OverwriteBytes | hls.go:321-333 | after `WriteAt`, the written range holds the data, earlier bytes are kept and any gap reads as zero |
| Container.WriteFrame | hls.go:321-333 | a write keeps every range it does not overlap and holds its own data |
| Container.WriteKeepsZero | hls.go:289 | a write outside a zero range keeps it zero, so the magic stays absent until the last write |
| Container.OutFile.Write | hls.go:261 | the bytes go at the cursor, which moves past them, and the count is their length |
| Container.OutFile.WriteAt | hls.go:324 | the bytes go at the offset; the cursor stays |
| Container.OutFile.Truncate | hls.go:204 | the file is emptied |
| Container.OutFile.Seek | hls.go:205 | the cursor moves to the offset |
| Container.LayoutDisjoint | hls.go:203-268 | entry data lies past the header, entries never overlap, and all end before the master |
| Container.ApplyWritten | hls.go:259-289 | a write that no later write overlaps is in the finished file |
| Container.ReadStored | hls.go:18-29 | an index entry whose offset and length fit their fields reads back as the stored data and flags |
| Container.ReadField64 | hls.go:328-333 | a 64-bit field holding a value below 2^64 reads back as that value |
| Container.ReadField32 | hls.go:321-326 | a 32-bit field holding a value below 2^32 reads back as that value |
| Container.ReadEntries | hls.go:18-29 | the reader returns one entry per index slot, in slot order |
| Container.ReadEntriesStored | hls.go:18-29 | an index whose every slot reads back reads back as the whole entry list |
| Container.UnpackPacked | hls.go:18-29 | a finished container reads back as exactly its entries and its master |
| Container.PackedHeader | hls.go:282-289 | a finished container starts with `HLS\x01` and its count field holds the number of entries |
| Container.CountField | hls.go:282-284 | the count field at offset 8 holds the entry count, which fits in 32 bits |
| Hls.HlsFlagsName | hls.go:362-379 | the switch computes the flag of a name, whose table FlagsNameTable states |
| Hls.HlsBuilder.constructor | hls.go:72-86 | an empty output file at offset 0, no files, no streams, an empty working directory |
| Hls.HlsBuilder.NewStream | stream.go:13-27 | id = number of earlier streams; lid = number of earlier streams of the same kind; typ = first byte of the codec type; the stream is appended last with earlier ones unchanged; the numbering invariant is kept |
| Hls.HlsBuilder.WriteInt32 | hls.go:321-326 | the 4 big-endian bytes of `uint32(v)` at pos; the cursor stays |
| Hls.HlsBuilder.WriteInt64 | hls.go:328-333 | the 8 big-endian bytes of `uint64(v)` at pos; the cursor stays |
| Hls.HlsBuilder.GetFile | hls.go:294-319 | a name seen before returns its memoised (pos, len) without writing; a missing file is ErrNotExist with nothing changed; otherwise the file is copied at the cursor, which advances by its length, and memoised |
| Hls.VisitSeen | hls.go:294-298 | a name already in `files` and `uniqueFiles` gives its slot and changes nothing |
| Hls.VisitNew | hls.go:300-318 | a new stored name is copied at the cursor, which advances by its length; its index entry goes at 32+16·cnt, and cnt grows |
| Hls.HlsBuilder.CopyRef | hls.go:214-246 | one reference: a known name reuses its slot with no new entry; a new one takes slot cnt, gets its entry written at 32+16·cnt, and cnt grows |
| Hls.HlsBuilder.IndexNew | hls.go:220-227 | the index entry of a new file: flags, offset and length at its slot, or the flag error |
| Hls.HlsBuilder.CopyTags | hls.go:210-231 | the header loop visits the playlist's `#EXT-X-MAP` URIs in order |
| Hls.HlsBuilder.CopyFiles | hls.go:233-248 | the file loop visits the playlist's entries in order |
| Hls.HlsBuilder.CopyPlaylist | hls.go:209-248 | one playlist: its init segments, then its entries, and the playlist renamed by the slots found |
| Hls.HlsBuilder.CopyMedia | hls.go:209-248 | all playlists in master order, each rewritten to the slots of the first-reference order |
| Hls.VisitCases | hls.go:214-227 | one reference: the getFile error; or, for a known name, its slot; or, for a new name, the next slot with its index entry written |
| Hls.VisitTracked | hls.go:214-227 | each visit keeps the bookkeeping: uniqueFiles holds P + first-reference position for visited names and 0 otherwise, and the slot is that position |
| Hls.RunTracked | hls.go:209-248 | after any prefix of the references the bookkeeping holds, and an error is the first media error |
| Hls.UniqueCount | hls.go:200 | uniqueFiles has one key per distinct reference |
| Hls.RefVisited | hls.go:214-215 | a name has a non-zero slot exactly when it is memoised in `files`, exactly when it has been visited |
| Hls.PlaylistRenamed | hls.go:229-247 | renaming a playlist by the final uniqueFiles gives its slot-rewritten form |
| Hls.RenameWithSlots | hls.go:229-230 | renaming by a map that gives each reference its slot is the slot rewrite |
| Hls.VisitAllAppend | hls.go:209-248 | visiting the references in two runs is visiting them in one |
| Hls.RunStops | hls.go:216-218 | after an error the loop has returned: later references change nothing |
| Hls.RunLayout | hls.go:209-248 | while copying, every media entry copied so far is indexed at its slot with its data at its offset, and the header stays zero |
| Hls.RunOutcome | hls.go:207-248 | the copy loop fails exactly when some referenced file cannot be stored, leaving the file unmarked; otherwise every media entry is in place and cnt = P + U |
| Hls.LayoutStep | hls.go:216-227 | copying the next new media file keeps the layout of the earlier entries and adds its own |
| Hls.ListingStep | hls.go:259-268 | writing sub-playlist n at the cursor with its offset and length keeps every entry written before |
| Hls.FinishSteps | hls.go:272-289 | the last writes: master at the cursor, count at 8, time at 12, master offset at 16, master length at 28, and the magic at 0 last |
| Hls.FinishHeader | hls.go:282-289 | the finished header holds the magic, the count, the time and the master's offset and length |
| Hls.FinishPacked | hls.go:271-289 | the final writes, after every entry is in place, give a finished container |
| Hls.FinishEntries | hls.go:272-289 | the last writes keep every entry, all of which end before the master |
| Hls.PackDone | hls.go:251-289 | once all playlists are written, the final writes make the file a finished container |
| Hls.HlsBuilder.AddSubtitles | hls.go:131-178 | the master gains one subtitle entry per subtitle stream and the standalone entries are marked when there is any; one playlist is saved per subtitle stream |
| Hls.HlsBuilder.LoadPlaylists | hls.go:180-199 | the sub-playlists in master order, or the first read error; the master renamed to `<n>.m3u8`; uniqueFiles holds every reference with 0 |
| Hls.CollectRefs | hls.go:189-198 | uniqueFiles gains the playlist's references, each with 0 |
| Hls.CollectTags | hls.go:189-194 | uniqueFiles gains each `#EXT-X-MAP` URI with 0; other keys are kept |
| Hls.CollectFiles | hls.go:196-198 | uniqueFiles gains each entry name with 0; other keys are kept |
| Hls.RenamedNext | hls.go:195 | renaming master entry n keeps the entries before it renamed and the later ones untouched |
| Hls.MarkStandalone | hls.go:170-178 | each entry is marked, and referential entries are left unchanged |
| Hls.HlsBuilder.CopyAllMedia | hls.go:200-248 | on a media error that error with the file unmarked; otherwise every media entry in place and the playlists rewritten |
| Hls.HlsBuilder.WritePlaylists | hls.go:251-269 | the playlist loop writes every sub-playlist in slot order after the media |
| Hls.HlsBuilder.WriteLists | hls.go:251-289 | writing the sub-playlists and then the master gives the finished container |
| Hls.HlsBuilder.WritePlaylist | hls.go:260-268 | a sub-playlist at the cursor, with offset and length at 32+16n and flags left 0 |
| Hls.HlsBuilder.WriteMaster | hls.go:271-289 | the master and the fixed header writes, the magic last |
| Hls.HlsBuilder.Pack | hls.go:200-291 | with every media file present, the file is the finished container of the planned entries and master; otherwise the first media error with the file unmarked |
| Hls.HlsBuilder.Build | hls.go:121-291 | the first error build meets, with the output untouched before copying and unmarked after; otherwise the finished container of the plan: renamed master, sub-playlists in slots 0..P-1, media files in first-reference order after them, every reference rewritten |
| Master.PlaylistNameInjective | master.go:43 | different stream ids name different playlists |
| Master.AudioPropsShape | master.go:48-69 | TYPE=AUDIO, GROUP-ID "audio", NAME from the title tag or "Undefined audio track", LANGUAGE only with a language tag, DEFAULT=YES only for the first, AUTOSELECT=YES, URI of the moved file |
| Master.AudioPropsUnique | master.go:48-69 | LANGUAGE appears only with a language tag and in fourth place; DEFAULT appears once, third from last |
| Master.MovesTakes | master.go:41-73 | after a successful loop, one file is taken per audio stream and hasAudio says whether there was one |
| Master.MovesAppends | master.go:41-73 | one `#EXT-X-MEDIA:` header per audio stream, in stream order, after the existing headers |
| Master.MediaLinesDefault | master.go:60-65 | only the first audio rendition carries DEFAULT=YES |
| Master.MovesFails | master.go:41-46 | the loop fails exactly when some audio stream's `<id>.m3u8` is not in the master; otherwise the files left are the others |
| Master.NumberedIds | stream.go:15 | streams numbered by newStream have distinct ids |
| Master.GroupedKeeps | master.go:75-79 | each entry's first header gets `,AUDIO="audio"` appended once; nothing else changes |
| Master.FixMaster | master.go:8-82 | the loop's error; otherwise the rendition tags after the headers and the remaining entries in the audio group exactly when there was audio; the footer untouched |
| Master.MoveAudio | master.go:42-71 | one audio stream: its playlist taken out and its rendition tag appended, or the error |
| Master.AddAudioGroup | master.go:75-79 | every remaining entry's first header gets the audio group; headers and footer untouched |
| Encode.UsableAppend | encode.go:53-68 | the subtitle filter keeps order |
| Encode.UsableExactly | encode.go:53-68 | the kept subtitles are exactly those whose codec is not dvd_subtitle, subrip or hdmv_pgs_subtitle |
| Encode.LadderSpec | encode.go:70-80 | the ladder starts at the source size, each next entry is smaller of the previous, it has at least one and at most max(1, maxStreams) entries, and ends at nil unless capped |
| Encode.MakeLadder | encode.go:70-80 | the loop builds exactly that ladder |
| Encode.PrepareVideo | encode.go:29-84 | input, info, first video stream and audio streams recorded; no video is the missing-track error; otherwise usable subtitles and the ladder of the video's size |
| Encode.ChosenCodecEncodes | encode.go:118-189 | the codec is H264 up to 1280, else AV1 if allowed, else HEVC if allowed, else H264; with the corrected settings no rendition gets the error list, and a failed h264_nvenc test means no NVENC rendition |
| Encode.NvencFallbackIgnored | encode.go:122-127 | as written, a failed h264_nvenc test still gives a 1280x720 rendition to h264_nvenc (see Findings) |
| Encode.SoftwareHevcUnsupported | encode.go:118-139 | as written, software mode gives a 1920x1080 rendition HEVC, whose options are the error list (see Findings) |
| Encode.MapLabelsDefined | encode.go:142-161 | every rendition's `[v<n>]` label is defined in the filter graph |
| Encode.SplitLabelsMention | encode.go:148-154 | the split defines each label `[v0]`, `[vin1]`, … of the N outputs |
| Encode.ScaleStepsMention | encode.go:155-161 | each rendition n ≥ 1 has a scale step defining `[v n]` |
| Encode.FilterGraph | encode.go:142-161 | the loops build `[v:0][<filters>,]split=N`, the labels `[v0]`, `[vin1]`…, then `;[vin n]scale=w=W:h=H[v n]` for n ≥ 1 |
| Encode.RegisteredShape | stream.go:13-27 | registering sources appends one stream per source, in order, with the source's kind |
| Encode.RegisteredNumbered | stream.go:19-25 | registering keeps the numbering newStream maintains |
| Encode.RegisteredFromNone | stream.go:13-27 | registering sources on a fresh builder gives one numbered stream per source, with its kind |
| Encode.RunName | stream.go:29-31 | in a run of one kind from the start, stream n is named `<kind>:n` |
| Encode.AfterRunName | stream.go:29-31 | the j-th stream of the kind that follows the run is named `<kind>:j` |
| Encode.IdsDistinct | stream.go:29-31 | the `String()` names of numbered streams are pairwise different |
| Encode.EncodedVideoIds | encode.go:175-191 | rendition n is a stream of the video track named `v:n` |
| Encode.EncodedSources | encode.go:174-206 | the sources registered: the video track once per rendition, then the audio tracks; kind v exactly before k, a after |
| Encode.EncodedAudioIds | encode.go:195-205 | audio track j is the stream after the renditions named `a:j`, so every video id precedes every audio id |
| Encode.EncodedIdsDistinct | encode.go:174-206 | the var_stream_map names are pairwise different |
| Encode.MapRenditions | encode.go:174-192 | one stream of the video track per rendition; the `-map [v n]` and codec arguments of each; their names in order |
| Encode.MapAudios | encode.go:194-206 | one stream per audio track after the renditions; `-map a:n -c aac -b 96k -ac 2` for each |
| Encode.MapAudio | encode.go:195-205 | one audio track's stream and arguments |
| Encode.InputArgs | encode.go:104-116 | the literal input options: `-hide_banner`, `-loglevel warning` unless verbose, `-hwaccel auto` unless software, `-i input`; the promise is the command line itself, so the contract spells it out |
| Encode.MuxerArgs | encode.go:208-250 | the literal HLS muxer options, the segment name by single-file mode, and the var_stream_map; the promise is the command line itself, so the contract spells it out |
| Encode.EncodeArgsParts | encode.go:102-250 | the argument list is the input options, the filter graph, the rendition arguments, the audio arguments and the muxer options, in that order |
| Encode.MapStreams | encode.go:174-206 | the streams are renditions then audio tracks, and the names split into the video and audio parts |
| Encode.EncodeVideo | encode.go:102-250 | the streams registered and the whole argument list: input options, filter graph, rendition and audio arguments, muxer options and the var_stream_map of the registered names |
| Encode.SubsFileInjective | encode.go:302 | different streams extract to different `subs_<id>.vtt` files |
| Encode.ExtractSubtitles | encode.go:286-319 | one stream per usable subtitle after the others; the command of subtitle n maps `s:n` to `subs_<id>.vtt` |
| Encode.ExtractSubtitle | encode.go:287-303 | one subtitle: its stream registered last, and its ffmpeg command naming the new stream's id |
| Encode.SubtitleIds | encode.go:296-302 | subtitle n is stream `s:n` whose id is its position |
| Encode.SubsKinds | encode.go:295-302 | after the subtitles are registered, a stream is a subtitle exactly when it comes after the earlier streams |

## Left out

- External processes are not modelled: ffprobe, ffmpeg, shaka-packager (`makeHls`), `testVideoCodec` and the process exit codes. What they report is given as parameters:
  - the probed streams, as `Info`;
  - the NVENC test results, as `Probes`;
  - the bit rate of each rendition, as `rates`;
  - the playlists the packager wrote, as `lists`;
  - the working directory, as `dir`.
- The software-mode retry of a failed encode (encode.go:260-267) is not modelled: it only reruns encodeVideo with `software` set.
- Floating point is not modelled: `vsize.bitrate`, `ffFrameRate.Value`, the frame-rate clamp (encode.go:165-172), the subtitle start time (given as a string) and `makeSubPlaylist`'s duration formatting (encode.go:325-361).
- Subtitle playlists: `m3u8BuildVTT` and `makeSubPlaylist` are a parameter `vtt` giving each stream's playlist.
- Encryption key handling (encode.go:228-245) is not modelled: hex decode, random IV, key files.
- ExtractSubtitles: each subtitle ffmpeg run is taken to succeed, and the `init_0.mp4` probe before the loop is not modelled.
- Logging, temporary directories, `Close`, `keepTemp` and the `master_fixed.m3u8` debug write are not modelled.
- The clock is the parameter `now` (hls.go:283).
- Writes to the output file never fail. The `Seek(0, io.SeekCurrent)` error path and the ignored errors of `writeInt32`/`writeInt64` are not modelled.
- `SaveAs` of a subtitle playlist is taken to succeed.
- Hls.HlsBuilder.Build: requires an empty `files` memo, as a fresh builder has.
- Hls.HlsBuilder.Build: the source renames each reference inside the copy loop. The model renames each playlist after its loop, from the final `uniqueFiles`; `PlaylistRenamed` proves the two agree.
- `hlsFlags` panics on an unknown extension. In the model, that case is the error value `UnsupportedMediaType`.
- `hlsFlags` on `m3u8file` is not a separate member: it is `hlsFlagsName` of the entry's name, as in the source.
- Base.TrimSpace: trims ASCII white space only. Go's `strings.TrimSpace` also trims the Unicode spaces U+0085, U+00A0 and others.
- Master.FixMaster: requires that every entry left after the audio moves has a first header. `parse` always gives one. The source would panic on an entry without one.
- `prepareVideo` reads the probe through the external `github.com/KarpelesLab/ffprobe` package. Its `Video` and `GetStreams` are modelled by the ffprobe.go lookups in `Probe`.
- `vsize.String`, `vsize.Scale` and `hlsVariant.String` are text formats. Only `Scale` is modelled, inside the filter graph.
- The ladder is a list of sizes: encode.go:74 appends sizes to a field hls.go:58 declares as variants.
- The undefined playlist helpers of hls.go are modelled as follows:
  - A tag is a key plus an ordered attribute list (`m3u8spec`).
  - `get` strips surrounding quotes.
  - `set` replaces the first attribute of that name in place and is a no-op when the name is absent.
  - `setFilename` sets the URI attribute of a referential entry.
- main.go and exe.go are not part of this model.
- Encode.EncodeVideo: uses the corrected encoder settings `ChooseEncoders`. The settings as written are `EncodersAsWritten` (see Findings).
- Hls.HlsBuilder.Build: marks the stream entries with the corrected `MarkSubs`, which adds a missing SUBTITLES attribute. The marking as written is `MarkSubsAsWritten` (see Findings). Hls.HlsBuilder.AddSubtitles, Hls.MarkStandalone and HlsPlan.WithSubtitles use the same corrected marking.
- M3u8.M3u8File.WriteTo: m3u8.go's `m3u8file` has no `standalone` field and always writes the file name line (m3u8.go:148). The model adds the flag so that hls.go's subtitle `#EXT-X-MEDIA` entries, which carry their file in a URI attribute, are written without a name line. The master's bytes (`PlBytes`) therefore have no name line for those entries. Every entry the parser builds is standalone, and for those the output is the source's.
- VSize.Smaller: `v.w * nh` (vsize.go:38) is computed in Go's `int` and could overflow for absurd widths. The model's integers are unbounded.
- M3u8.M3u8.Parse: a read error other than EOF keeps the source's loop going (m3u8.go:46-53). The model's input is a complete string, so no such error arises.

## Findings

| source | as written | input that shows it | evidently intended | confidence | as-written member | corrected member |
|---|---|---|---|---|---|---|
| encode.go:125 | a failed h264_nvenc test sets `softwareEncode = false`, which it already is | software mode off, h264_nvenc test fails: a 1280x720 rendition still gets `-c:v:0 h264_nvenc` | fall back to software encoding (`softwareEncode = true`), as the log line says; proved in ChosenCodecEncodes | high, not executed | Encode.NvencFallbackIgnored | Encode.ChooseEncoders |
| encode.go:119 | `allowHevc := true` is only reset inside `if !softwareEncode`, so software mode keeps HEVC allowed | software mode on, a 1920x1080 rendition: HEVC is chosen and `Args` returns `["error","unsupported_codec"]` | HEVC allowed only when hevc_nvenc is usable, so software mode encodes H264; proved in ChosenCodecEncodes | high, not executed | Encode.SoftwareHevcUnsupported | Encode.ChooseEncoders |
| hls.go:175 | `set("SUBTITLES", "subs")` on the standalone entries; `set` changes only an attribute already present | a stream entry `#EXT-X-STREAM-INF:BANDWIDTH=1000,RESOLUTION=640x360` keeps no SUBTITLES reference | every standalone entry references the "subs" group (the attribute is added when missing); proved in MarkSubsRefers | medium (`set`'s code is not part of this model; that it does nothing on an absent name is this model's assumption), not executed | HlsPlan.MarkSubsAsWrittenMissesGroup | HlsPlan.MarkSubs |
