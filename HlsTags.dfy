/** The playlist form hls.go works on: each tag is a key and an ordered list
    of raw `NAME=VALUE` attributes (the m3u8spec of hls.go), with the
    attribute lookups `get`/`set` and the file renaming `setFilename`.
    A playlist in this form is written as text through the serialiser of
    m3u8.go, one tag per line. */
module HlsTags {
  import opened Base
  import M3u8

  /** One tag: `#EXT-X-MAP` with vars `URI="init.mp4"` is the line
      `#EXT-X-MAP:URI="init.mp4"`. */
  datatype Tag = Tag(key: string, vars: seq<string>)

  /** A playlist entry: its tags, its file name and whether the name is a
      line of its own (standalone) or the URI attribute of its first tag. */
  datatype PlFile = PlFile(headers: seq<Tag>, filename: string, standalone: bool)

  datatype Pl = Pl(headers: seq<Tag>, files: seq<PlFile>, footer: seq<string>)

  /** The text of a tag: the key, then ':' and the attributes separated by ','. */
  function TagText(t: Tag): string
  {
    if t.vars == [] then t.key else t.key + ":" + Join(t.vars, ",")
  }

  function TagsText(ts: seq<Tag>): (r: seq<string>)
    ensures |r| == |ts| && forall i :: 0 <= i < |ts| ==> r[i] == TagText(ts[i])
  {
    seq(|ts|, i requires 0 <= i < |ts| => TagText(ts[i]))
  }

  function FileText(f: PlFile): M3u8.M3u8File
  {
    M3u8.M3u8File(TagsText(f.headers), f.filename, f.standalone)
  }

  function PlText(pl: Pl): M3u8.Playlist
  {
    M3u8.Playlist(TagsText(pl.headers), seq(|pl.files|, i requires 0 <= i < |pl.files| => FileText(pl.files[i])),
                  pl.footer)
  }

  /** The bytes of a playlist as Bytes() writes them. */
  function PlBytes(pl: Pl): seq<byte>
  {
    ToBytes(M3u8.Serialize(PlText(pl)))
  }

  // ---------------------------------------------------------------------------
  // get and set
  // ---------------------------------------------------------------------------

  /** Whether attribute `v` is named `name`. */
  predicate Named(v: string, name: string)
  {
    name + "=" <= v
  }

  /** The position of the first attribute named `name`. */
  function FindVar(vars: seq<string>, name: string): (r: Option<nat>)
    ensures r.Some? ==> r.value < |vars| && Named(vars[r.value], name)
    ensures r.Some? ==> forall j {:trigger Named(vars[j], name)} :: 0 <= j < r.value ==> !Named(vars[j], name)
    ensures r.None? ==> forall j {:trigger Named(vars[j], name)} :: 0 <= j < |vars| ==> !Named(vars[j], name)
  {
    if vars == [] then None
    else if Named(vars[0], name) then Some(0)
    else match FindVar(vars[1..], name)
      case None => None
      case Some(k) => Some(k + 1)
  }

  /** A raw value with its surrounding quotes removed, when it starts with one. */
  function Unquote(raw: string): string
  {
    if |raw| > 0 && raw[0] == '"' then
      (if |raw| > 1 && raw[|raw| - 1] == '"' then raw[1..|raw| - 1] else raw[1..])
    else raw
  }

  /** get: the value of the first attribute `name`, unquoted, or "" when the
      tag has none. */
  function Get(t: Tag, name: string): string
  {
    match FindVar(t.vars, name)
    case None => ""
    case Some(i) => Unquote(t.vars[i][|name| + 1..])
  }

  /** set: the first attribute `name` gets the raw value `raw` in place; a tag
      without that attribute is left as it is. */
  function Set(t: Tag, name: string, raw: string): Tag
  {
    match FindVar(t.vars, name)
    case None => t
    case Some(i) => t.(vars := t.vars[i := name + "=" + raw])
  }

  /** What set promises: the key, the number and order of attributes and every
      other attribute stay; an existing attribute now reads back as the new
      quoted value; without the attribute nothing changes. */
  lemma SetThenGet(t: Tag, name: string, v: string)
    ensures Set(t, name, Quote(v)).key == t.key
    ensures |Set(t, name, Quote(v)).vars| == |t.vars|
    ensures FindVar(t.vars, name).None? ==> Set(t, name, Quote(v)) == t
    ensures FindVar(t.vars, name).Some? ==>
      && Get(Set(t, name, Quote(v)), name) == v
      && forall j :: 0 <= j < |t.vars| && j != FindVar(t.vars, name).value ==> Set(t, name, Quote(v)).vars[j] == t.vars[j]
  {
    match FindVar(t.vars, name)
    case None =>
    case Some(i) =>
      var nv := name + "=" + Quote(v);
      var t' := t.(vars := t.vars[i := nv]);
      assert Named(nv, name);
      assert t'.vars[..i] == t.vars[..i];
      FindVarSame(t.vars, t'.vars, name, i);
      assert nv[|name| + 1..] == Quote(v);
  }

  /** The first match of `name` depends only on the attributes up to it. */
  lemma {:induction false} FindVarSame(a: seq<string>, b: seq<string>, name: string, i: nat)
    requires i < |a| && i < |b| && a[..i] == b[..i]
    requires FindVar(a, name) == Some(i) && Named(b[i], name)
    ensures FindVar(b, name) == Some(i)
    decreases i
  {
    if i > 0 {
      assert a[0] == a[..i][0] == b[..i][0] == b[0];
      assert a[1..][..i - 1] == a[..i][1..] && b[1..][..i - 1] == b[..i][1..];
      FindVarSame(a[1..], b[1..], name, i - 1);
    }
  }

  /** setFilename: a new file name; for an entry whose name lives in its first
      tag's URI attribute, that attribute is rewritten too. */
  function SetFilename(f: PlFile, fn: string): (r: PlFile)
    ensures r.filename == fn && r.standalone == f.standalone && |r.headers| == |f.headers|
    ensures f.standalone ==> r.headers == f.headers
    ensures !f.standalone && |f.headers| > 0 ==>
      r.headers[1..] == f.headers[1..] && r.headers[0] == Set(f.headers[0], "URI", Quote(fn))
  {
    if f.standalone || f.headers == [] then f.(filename := fn)
    else f.(filename := fn, headers := f.headers[0 := Set(f.headers[0], "URI", Quote(fn))])
  }
}
