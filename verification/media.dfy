/**
 * Media normalisation: what an incoming message is reduced to before it is
 * offered for upload, and the content type an upload is labelled with.
 */
module Media {
  import opened Wrappers
  import opened Strings

  /** A document attachment; an empty name stands for a missing one. */
  datatype DocumentPart = DocumentPart(fileId: string, fileName: string)

  /** The parts of a message the bot looks at. The photo sizes run from the
      smallest to the largest, each given by its file id; a missing text or
      caption is the empty string. */
  datatype Message = Message(
    photo: seq<string>,
    video: Option<string>,
    animation: Option<string>,
    document: Option<DocumentPart>,
    text: string,
    caption: string)

  datatype MediaType = Photo | Video | Document

  /** The normalised media record. For a link, `fileId` holds the URL. */
  datatype MediaRef = MediaRef(fileId: string, kind: MediaType, fileName: string, isUrl: bool)

  /** What the clock and the random generator contribute to generated names:
      the millisecond stamp, the five-character tag of the base name and the
      four-character tag put in front of a document's own name. */
  datatype NameSeed = NameSeed(stamp: nat, tag: string, documentTag: string)

  function BaseName(seed: NameSeed): string {
    "tg_" + ShowNat(seed.stamp) + "_" + seed.tag
  }

  // ---------------------------------------------------------------------------
  // Finding a link: /https?:\/\/[^\s]+/

  /** The maximal run of non-white-space characters at the front. */
  function Run(s: string): (r: string)
    ensures StartsWith(s, r)
    ensures forall i :: 0 <= i < |r| ==> !IsSpace(r[i])
    ensures |r| < |s| ==> IsSpace(s[|r|])
    decreases |s|
  {
    if |s| > 0 && !IsSpace(s[0]) then [s[0]] + Run(s[1..]) else ""
  }

  /** The pattern matches at the front of `s`: a scheme and at least one
      further non-white-space character. */
  predicate UrlHere(s: string) {
    || (StartsWith(s, "https://") && |s| > 8 && !IsSpace(s[8]))
    || (StartsWith(s, "http://") && |s| > 7 && !IsSpace(s[7]))
  }

  function UrlStart(text: string, from: nat): (k: Option<nat>)
    requires from <= |text|
    ensures k.Some? ==> from <= k.value < |text| && UrlHere(text[k.value..])
    ensures k.Some? ==> forall j :: from <= j < k.value ==> !UrlHere(text[j..])
    ensures k.None? ==> forall j :: from <= j < |text| ==> !UrlHere(text[j..])
    decreases |text| - from
  {
    if from == |text| then None
    else if UrlHere(text[from..]) then Some(from)
    else UrlStart(text, from + 1)
  }

  /** `text.match(...)[0]`: the leftmost match, extended over every
      non-white-space character that follows. */
  function FindUrl(text: string): (u: Option<string>)
    ensures u.None? <==> forall j :: 0 <= j < |text| ==> !UrlHere(text[j..])
    ensures u.Some? ==> exists k :: 0 <= k < |text| && UrlHere(text[k..]) && u.value == Run(text[k..])
                                    && forall j :: 0 <= j < k ==> !UrlHere(text[j..])
    ensures u.Some? ==> u.value != "" && forall i :: 0 <= i < |u.value| ==> !IsSpace(u.value[i])
  {
    match UrlStart(text, 0)
    case Some(k) =>
      assert !IsSpace(text[k..][0]);
      Some(Run(text[k..]))
    case None => None
  }

  // ---------------------------------------------------------------------------
  // Guessing a file name from a link

  datatype Url = Url(path: string, query: string)

  /** A simplified URL splitter: an `http` or `https` scheme, a non-empty
      authority up to the first `/`, `?` or `#`, the path up to `?` or `#`
      (`/` when empty) and the query up to `#`. Anything else fails to parse. */
  function ParseUrl(url: string): (r: Option<Url>)
    ensures r.Some? ==> '?' !in r.value.path && '#' !in r.value.path && r.value.path != ""
    ensures r.Some? ==> '#' !in r.value.query
  {
    match AfterScheme(url)
    case None => None
    case Some(rest) => ParseRest(rest)
  }

  function AfterScheme(url: string): Option<string> {
    if StartsWith(url, "https://") then Some(url[8..])
    else if StartsWith(url, "http://") then Some(url[7..])
    else None
  }

  function ParseRest(rest: string): (r: Option<Url>)
    ensures r.Some? ==> '?' !in r.value.path && '#' !in r.value.path && r.value.path != ""
    ensures r.Some? ==> '#' !in r.value.query
  {
    var authority := Until(rest, "/?#");
    if authority == "" then None else Some(PathAndQuery(rest[|authority|..]))
  }

  /** What follows the authority: the path up to `?` or `#` (`/` when empty)
      and, after a `?`, the query up to `#`. */
  function PathAndQuery(after: string): (u: Url)
    ensures '?' !in u.path && '#' !in u.path && u.path != ""
    ensures '#' !in u.query
  {
    var pathPart := Until(after, "?#");
    var tail := after[|pathPart|..];
    var query := if |tail| > 0 && tail[0] == '?' then Until(tail[1..], "#") else "";
    Url(if pathPart == "" then "/" else pathPart, query)
  }

  /** The value of the first `&`-separated pair named `name`; the name ends at
      the first `=`, and a pair without one has the empty value. */
  function FirstParam(pairs: seq<string>, name: string): (v: Option<string>)
    ensures v.Some? ==> exists i :: 0 <= i < |pairs| && Until(pairs[i], "=") == name
    ensures v.None? ==> forall i :: 0 <= i < |pairs| ==> Until(pairs[i], "=") != name
  {
    if |pairs| == 0 then None
    else
      var key := Until(pairs[0], "=");
      if key == name then Some(if |key| < |pairs[0]| then pairs[0][|key| + 1..] else "")
      else FirstParam(pairs[1..], name)
  }

  /** `searchParams.get(name)`. */
  function QueryParam(query: string, name: string): Option<string> {
    FirstParam(Split(query, '&'), name)
  }

  /** The last path segment when it holds a dot; otherwise the generated base
      with the `format` parameter, or `jpg`, as extension; a link that does
      not parse gets `jpg` as well. Whatever the case the name has a dot. */
  function InferName(url: string, base: string): (name: string)
    ensures '.' in name
    ensures ParseUrl(url).None? ==> name == base + ".jpg"
  {
    assert (base + ".jpg")[|base|] == '.';
    match ParseUrl(url)
    case None => base + ".jpg"
    case Some(u) =>
      var segment := Last(Split(u.path, '/'));
      if segment != "" && '.' in segment then segment
      else
        var format := QueryParam(u.query, "format");
        if format.Some? && format.value != "" then
          assert (base + "." + format.value)[|base|] == '.';
          base + "." + format.value
        else base + ".jpg"
  }

  predicate Avoids(s: string, stops: string) {
    forall i :: 0 <= i < |s| ==> s[i] !in stops
  }

  lemma SchemeStripped(scheme: string, rest: string)
    requires scheme == "https://" || scheme == "http://"
    ensures AfterScheme(scheme + rest) == Some(rest)
  {
    var url := scheme + rest;
    if scheme == "http://" {
      assert url[4] == ':';
      assert !StartsWith(url, "https://");
    }
    assert url[|scheme|..] == rest;
  }

  lemma RestPlain(host: string, path: string, query: string)
    requires host != "" && Avoids(host, "/?#")
    requires |path| > 0 && path[0] == '/' && Avoids(path, "?#")
    requires Avoids(query, "#")
    ensures ParseRest(host + path + "?" + query) == Some(Url(path, query))
  {
    var after := path + "?" + query;
    assert host + path + "?" + query == host + after;
    UntilPrefix(host, after, "/?#");
    assert (host + after)[|host|..] == after;
    PathQueryPlain(path, query);
  }

  lemma PathQueryPlain(path: string, query: string)
    requires path != "" && Avoids(path, "?#")
    requires Avoids(query, "#")
    ensures PathAndQuery(path + "?" + query) == Url(path, query)
  {
    var after := path + "?" + query;
    assert after == path + ("?" + query);
    UntilPrefix(path, "?" + query, "?#");
    assert after[|path|..] == "?" + query;
    assert ("?" + query)[1..] == query + "";
    UntilPrefix(query, "", "#");
  }

  /** A link of the plain shape scheme, host, absolute path, query splits
      into that path and query. */
  lemma ParsePlain(scheme: string, host: string, path: string, query: string)
    requires scheme == "https://" || scheme == "http://"
    requires host != "" && Avoids(host, "/?#")
    requires |path| > 0 && path[0] == '/' && Avoids(path, "?#")
    requires Avoids(query, "#")
    ensures ParseUrl(scheme + host + path + "?" + query) == Some(Url(path, query))
  {
    assert scheme + host + path + "?" + query == scheme + (host + path + "?" + query);
    SchemeStripped(scheme, host + path + "?" + query);
    RestPlain(host, path, query);
  }

  /** A last path segment with a dot is the name, whatever the query says. */
  lemma SegmentName(scheme: string, host: string, dirs: string, file: string, query: string, base: string)
    requires scheme == "https://" || scheme == "http://"
    requires host != "" && Avoids(host, "/?#")
    requires (dirs == "" || dirs[0] == '/') && Avoids(dirs, "?#")
    requires Avoids(file, "/?#") && '.' in file
    requires Avoids(query, "#")
    ensures InferName(scheme + host + dirs + "/" + file + "?" + query, base) == file
  {
    var path := dirs + "/" + file;
    assert path[0] == '/';
    assert Avoids(path, "?#");
    assert scheme + host + dirs + "/" + file + "?" + query == scheme + host + path + "?" + query;
    ParsePlain(scheme, host, path, query);
    assert '/' !in file;
    SplitLastPiece(dirs, '/', file);
  }

  /** Without a dotted last segment, the `format` parameter gives the
      extension. */
  lemma FormatName(scheme: string, host: string, dirs: string, file: string, format: string, base: string)
    requires scheme == "https://" || scheme == "http://"
    requires host != "" && Avoids(host, "/?#")
    requires (dirs == "" || dirs[0] == '/') && Avoids(dirs, "?#")
    requires Avoids(file, "/?#") && '.' !in file
    requires format != "" && Avoids(format, "&#")
    ensures InferName(scheme + host + dirs + "/" + file + "?format=" + format, base) == base + "." + format
  {
    var path := dirs + "/" + file;
    var query := "format=" + format;
    assert path[0] == '/';
    assert Avoids(path, "?#");
    assert Avoids(query, "#");
    assert scheme + host + dirs + "/" + file + "?format=" + format == scheme + host + path + "?" + query;
    ParsePlain(scheme, host, path, query);
    assert '/' !in file;
    SplitLastPiece(dirs, '/', file);
    FormatParam(query, format);
  }

  /** A link that parses but has neither a dotted last segment nor a
      non-empty `format` parameter gets `jpg`. */
  lemma JpgFallback(scheme: string, host: string, dirs: string, file: string, query: string, base: string)
    requires scheme == "https://" || scheme == "http://"
    requires host != "" && Avoids(host, "/?#")
    requires (dirs == "" || dirs[0] == '/') && Avoids(dirs, "?#")
    requires Avoids(file, "/?#") && '.' !in file
    requires Avoids(query, "#") && OrElse(QueryParam(query, "format"), "") == ""
    ensures InferName(scheme + host + dirs + "/" + file + "?" + query, base) == base + ".jpg"
  {
    var path := dirs + "/" + file;
    assert path[0] == '/';
    assert Avoids(path, "?#");
    assert scheme + host + dirs + "/" + file + "?" + query == scheme + host + path + "?" + query;
    ParsePlain(scheme, host, path, query);
    assert '/' !in file;
    SplitLastPiece(dirs, '/', file);
  }

  lemma FormatParam(query: string, format: string)
    requires Avoids(format, "&#") && query == "format=" + format
    ensures QueryParam(query, "format") == Some(format)
  {
    assert '&' !in query;
    SplitWhole(query, '&');
    assert query == "format" + ("=" + format);
    UntilPrefix("format", "=" + format, "=");
    assert query[7..] == format;
  }

  /** The link `https://example.com/a/b.png?format=jpg`, given by its parts:
      the dotted segment wins over `format=jpg`. */
  lemma SegmentBeatsFormat(scheme: string, host: string, dirs: string, file: string, query: string, base: string)
    requires scheme == "https://" && host == "example.com" && dirs == "/a"
    requires file == "b.png" && query == "format=jpg"
    ensures InferName(scheme + host + dirs + "/" + file + "?" + query, base) == "b.png"
  {
    assert file[1] == '.';
    SegmentName(scheme, host, dirs, file, query, base);
  }

  // ---------------------------------------------------------------------------
  // getMediaInfo

  /** `msg.text || msg.caption || ""`. */
  function MessageText(m: Message): string {
    if m.text != "" then m.text else m.caption
  }

  /** Which part of a message decides: the first one present, in the order
      photo, video, animation, document, then the text. */
  datatype Source = FromPhoto | FromVideo | FromAnimation | FromDocument | FromText

  function SourceOf(m: Message): Source {
    if |m.photo| > 0 then FromPhoto
    else if m.video.Some? then FromVideo
    else if m.animation.Some? then FromAnimation
    else if m.document.Some? then FromDocument
    else FromText
  }

  /** The record a message yields before the empty-id check; a message with
      nothing usable yields an empty id. */
  function Candidate(m: Message, seed: NameSeed): MediaRef {
    var base := BaseName(seed);
    if |m.photo| > 0 then MediaRef(Last(m.photo), Photo, base + ".jpg", false)
    else if m.video.Some? then MediaRef(m.video.value, Video, base + ".mp4", false)
    else if m.animation.Some? then MediaRef(m.animation.value, Video, base + ".mp4", false)
    else if m.document.Some? then
      var d := m.document.value;
      MediaRef(d.fileId, Document, if d.fileName != "" then "tg_" + seed.documentTag + "_" + d.fileName else base + ".dat", false)
    else
      match FindUrl(MessageText(m))
      case Some(url) => MediaRef(url, Photo, InferName(url, base), true)
      case None => MediaRef("", Document, base, false)
  }

  /** `getMediaInfo`: no record for a missing message or when the deciding part
      carries no file id; a link is taken only from a message with no media. */
  function GetMediaInfo(msg: Option<Message>, seed: NameSeed): (r: Option<MediaRef>)
    ensures r.Some? ==> msg.Some? && r.value.fileId != ""
    ensures r.Some? && r.value.isUrl <==>
              msg.Some? && SourceOf(msg.value) == FromText && FindUrl(MessageText(msg.value)).Some?
    ensures r.Some? && r.value.isUrl ==>
              r.value.kind == Photo && Some(r.value.fileId) == FindUrl(MessageText(msg.value))
  {
    if msg.None? then None
    else
      var c := Candidate(msg.value, seed);
      if c.fileId == "" then None else Some(c)
  }

  /** Two messages agree on everything up to and including the part that
      decides for the first. */
  predicate AgreeUpTo(m: Message, n: Message) {
    SourceOf(m) == SourceOf(n) &&
    match SourceOf(m)
    case FromPhoto => Last(m.photo) == Last(n.photo)
    case FromVideo => m.video == n.video
    case FromAnimation => m.animation == n.animation
    case FromDocument => m.document == n.document
    case FromText => MessageText(m) == MessageText(n)
  }

  /** Priority: once a part decides, nothing of lower priority matters. */
  lemma PriorityDecides(m: Message, n: Message, seed: NameSeed)
    requires AgreeUpTo(m, n)
    ensures GetMediaInfo(Some(m), seed) == GetMediaInfo(Some(n), seed)
  {
  }

  /** The id a message's deciding part carries, or the link in its text. */
  function DecidingId(m: Message): string {
    match SourceOf(m)
    case FromPhoto => Last(m.photo)
    case FromVideo => m.video.value
    case FromAnimation => m.animation.value
    case FromDocument => m.document.value.fileId
    case FromText => FindUrl(MessageText(m)).GetOr("")
  }

  /** No record exactly when the deciding part yields no id; otherwise the
      record carries that id, and its type is `photo` for photos and links,
      `video` for videos and animations. */
  lemma {:induction false} MediaInfoIff(m: Message, seed: NameSeed)
    ensures GetMediaInfo(Some(m), seed).None? <==> DecidingId(m) == ""
    ensures GetMediaInfo(Some(m), seed).Some? ==>
              var r := GetMediaInfo(Some(m), seed).value;
              && r.fileId == DecidingId(m)
              && (r.kind == Photo <==> SourceOf(m) == FromPhoto || SourceOf(m) == FromText)
              && (r.kind == Video <==> SourceOf(m) == FromVideo || SourceOf(m) == FromAnimation)
  {
  }

  // ---------------------------------------------------------------------------
  // getMimeType

  /** `n.split('.').pop()`: what follows the last dot, or the whole name when
      it has none. */
  function Extension(n: string): (e: string)
    ensures '.' !in e
    ensures e == n || (|e| < |n| && n[|n| - |e| - 1] == '.' && n[|n| - |e|..] == e)
  {
    var parts := Split(n, '.');
    JoinSplit(n, '.');
    if |parts| >= 2 then
      JoinLast(parts, '.');
      Last(parts)
    else
      Last(parts)
  }

  /** The lookup in the object literal of `getMimeType`. Besides its four
      entries, a literal also answers for the members every object inherits;
      of those, only `constructor` and `__proto__` are lower-case, and both
      are truthy, so `||` keeps them. They are written here as the strings
      they convert to. */
  function MimeOf(ext: string): string {
    if ext == "jpg" then "image/jpeg"
    else if ext == "png" then "image/png"
    else if ext == "gif" then "image/gif"
    else if ext == "mp4" then "video/mp4"
    else if ext == "constructor" then "function Object() { [native code] }"
    else if ext == "__proto__" then "[object Object]"
    else "application/octet-stream"
  }

  /** `getMimeType`: the content type of the lower-cased extension, with the
      generic binary type for anything the lookup does not find. */
  function GetMimeType(n: string): (t: string)
    ensures t != "application/octet-stream" <==>
              LowerAscii(Extension(n)) in ["jpg", "png", "gif", "mp4", "constructor", "__proto__"]
    ensures LowerAscii(Extension(n)) == "jpg" ==> t == "image/jpeg"
    ensures LowerAscii(Extension(n)) == "png" ==> t == "image/png"
    ensures LowerAscii(Extension(n)) == "gif" ==> t == "image/gif"
    ensures LowerAscii(Extension(n)) == "mp4" ==> t == "video/mp4"
  {
    MimeOf(LowerAscii(Extension(n)))
  }

  /** The extension is what follows the last dot. */
  lemma ExtensionAfterDot(stem: string, ext: string)
    requires '.' !in ext
    ensures Extension(stem + "." + ext) == ext
    ensures GetMimeType(stem + "." + ext) == MimeOf(LowerAscii(ext))
  {
    SplitLastPiece(stem, '.', ext);
  }

  lemma LowerAsciiKeeps(s: string)
    requires forall i :: 0 <= i < |s| ==> !('A' <= s[i] <= 'Z')
    ensures LowerAscii(s) == s
  {
  }

  /** A generated name with a lower-case extension gets that extension's type. */
  lemma GeneratedMime(name: string, stem: string, ext: string, mime: string)
    requires '.' !in ext && forall i :: 0 <= i < |ext| ==> !('A' <= ext[i] <= 'Z')
    requires name == stem + "." + ext && mime == MimeOf(ext)
    ensures GetMimeType(name) == mime
  {
    ExtensionAfterDot(stem, ext);
    LowerAsciiKeeps(ext);
  }

  /** The names generated for photos and videos carry the content type of
      their kind; a document without a name is sent as generic binary. */
  lemma MediaMime(m: Message, seed: NameSeed)
    requires GetMediaInfo(Some(m), seed).Some? && SourceOf(m) != FromText
    ensures var r := GetMediaInfo(Some(m), seed).value;
            && (r.kind == Photo ==> GetMimeType(r.fileName) == "image/jpeg")
            && (r.kind == Video ==> GetMimeType(r.fileName) == "video/mp4")
            && (m.document.Some? && m.document.value.fileName == "" && r.kind == Document ==>
                  GetMimeType(r.fileName) == "application/octet-stream")
  {
    var base := BaseName(seed);
    var r := GetMediaInfo(Some(m), seed).value;
    assert r == Candidate(m, seed);
    CandidateName(m, seed);
    KindMime(r, base, m.document.Some? && m.document.value.fileName == "");
  }

  lemma KindMime(r: MediaRef, base: string, nameless: bool)
    requires r.kind == Photo ==> r.fileName == base + "." + "jpg"
    requires r.kind == Video ==> r.fileName == base + "." + "mp4"
    requires r.kind == Document && nameless ==> r.fileName == base + "." + "dat"
    ensures r.kind == Photo ==> GetMimeType(r.fileName) == "image/jpeg"
    ensures r.kind == Video ==> GetMimeType(r.fileName) == "video/mp4"
    ensures r.kind == Document && nameless ==> GetMimeType(r.fileName) == "application/octet-stream"
  {
    if r.kind == Photo {
      GeneratedMime(r.fileName, base, "jpg", "image/jpeg");
    } else if r.kind == Video {
      GeneratedMime(r.fileName, base, "mp4", "video/mp4");
    } else if nameless {
      GeneratedMime(r.fileName, base, "dat", "application/octet-stream");
    }
  }

  /** The names given to media parts without a name of their own. */
  lemma CandidateName(m: Message, seed: NameSeed)
    requires SourceOf(m) != FromText
    ensures var c := Candidate(m, seed);
            var base := BaseName(seed);
            && (c.kind == Photo ==> c.fileName == base + "." + "jpg")
            && (c.kind == Video ==> c.fileName == base + "." + "mp4")
            && (c.kind == Document && m.document.Some? && m.document.value.fileName == "" ==>
                  c.fileName == base + "." + "dat")
  {
    var base := BaseName(seed);
    assert base + ".jpg" == base + "." + "jpg";
    assert base + ".mp4" == base + "." + "mp4";
    assert base + ".dat" == base + "." + "dat";
  }

  /** A document keeps the content type of its own name when that name has a
      dot: the tag put in front does not touch the extension. */
  lemma DocumentMime(m: Message, seed: NameSeed)
    requires SourceOf(m) == FromDocument && '.' in m.document.value.fileName
    requires GetMediaInfo(Some(m), seed).Some?
    ensures GetMimeType(GetMediaInfo(Some(m), seed).value.fileName) == GetMimeType(m.document.value.fileName)
  {
    var name := m.document.value.fileName;
    var r := GetMediaInfo(Some(m), seed).value;
    var ext := Extension(name);
    var stem := name[..|name| - |ext| - 1];
    assert name == stem + "." + ext;
    ExtensionAfterDot(stem, ext);
    assert r.fileName == ("tg_" + seed.documentTag + "_" + stem) + "." + ext;
    ExtensionAfterDot("tg_" + seed.documentTag + "_" + stem, ext);
  }
}
