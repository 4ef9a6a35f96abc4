/**
 * The callback token: the whole server-visible state of a button press,
 * carried in the button's `callback_data` as colon-separated fields.
 * `Decode` is the prefix dispatch at the head of `handleCallback` together
 * with the field defaults each branch applies; `Encode` writes the payloads
 * the keyboard builders produce.
 */
module Token {
  import opened Wrappers
  import opened Strings

  /** What a button press asks for, after the handler's field defaults. */
  datatype CallbackToken =
    | SwitchChannel(selected: string, batch: bool)       // switch_chan:<selected>:batch|single
    | ModeSelect(mode: string)                           // mode:<mode>
    | BatchUpload(dir: string, channel: Option<string>)  // batch_upload:<dir>[:<channel>]
    | SingleUpload(dir: string, channel: Option<string>) // upload:<dir>[:<channel>]
    | Cancel(batch: bool)                                // batch_cancel | upload_cancel
    | ClosePanel(extra: Option<string>)                  // close_panel[:<message to delete too>]
    | RandomNext(dir: string, command: string)           // rnd:next:<dir>:<command>
    | RandomPick(dir: string, command: string)           // rnd:pick:<dir>:<command>
    | RandomSet(target: Option<string>, command: string) // rnd:set:<dir>:<command>
    | Browse(dir: string, page: Option<int>, command: string) // browse:<dir>:<page>:<command>
    | ListRefreshRoot(command: string)                   // list_refresh_root:<command>
    | Ignore                                             // anything else

  /** A field the payload can carry without splitting it. */
  predicate Free(field: string) {
    ':' !in field
  }

  /** A page as a template literal renders it; `None` is `NaN`. */
  function PageText(page: Option<int>): string {
    if page.Some? then ShowInt(page.value) else "NaN"
  }

  function BatchWord(batch: bool): string {
    if batch then "batch" else "single"
  }

  /** The fields of a token's payload, before joining with ':'. */
  function Fields(t: CallbackToken): seq<string> {
    match t
    case SwitchChannel(c, b) => ["switch_chan", c, BatchWord(b)]
    case ModeSelect(m) => ["mode", m]
    case BatchUpload(d, c) => ["batch_upload", d] + (if c.Some? then [c.value] else [])
    case SingleUpload(d, c) => ["upload", d] + (if c.Some? then [c.value] else [])
    case Cancel(b) => [if b then "batch_cancel" else "upload_cancel"]
    case ClosePanel(x) => ["close_panel"] + (if x.Some? then [x.value] else [])
    case RandomNext(d, x) => ["rnd", "next", d, x]
    case RandomPick(d, x) => ["rnd", "pick", d, x]
    case RandomSet(d, x) => ["rnd", "set"] + (if d.Some? then [d.value, x] else [])
    case Browse(d, p, x) => ["browse", d, PageText(p), x]
    case ListRefreshRoot(x) => ["list_refresh_root", x]
    case Ignore => ["ignore"]
  }

  /** The payload of a token: its fields joined with ':'. A well-formed
      token's payload splits back into exactly its fields. */
  function Encode(t: CallbackToken): (r: string)
    ensures WellFormed(t) ==> Split(r, ':') == Fields(t)
  {
    if WellFormed(t) then
      FieldsFree(t);
      SplitJoin(Fields(t), ':');
      Join(Fields(t), ':')
    else
      Join(Fields(t), ':')
  }

  /** The tokens whose payload decodes back to them: every field free of ':',
      and no field left to a default the decoder would fill differently. */
  predicate WellFormed(t: CallbackToken) {
    match t
    case SwitchChannel(c, _) => Free(c)
    case ModeSelect(m) => Free(m)
    case BatchUpload(d, c) => Free(d) && (c.Some? ==> Free(c.value))
    case SingleUpload(d, c) => Free(d) && (c.Some? ==> Free(c.value))
    case Cancel(_) => true
    case ClosePanel(x) => x.Some? ==> Free(x.value) && x.value != ""
    case RandomNext(d, x) => Free(d) && d != "" && Free(x)
    case RandomPick(d, x) => Free(d) && d != "" && Free(x)
    case RandomSet(d, x) => (d.Some? ==> Free(d.value)) && Free(x) && (d.None? ==> x == "")
    case Browse(d, _, x) => Free(d) && Free(x)
    case ListRefreshRoot(x) => Free(x)
    case Ignore => true
  }

  /** A payload that passed a prefix check holding ':' has a second field. */
  lemma PrefixHasSeparator(data: string, prefix: string)
    requires StartsWith(data, prefix) && ':' in prefix
    ensures |Split(data, ':')| >= 2
  {
    var k :| 0 <= k < |prefix| && prefix[k] == ':';
    assert data[k] == ':';
  }

  /** The `rnd:` sub-dispatch on the action field. */
  function DecodeRandom(parts: seq<string>): CallbackToken
    requires |parts| >= 2
  {
    var action := parts[1];
    var current := OrElse(Field(parts, 2), "all");
    var command := OrElse(Field(parts, 3), "");
    if action == "next" then RandomNext(current, command)
    else if action == "pick" then RandomPick(current, command)
    else if action == "set" then RandomSet(Field(parts, 2), command)
    else Ignore
  }

  /** The `browse:` branch: an absent or empty page field counts as page 0. */
  function DecodeBrowseFields(parts: seq<string>): CallbackToken
    requires |parts| >= 2
  {
    Browse(parts[1], ParseInt(OrElse(Field(parts, 2), "0")), OrElse(Field(parts, 3), ""))
  }

  /** `handleCallback`'s dispatch: the first prefix that matches decides, and a
      payload that matches none is ignored. Decoding is total. */
  function Decode(data: string): (r: CallbackToken)
    ensures r != Ignore ==> Recognised(data)
  {
    var parts := Split(data, ':');
    if StartsWith(data, "switch_chan:") then
      PrefixHasSeparator(data, "switch_chan:");
      Matched(data, 0);
      SwitchChannel(parts[1], Field(parts, 2) == Some("batch"))
    else if StartsWith(data, "mode:") then
      PrefixHasSeparator(data, "mode:");
      Matched(data, 1);
      ModeSelect(parts[1])
    else if StartsWith(data, "batch_upload:") then
      PrefixHasSeparator(data, "batch_upload:");
      Matched(data, 2);
      BatchUpload(parts[1], Field(parts, 2))
    else if StartsWith(data, "upload:") then
      PrefixHasSeparator(data, "upload:");
      Matched(data, 3);
      SingleUpload(parts[1], Field(parts, 2))
    else if data == "upload_cancel" || data == "batch_cancel" then
      Cancel(data == "batch_cancel")
    else if StartsWith(data, "close_panel") then
      Matched(data, 4);
      ClosePanel(if Field(parts, 1).Some? && parts[1] != "" then Some(parts[1]) else None)
    else if StartsWith(data, "rnd:") then
      PrefixHasSeparator(data, "rnd:");
      Matched(data, 5);
      DecodeRandom(parts)
    else if StartsWith(data, "browse:") then
      PrefixHasSeparator(data, "browse:");
      Matched(data, 6);
      DecodeBrowseFields(parts)
    else if StartsWith(data, "list_refresh_root") then
      Matched(data, 7);
      ListRefreshRoot(OrElse(Field(parts, 1), ""))
    else
      Ignore
  }

  // ---------------------------------------------------------------------------
  // Round trip

  lemma JoinHead(fs: seq<string>)
    requires |fs| >= 2
    ensures Join(fs, ':') == fs[0] + ":" + Join(fs[1..], ':')
    ensures StartsWith(Join(fs, ':'), fs[0] + ":")
  {
    var data := Join(fs, ':');
    assert data[..|fs[0]| + 1] == fs[0] + ":";
  }

  lemma ShowIntFree(n: int)
    ensures Free(ShowInt(n))
  {
  }

  lemma ParseNaN(x: string)
    requires x == "NaN"
    ensures ParseInt(x) == None
  {
    assert x[0] == 'N' && !IsSpace(x[0]);
    assert TrimStart(x) == x;
    assert !IsDigit(x[0]);
  }

  lemma PageRoundTrip(p: Option<int>)
    ensures Free(PageText(p)) && PageText(p) != ""
    ensures ParseInt(OrElse(Some(PageText(p)), "0")) == p
  {
    if p.Some? {
      ShowIntFree(p.value);
      ParseShowInt(p.value);
    } else {
      ParseNaN(PageText(p));
    }
  }

  /** A payload differing from a prefix at some position does not start with it. */
  lemma Differs(data: string, prefix: string, k: nat)
    requires k < |prefix| && (k >= |data| || data[k] != prefix[k])
    ensures !StartsWith(data, prefix)
  {
  }

  /** A well-formed token's fields are all free of ':'. */
  lemma FieldsFree(t: CallbackToken)
    requires WellFormed(t)
    ensures |Fields(t)| >= 1 && forall i :: 0 <= i < |Fields(t)| ==> ':' !in Fields(t)[i]
  {
    if t.Browse? {
      PageRoundTrip(t.page);
    }
    if t.SwitchChannel? {
      assert Free(BatchWord(t.batch));
    }
  }

  lemma DecodeSwitch(t: CallbackToken)
    requires t.SwitchChannel? && WellFormed(t)
    ensures Decode(Encode(t)) == t
  {
    JoinHead(Fields(t));
  }

  lemma DecodeMode(t: CallbackToken)
    requires t.ModeSelect? && WellFormed(t)
    ensures Decode(Encode(t)) == t
  {
    var data := Encode(t);
    JoinHead(Fields(t));
    assert data[0] == 'm';
  }

  lemma DecodeBatchUpload(t: CallbackToken)
    requires t.BatchUpload? && WellFormed(t)
    ensures Decode(Encode(t)) == t
  {
    var data := Encode(t);
    JoinHead(Fields(t));
    Differs(data, "switch_chan:", 0);
    Differs(data, "mode:", 0);
  }

  lemma DecodeSingleUpload(t: CallbackToken)
    requires t.SingleUpload? && WellFormed(t)
    ensures Decode(Encode(t)) == t
  {
    var data := Encode(t);
    JoinHead(Fields(t));
    Differs(data, "switch_chan:", 0);
    Differs(data, "mode:", 0);
    Differs(data, "batch_upload:", 0);
  }

  lemma DecodeCancel(t: CallbackToken)
    requires t.Cancel?
    ensures Decode(Encode(t)) == t
  {
    var data := Encode(t);
    assert data == Fields(t)[0];
    Differs(data, "switch_chan:", 0);
    Differs(data, "mode:", 0);
    if t.batch {
      Differs(data, "batch_upload:", 6);
      Differs(data, "upload:", 0);
    } else {
      Differs(data, "batch_upload:", 0);
      Differs(data, "upload:", 6);
    }
  }

  /** None of the prefixes tested before `close_panel` matches a payload that
      starts with 'c', 'r', 'b' + 'r', 'l' or 'i'. */
  lemma NotUploadFamily(data: string)
    requires |data| >= 2 && (data[0] in "crli" || (data[0] == 'b' && data[1] == 'r'))
    ensures !StartsWith(data, "switch_chan:") && !StartsWith(data, "mode:")
    ensures !StartsWith(data, "upload:") && data != "upload_cancel"
    ensures data != "batch_cancel"
    ensures !StartsWith(data, "batch_upload:")
  {
    Differs(data, "switch_chan:", 0);
    Differs(data, "mode:", 0);
    Differs(data, "upload:", 0);
    if data[0] == 'b' {
      Differs(data, "batch_upload:", 1);
      assert data != "batch_cancel" by { assert "batch_cancel"[1] == 'a'; }
    } else {
      Differs(data, "batch_upload:", 0);
    }
  }

  lemma DecodeClose(t: CallbackToken)
    requires t.ClosePanel? && WellFormed(t)
    ensures Decode(Encode(t)) == t
  {
    if t.extra.Some? {
      assert Fields(t) == ["close_panel", t.extra.value];
      DecodeCloseJoin(t.extra.value);
    } else {
      var data := Encode(t);
      assert data == "close_panel";
      NotUploadFamily(data);
    }
  }

  lemma DecodeRandomToken(t: CallbackToken)
    requires (t.RandomNext? || t.RandomPick? || t.RandomSet?) && WellFormed(t)
    ensures Decode(Encode(t)) == t
  {
    var fs := Fields(t);
    assert forall i :: 0 <= i < |fs| ==> Free(fs[i]);
    DecodeRandomJoin(fs);
  }

  /** Any `rnd:` payload whose fields are ':'-free goes to the random-panel
      sub-dispatch with exactly those fields, whatever their content. */
  lemma DecodeRandomJoin(fs: seq<string>)
    requires |fs| >= 2 && fs[0] == "rnd"
    requires forall i :: 0 <= i < |fs| ==> Free(fs[i])
    ensures Decode(Join(fs, ':')) == DecodeRandom(fs)
  {
    var data := Join(fs, ':');
    SplitJoin(fs, ':');
    JoinHead(fs);
    RandomGuards(data);
  }

  /** Any `batch_upload:` payload whose fields are ':'-free uploads to its second
      field, with its third, if any, as the channel. */
  lemma DecodeBatchUploadJoin(fs: seq<string>)
    requires |fs| >= 2 && fs[0] == "batch_upload"
    requires forall i :: 0 <= i < |fs| ==> Free(fs[i])
    ensures Decode(Join(fs, ':')) == BatchUpload(fs[1], Field(fs, 2))
  {
    var data := Join(fs, ':');
    SplitJoin(fs, ':');
    JoinHead(fs);
    BatchUploadGuards(data);
  }

  /** A `batch_upload:` payload fails the two tests that come before its own. */
  lemma BatchUploadGuards(data: string)
    requires StartsWith(data, "batch_upload:")
    ensures |Split(data, ':')| >= 2
    ensures Decode(data) == BatchUpload(Split(data, ':')[1], Field(Split(data, ':'), 2))
  {
    assert data[0] == 'b';
    Differs(data, "switch_chan:", 0);
    Differs(data, "mode:", 0);
    PrefixHasSeparator(data, "batch_upload:");
  }

  /** `close_panel:` followed by a ':'-free id: the id when it is not empty. */
  lemma DecodeCloseJoin(x: string)
    requires Free(x)
    ensures Decode(Join(["close_panel", x], ':')) == ClosePanel(if x == "" then None else Some(x))
  {
    var fs := ["close_panel", x];
    var data := Join(fs, ':');
    SplitJoin(fs, ':');
    JoinHead(fs);
    assert data[..11] == "close_panel";
    NotUploadFamily(data);
  }

  /** A `browse:` payload fails every test that comes before its own. */
  lemma BrowseGuards(data: string)
    requires StartsWith(data, "browse:")
    ensures !StartsWith(data, "switch_chan:") && !StartsWith(data, "mode:")
    ensures !StartsWith(data, "batch_upload:") && !StartsWith(data, "upload:")
    ensures data != "upload_cancel" && data != "batch_cancel"
    ensures !StartsWith(data, "close_panel") && !StartsWith(data, "rnd:")
  {
    assert data[0] == 'b' && data[1] == 'r';
    NotUploadFamily(data);
    Differs(data, "close_panel", 0);
    Differs(data, "rnd:", 0);
  }

  lemma DecodeBrowse(t: CallbackToken)
    requires t.Browse? && WellFormed(t)
    ensures Decode(Encode(t)) == t
  {
    var data := Encode(t);
    var parts := Split(data, ':');
    assert Field(parts, 2) == Some(PageText(t.page));
    PageRoundTrip(t.page);
    assert DecodeBrowseFields(parts) == t;
    JoinHead(Fields(t));
    BrowseGuards(data);
  }

  lemma DecodeRefresh(t: CallbackToken)
    requires t.ListRefreshRoot? && WellFormed(t)
    ensures Decode(Encode(t)) == t
  {
    var data := Encode(t);
    JoinHead(Fields(t));
    assert data[..17] == "list_refresh_root";
    NotUploadFamily(data);
    Differs(data, "close_panel", 0);
    Differs(data, "rnd:", 0);
    Differs(data, "browse:", 0);
  }

  lemma DecodeIgnore(data: string)
    requires data == "ignore"
    ensures Decode(data) == Ignore
  {
    NotUploadFamily(data);
    Differs(data, "close_panel", 0);
    Differs(data, "rnd:", 0);
    Differs(data, "browse:", 0);
    Differs(data, "list_refresh_root", 0);
  }

  /** Every well-formed token survives encoding and decoding: the payload a
      button carries is read back as exactly the request that built it. */
  lemma DecodeEncode(t: CallbackToken)
    requires WellFormed(t)
    ensures Decode(Encode(t)) == t
  {
    match t
    case SwitchChannel(_, _) => DecodeSwitch(t);
    case ModeSelect(_) => DecodeMode(t);
    case BatchUpload(_, _) => DecodeBatchUpload(t);
    case SingleUpload(_, _) => DecodeSingleUpload(t);
    case Cancel(_) => DecodeCancel(t);
    case ClosePanel(_) => DecodeClose(t);
    case RandomNext(_, _) => DecodeRandomToken(t);
    case RandomPick(_, _) => DecodeRandomToken(t);
    case RandomSet(_, _) => DecodeRandomToken(t);
    case Browse(_, _, _) => DecodeBrowse(t);
    case ListRefreshRoot(_) => DecodeRefresh(t);
    case Ignore => DecodeIgnore(Encode(t));
  }

  /** Distinct well-formed requests never share a payload. */
  lemma EncodeInjective(t: CallbackToken, u: CallbackToken)
    requires WellFormed(t) && WellFormed(u)
    requires Encode(t) == Encode(u)
    ensures t == u
  {
    DecodeEncode(t);
    DecodeEncode(u);
  }

  // ---------------------------------------------------------------------------
  // Payloads outside the vocabulary

  /** The tests `handleCallback` makes, in order; two of them compare the whole payload. */
  const Prefixes: seq<string> :=
    ["switch_chan:", "mode:", "batch_upload:", "upload:", "close_panel", "rnd:", "browse:", "list_refresh_root"]

  predicate Recognised(data: string) {
    || (exists i :: 0 <= i < |Prefixes| && StartsWith(data, Prefixes[i]))
    || data == "upload_cancel" || data == "batch_cancel"
  }

  /** A payload passing the test at position k is recognised. */
  lemma Matched(data: string, k: nat)
    requires k < |Prefixes| && StartsWith(data, Prefixes[k])
    ensures Recognised(data)
  {
  }

  predicate UnknownRandomAction(data: string) {
    StartsWith(data, "rnd:") && |Split(data, ':')| >= 2 && Split(data, ':')[1] !in ["next", "pick", "set"]
  }

  lemma RandomGuards(data: string)
    requires StartsWith(data, "rnd:")
    ensures !StartsWith(data, "switch_chan:") && !StartsWith(data, "mode:")
    ensures !StartsWith(data, "batch_upload:") && !StartsWith(data, "upload:")
    ensures data != "upload_cancel" && data != "batch_cancel"
    ensures !StartsWith(data, "close_panel")
  {
    assert data[0] == 'r';
    NotUploadFamily(data);
    Differs(data, "close_panel", 0);
  }

  /** A press is ignored exactly when its payload matches no test, or names an
      unknown action under `rnd:`; nothing else decodes to the no-op. */
  lemma DecodeIgnoredIff(data: string)
    ensures Decode(data) == Ignore <==> !Recognised(data) || UnknownRandomAction(data)
  {
    if StartsWith(data, "rnd:") {
      RandomGuards(data);
      PrefixHasSeparator(data, "rnd:");
      assert Recognised(data) by { assert StartsWith(data, Prefixes[5]); }
    } else if !Recognised(data) {
      assert forall i :: 0 <= i < |Prefixes| ==> !StartsWith(data, Prefixes[i]);
      assert !StartsWith(data, Prefixes[0]) && !StartsWith(data, Prefixes[1]);
      assert !StartsWith(data, Prefixes[2]) && !StartsWith(data, Prefixes[3]);
      assert !StartsWith(data, Prefixes[4]) && !StartsWith(data, Prefixes[6]);
      assert !StartsWith(data, Prefixes[7]);
    } else {
      if data != "upload_cancel" && data != "batch_cancel" {
        var i :| 0 <= i < |Prefixes| && StartsWith(data, Prefixes[i]);
        assert i != 5;
      }
    }
  }
}
