/**
 * One upload to the image host: where the file is fetched from, how the
 * channel value of a button becomes the host's `uploadChannel` and
 * `channelName` parameters, and how the host's answer becomes the link
 * shown to the user.
 */
module Upload {
  import opened Wrappers
  import opened Strings
  import opened Media
  import Config

  // ---------------------------------------------------------------------------
  // Channel value to host parameters

  const DefaultProvider := "telegram"

  /** The host's storage provider and, for providers with several stores,
      the store's name. */
  datatype Target = Target(provider: string, channelName: Option<string>)

  /** A channel value is `provider` or `provider|store`; an absent or empty
      value means the default provider. Fields after a second '|' are
      dropped, and an empty store name is not sent. */
  function SplitChannel(channel: Option<string>): (t: Target)
    ensures var c := OrElse(channel, DefaultProvider);
            && ('|' !in c ==> t == Target(c, None))
            && ('|' in c ==> '|' !in t.provider && StartsWith(c, t.provider + "|"))
    ensures t.channelName.Some? ==> t.channelName.value != "" && '|' !in t.channelName.value
  {
    var c := OrElse(channel, DefaultProvider);
    if '|' in c then
      var parts := Split(c, '|');
      assert StartsWith(c, parts[0] + "|") by {
        SplitAfterFirst(c, '|');
      }
      Target(parts[0], if parts[1] != "" then Some(parts[1]) else None)
    else Target(c, None)
  }

  lemma SplitAfterFirst(s: string, c: char)
    requires c in s
    ensures var parts := Split(s, c); |parts| >= 2 && StartsWith(s, parts[0] + [c])
  {
    JoinSplit(s, c);
    var parts := Split(s, c);
    assert Join(parts, c) == parts[0] + [c] + Join(parts[1..], c);
  }

  lemma DefaultTarget()
    ensures SplitChannel(None) == Target(DefaultProvider, None)
    ensures SplitChannel(Some("")) == Target(DefaultProvider, None)
  {
    assert DefaultProvider[0] == 't' && '|' !in DefaultProvider;
  }

  /** `provider|store|more` names `provider` and `store`; `more` is dropped. */
  lemma SplitChannelPair(provider: string, store: string, more: string)
    requires '|' !in provider && '|' !in store
    requires more == "" || more[0] == '|'
    ensures SplitChannel(Some(provider + "|" + store + more))
            == Target(provider, if store == "" then None else Some(store))
  {
    var c := provider + "|" + store + more;
    var rest := store + more;
    assert c == provider + ['|'] + rest;
    assert c != "" && OrElse(Some(c), DefaultProvider) == c;
    assert '|' in c by { assert c[|provider|] == '|'; }
    SplitCons(provider, '|', rest);
    assert Split(rest, '|')[0] == store by {
      if more == "" {
        assert rest == store;
        SplitWhole(store, '|');
      } else {
        assert rest == store + ['|'] + more[1..];
        SplitCons(store, '|', more[1..]);
      }
    }
  }

  /** A channel item written `name:provider:store` in the channel list reaches
      the host as provider `provider` and store `store`; one written without a
      store reaches it as the provider alone. An empty provider with a store
      (`name::store`) stays empty, while an empty provider without one
      (`name:`) becomes the default provider. */
  lemma ChannelReachesHost(spec: Config.ChannelSpec)
    requires Config.WellWritten(spec)
    requires '|' !in spec.name
    requires spec.provider.Some? ==> '|' !in spec.provider.value
    requires spec.sub.Some? ==> '|' !in spec.sub.value
    ensures var provider := spec.provider.GetOr(spec.name);
            var store := if spec.sub.Some? && spec.sub.value != "" then spec.sub else None;
            SplitChannel(Some(Config.ParseChannel(Config.Format(spec)).value))
            == if provider == "" && store.None? then Target(DefaultProvider, None) else Target(provider, store)
  {
    Config.ParseWrittenChannel(spec);
    var provider := spec.provider.GetOr(spec.name);
    var v := Config.ParseChannel(Config.Format(spec)).value;
    if spec.sub.Some? && spec.sub.value != "" {
      assert v == provider + "|" + spec.sub.value + "";
      SplitChannelPair(provider, spec.sub.value, "");
    } else {
      assert v == provider;
      if provider == "" {
        DefaultTarget();
      }
    }
  }

  /** The query parameters appended to the upload URL, in order. */
  function UploadParams(token: string, dir: string, t: Target): seq<(string, string)> {
    Optional("authCode", token)
    + Optional("uploadFolder", dir)
    + [("uploadChannel", t.provider)]
    + Optional("channelName", t.channelName.GetOr(""))
  }

  /** A parameter appended only when its value is truthy. */
  function Optional(name: string, value: string): seq<(string, string)> {
    if value != "" then [(name, value)] else []
  }

  /** Each parameter the host reads carries the value it was given: the token
      and folder only when set, the provider always, the store name only
      when there is one. */
  lemma ParamsFound(token: string, dir: string, t: Target)
    requires t.channelName.Some? ==> t.channelName.value != ""
    ensures var q := UploadParams(token, dir, t);
            && Lookup(q, "authCode") == (if token != "" then Some(token) else None)
            && Lookup(q, "uploadFolder") == (if dir != "" then Some(dir) else None)
            && Lookup(q, "uploadChannel") == Some(t.provider)
            && Lookup(q, "channelName") == t.channelName
  {
    var a := Optional("authCode", token);
    var f := Optional("uploadFolder", dir);
    var c := [("uploadChannel", t.provider)];
    var n := Optional("channelName", t.channelName.GetOr(""));
    assert UploadParams(token, dir, t) == a + (f + (c + n));
    Through(a, f, c, n, "authCode");
    Through(a, f, c, n, "uploadFolder");
    Through(a, f, c, n, "uploadChannel");
    Through(a, f, c, n, "channelName");
  }

  lemma Through(a: seq<(string, string)>, f: seq<(string, string)>, c: seq<(string, string)>,
                n: seq<(string, string)>, name: string)
    ensures Lookup(a + (f + (c + n)), name)
            == if Lookup(a, name).Some? then Lookup(a, name)
               else if Lookup(f, name).Some? then Lookup(f, name)
               else if Lookup(c, name).Some? then Lookup(c, name)
               else Lookup(n, name)
  {
    LookupAppend(a, f + (c + n), name);
    LookupAppend(f, c + n, name);
    LookupAppend(c, n, name);
  }

  lemma {:induction false} LookupAppend(a: seq<(string, string)>, b: seq<(string, string)>, name: string)
    ensures Lookup(a + b, name) == if Lookup(a, name).Some? then Lookup(a, name) else Lookup(b, name)
  {
    if a == [] {
      assert a + b == b;
    } else {
      assert (a + b)[0] == a[0];
      assert (a + b)[1..] == a[1..] + b;
      LookupAppend(a[1..], b, name);
    }
  }

  /** The first value given for a parameter name. */
  function Lookup(q: seq<(string, string)>, name: string): Option<string> {
    if q == [] then None
    else if q[0].0 == name then Some(q[0].1)
    else Lookup(q[1..], name)
  }

  // ---------------------------------------------------------------------------
  // The host's answer

  /** The host's JSON reply: a list of entries, each with an optional `src`,
      or anything else. */
  datatype HostReply = Entries(srcs: seq<Option<string>>) | Unexpected

  datatype Failure = LinkFailed | DownloadFailed | HostRejected | NetworkError

  datatype Outcome = Uploaded(originUrl: string, accessUrl: string) | Failed(reason: Failure)

  /** The source link's path: one leading '/' and then one leading `file/`
      removed. */
  function CleanPath(src: string): (p: string)
    ensures src == p || src == "/" + p || src == "file/" + p || src == "/file/" + p
  {
    var s := if StartsWith(src, "/") then src[1..] else src;
    if StartsWith(s, "file/") then s[5..] else s
  }

  function OriginUrl(origin: string, src: string): string {
    origin + "/file/" + CleanPath(src)
  }

  /** Whichever of the four spellings the host returns for a stored file, the
      link points at the same `/file/` path. */
  lemma OriginUrlForms(origin: string, p: string)
    requires !StartsWith(p, "/") && !StartsWith(p, "file/")
    ensures OriginUrl(origin, p) == origin + "/file/" + p
    ensures OriginUrl(origin, "/" + p) == origin + "/file/" + p
    ensures OriginUrl(origin, "file/" + p) == origin + "/file/" + p
    ensures OriginUrl(origin, "/file/" + p) == origin + "/file/" + p
  {
    assert ("/" + p)[1..] == p;
    assert ("file/" + p)[5..] == p;
    assert ("/file/" + p)[1..] == "file/" + p;
    assert StartsWith("/file/" + p, "/");
    assert StartsWith("file/" + p, "file/");
    assert ("file/" + p)[0] == 'f';
  }

  /** A reply counts as a success when it is a non-empty list whose first
      entry has a non-empty `src`. Without an access host configured the
      access link is the origin link. */
  function Interpret(origin: string, reply: HostReply): (r: Outcome)
    ensures r.Uploaded? <==> reply.Entries? && |reply.srcs| > 0 && OrElse(reply.srcs[0], "") != ""
    ensures r.Uploaded? ==> r.originUrl == OriginUrl(origin, reply.srcs[0].value) && r.accessUrl == r.originUrl
    ensures r.Failed? ==> r.reason == HostRejected
  {
    if reply.Entries? && |reply.srcs| > 0 && reply.srcs[0].Some? && reply.srcs[0].value != "" then
      var url := OriginUrl(origin, reply.srcs[0].value);
      Uploaded(url, url)
    else Failed(HostRejected)
  }

  /** What the network answers along the way: whether a request threw, and
      the `ok` flags of `getFile` and of the download. */
  datatype Net = Net(threw: bool, linkOk: bool, downloadOk: bool, reply: HostReply)

  /** `processUploadInternal`: every failure, thrown or reported, ends as a
      failed outcome; it never throws itself. */
  function ProcessUpload(m: MediaRef, origin: string, net: Net): (r: Outcome)
    ensures r.Uploaded? <==> !net.threw && (m.isUrl || net.linkOk) && net.downloadOk
                             && Interpret(origin, net.reply).Uploaded?
    ensures r.Uploaded? ==> r == Interpret(origin, net.reply)
    ensures r.Failed? && !m.isUrl && !net.threw && !net.linkOk ==> r.reason == LinkFailed
  {
    if net.threw then Failed(NetworkError)
    else if !m.isUrl && !net.linkOk then Failed(LinkFailed)
    else if !net.downloadOk then Failed(DownloadFailed)
    else Interpret(origin, net.reply)
  }

  /** A successful upload of any file links to the stored path under
      `/file/`, whichever of the four spellings the host used for it. */
  lemma UploadedLink(m: MediaRef, origin: string, net: Net, p: string, src: string)
    requires !StartsWith(p, "/") && !StartsWith(p, "file/")
    requires src == p || src == "/" + p || src == "file/" + p || src == "/file/" + p
    requires src != ""
    requires !net.threw && (m.isUrl || net.linkOk) && net.downloadOk
    requires net.reply.Entries? && |net.reply.srcs| > 0 && net.reply.srcs[0] == Some(src)
    ensures ProcessUpload(m, origin, net) == Uploaded(origin + "/file/" + p, origin + "/file/" + p)
  {
    OriginUrlForms(origin, p);
  }

  /** The steps run in order and the first failure ends the attempt: what the
      network would have answered afterwards does not matter, and a link
      never consults `getFile`. */
  lemma LaterAnswersIgnored(m: MediaRef, origin: string, n1: Net, n2: Net)
    requires n1.threw == n2.threw
    requires || n1.threw
             || (!m.isUrl && !n1.linkOk && !n2.linkOk)
             || ((m.isUrl || (n1.linkOk && n2.linkOk)) && !n1.downloadOk && !n2.downloadOk)
    ensures ProcessUpload(m, origin, n1) == ProcessUpload(m, origin, n2)
    ensures m.isUrl ==> ProcessUpload(m, origin, n1) == ProcessUpload(m, origin, n1.(linkOk := !n1.linkOk))
  {
  }
}
