/**
 * The batch report: every listed file is uploaded, each result becomes a
 * numbered entry with its name escaped for Telegram's HTML mode, and a
 * closing line counts successes and failures.
 */
module Report {
  import opened Wrappers
  import opened Strings
  import opened Media
  import opened Batch
  import opened Upload

  // ---------------------------------------------------------------------------
  // HTML escaping

  /** Every occurrence of `c` replaced by `rep`, as `replace(/c/g, rep)`. */
  function ReplaceAll(s: string, c: char, rep: string): (r: string)
    ensures forall i :: 0 <= i < |r| ==> r[i] in rep || (r[i] in s && r[i] != c)
  {
    if s == [] then []
    else (if s[0] == c then rep else [s[0]]) + ReplaceAll(s[1..], c, rep)
  }

  /** The three passes of the report, ampersands first. */
  function Escape(s: string): (r: string)
    ensures '<' !in r && '>' !in r
  {
    ReplaceAll(ReplaceAll(ReplaceAll(s, '&', "&amp;"), '<', "&lt;"), '>', "&gt;")
  }

  /** The reference: each character escaped on its own. */
  function EscapeChar(c: char): string {
    if c == '&' then "&amp;" else if c == '<' then "&lt;" else if c == '>' then "&gt;" else [c]
  }

  function EscapeEach(s: string): string {
    if s == [] then [] else EscapeChar(s[0]) + EscapeEach(s[1..])
  }

  /** Reading an escaped name back: each entity stands for its character. */
  function Unescape(s: string): string
    decreases |s|
  {
    if s == [] then []
    else if s[0] != '&' then [s[0]] + Unescape(s[1..])
    else if StartsWith(s, "&amp;") then "&" + Unescape(s[5..])
    else if StartsWith(s, "&lt;") then "<" + Unescape(s[4..])
    else if StartsWith(s, "&gt;") then ">" + Unescape(s[4..])
    else [s[0]] + Unescape(s[1..])
  }

  lemma {:induction false} ReplaceAllAppend(a: string, b: string, c: char, rep: string)
    ensures ReplaceAll(a + b, c, rep) == ReplaceAll(a, c, rep) + ReplaceAll(b, c, rep)
  {
    if a == [] {
      assert a + b == b;
    } else {
      assert (a + b)[0] == a[0];
      assert (a + b)[1..] == a[1..] + b;
      ReplaceAllAppend(a[1..], b, c, rep);
    }
  }

  lemma {:induction false} ReplaceAbsent(s: string, c: char, rep: string)
    requires c !in s
    ensures ReplaceAll(s, c, rep) == s
  {
    if s != [] {
      ReplaceAbsent(s[1..], c, rep);
      assert s == [s[0]] + s[1..];
    }
  }

  lemma ReplaceOne(x: char, c: char, rep: string)
    ensures ReplaceAll([x], c, rep) == if x == c then rep else [x]
  {
    assert [x][1..] == [];
  }

  lemma EscapeOne(c: char)
    ensures Escape([c]) == EscapeChar(c)
  {
    ReplaceOne(c, '&', "&amp;");
    if c == '&' {
      ReplaceAbsent("&amp;", '<', "&lt;");
      ReplaceAbsent("&amp;", '>', "&gt;");
    } else {
      ReplaceOne(c, '<', "&lt;");
      if c == '<' {
        ReplaceAbsent("&lt;", '>', "&gt;");
      } else {
        ReplaceOne(c, '>', "&gt;");
      }
    }
  }

  /** The three whole-string passes escape each character independently:
      the later passes never touch the entities the first one wrote. */
  lemma {:induction false} EscapeIsEach(s: string)
    ensures Escape(s) == EscapeEach(s)
  {
    if s != [] {
      var x, rest := [s[0]], s[1..];
      assert s == x + rest;
      ReplaceAllAppend(x, rest, '&', "&amp;");
      var a, b := ReplaceAll(x, '&', "&amp;"), ReplaceAll(rest, '&', "&amp;");
      ReplaceAllAppend(a, b, '<', "&lt;");
      ReplaceAllAppend(ReplaceAll(a, '<', "&lt;"), ReplaceAll(b, '<', "&lt;"), '>', "&gt;");
      EscapeOne(s[0]);
      EscapeIsEach(rest);
    }
  }

  lemma UnescapeFirst(c: char, rest: string)
    ensures Unescape(EscapeChar(c) + rest) == [c] + Unescape(rest)
  {
    var e := EscapeChar(c) + rest;
    if c == '&' {
      assert e[..5] == "&amp;" && e[5..] == rest;
    } else if c == '<' {
      assert e[..4] == "&lt;" && e[4..] == rest && e[1] == 'l';
    } else if c == '>' {
      assert e[..4] == "&gt;" && e[4..] == rest && e[1] == 'g';
    } else {
      assert e[0] == c && e[1..] == rest;
    }
  }

  lemma {:induction false} UnescapeEach(s: string)
    ensures Unescape(EscapeEach(s)) == s
  {
    if s != [] {
      UnescapeEach(s[1..]);
      UnescapeFirst(s[0], EscapeEach(s[1..]));
      assert s == [s[0]] + s[1..];
    }
  }

  /** An escaped name reads back as the name. */
  lemma UnescapeEscape(s: string)
    ensures Unescape(Escape(s)) == s
  {
    EscapeIsEach(s);
    UnescapeEach(s);
  }

  // ---------------------------------------------------------------------------
  // Collecting the results

  /** One line of the report: the file's name, whether it went up, and the
      link to show. */
  datatype Entry = Entry(name: string, ok: bool, url: string)

  /** What `get` and `JSON.parse` give for a listed key: the record, or
      `null` when the key is gone. */
  function Stored(kv: Store, key: string): Option<MediaRef> {
    if key in kv && kv[key].Record? then Some(kv[key].media) else None
  }

  function EntryFor(m: MediaRef, origin: string, net: Net): (e: Entry)
    ensures e.name == m.fileName
    ensures e.ok <==> ProcessUpload(m, origin, net).Uploaded?
  {
    var r := ProcessUpload(m, origin, net);
    Entry(m.fileName, r.Uploaded?, if r.Uploaded? then r.accessUrl else "")
  }

  /** The report's entries as the handler computes them: the record is read
      outside the `try`, so a key whose record is gone leaves `null`, the
      name lookup throws in the `catch` as well, and `Promise.all` rejects:
      no report at all. */
  function AggregateAsWritten(kv: Store, keys: seq<string>, origin: string, nets: seq<Net>)
    : (r: Option<seq<Entry>>)
    requires |nets| == |keys|
    ensures r.None? <==> exists i :: 0 <= i < |keys| && Stored(kv, keys[i]).None?
    ensures r.Some? ==> |r.value| == |keys|
    ensures r.Some? ==> forall i :: 0 <= i < |keys| ==>
              r.value[i] == EntryFor(Stored(kv, keys[i]).value, origin, nets[i])
  {
    if keys == [] then Some([])
    else
      var rest := AggregateAsWritten(kv, keys[1..], origin, nets[1..]);
      match Stored(kv, keys[0])
      case None => None
      case Some(m) =>
        if rest.None? then
          assert exists i :: 0 <= i < |keys| - 1 && Stored(kv, keys[1..][i]).None?;
          None
        else
          assert forall i :: 1 <= i < |keys| ==> keys[1..][i - 1] == keys[i] && nets[1..][i - 1] == nets[i];
          Some([EntryFor(m, origin, nets[0])] + rest.value)
  }

  /** The evidently intended report: a key whose record is gone is listed as
      a failure, named by its key, and every other entry is as before. */
  function Aggregate(kv: Store, keys: seq<string>, origin: string, nets: seq<Net>): (r: seq<Entry>)
    requires |nets| == |keys|
    ensures |r| == |keys|
    ensures forall i :: 0 <= i < |keys| ==>
              r[i] == match Stored(kv, keys[i])
                      case Some(m) => EntryFor(m, origin, nets[i])
                      case None => Entry(keys[i], false, "")
  {
    if keys == [] then []
    else
      var e := match Stored(kv, keys[0])
               case Some(m) => EntryFor(m, origin, nets[0])
               case None => Entry(keys[0], false, "");
      [e] + Aggregate(kv, keys[1..], origin, nets[1..])
  }

  /** Where the handler does produce a report, the corrected one is the same. */
  lemma AggregateAgrees(kv: Store, keys: seq<string>, origin: string, nets: seq<Net>)
    requires |nets| == |keys|
    requires AggregateAsWritten(kv, keys, origin, nets).Some?
    ensures Aggregate(kv, keys, origin, nets) == AggregateAsWritten(kv, keys, origin, nets).value
  {
    var r := Aggregate(kv, keys, origin, nets);
    var w := AggregateAsWritten(kv, keys, origin, nets).value;
    forall i | 0 <= i < |keys| ensures r[i] == w[i] {
      assert Stored(kv, keys[i]).Some?;
    }
  }

  /** A listed key that expired before it was read: the handler gives no
      report, the corrected version reports one failure. */
  lemma MissingRecordAborts(kv: Store, key: string, origin: string, net: Net)
    requires key !in kv
    ensures AggregateAsWritten(kv, [key], origin, [net]).None?
    ensures Aggregate(kv, [key], origin, [net]) == [Entry(key, false, "")]
  {
    assert Stored(kv, [key][0]).None?;
  }

  // ---------------------------------------------------------------------------
  // Counting and rendering

  /** Whether each entry went up, in report order. */
  function OkFlags(entries: seq<Entry>): seq<bool> {
    seq(|entries|, i requires 0 <= i < |entries| => entries[i].ok)
  }

  lemma OkFlagsCons(entries: seq<Entry>)
    requires entries != []
    ensures multiset(OkFlags(entries)) == multiset{entries[0].ok} + multiset(OkFlags(entries[1..]))
  {
    assert OkFlags(entries) == [entries[0].ok] + OkFlags(entries[1..]);
  }

  /** The counters of the report: the number of entries that went up and the
      number that did not. */
  function Tally(entries: seq<Entry>): (t: (nat, nat))
    ensures t.0 == multiset(OkFlags(entries))[true]
    ensures t.1 == multiset(OkFlags(entries))[false]
    ensures t.0 + t.1 == |entries|
    ensures t.0 == 0 <==> forall i :: 0 <= i < |entries| ==> !entries[i].ok
    ensures t.1 == 0 <==> forall i :: 0 <= i < |entries| ==> entries[i].ok
  {
    if entries == [] then (0, 0)
    else
      var t := Tally(entries[1..]);
      OkFlagsCons(entries);
      assert forall i :: 1 <= i < |entries| ==> entries[i] == entries[1..][i - 1];
      if entries[0].ok then (t.0 + 1, t.1) else (t.0, t.1 + 1)
  }

  /** One entry of the report, numbered `n`. */
  function Item(n: nat, e: Entry): string {
    "<b>" + ShowNat(n) + ". " + Escape(e.name) + "</b>"
    + (if e.ok then "\n<a href=\"" + e.url + "\">🔗 点击预览或复制</a>\n\n" else " ❌ 失败\n\n")
  }

  /** The entries from number `first` on, each drawn by `Item`. */
  function Items(entries: seq<Entry>, first: nat): string {
    if entries == [] then [] else Item(first, entries[0]) + Items(entries[1..], first + 1)
  }

  function Concat(parts: seq<string>): string {
    if parts == [] then [] else parts[0] + Concat(parts[1..])
  }

  /** Each entry paired with the number it is shown with, from `first` on. */
  function Numbered(entries: seq<Entry>, first: nat): seq<(nat, Entry)> {
    seq(|entries|, i requires 0 <= i < |entries| => (first + i, entries[i]))
  }

  /** The drawing of each numbered entry, in order. */
  function Drawn(ps: seq<(nat, Entry)>): (r: seq<string>)
    ensures |r| == |ps|
  {
    if ps == [] then [] else [Item(ps[0].0, ps[0].1)] + Drawn(ps[1..])
  }

  /** Drawing `i` is the entry at `i` with its number. */
  lemma {:induction false} DrawnAt(ps: seq<(nat, Entry)>, i: nat)
    requires i < |ps|
    ensures Drawn(ps)[i] == Item(ps[i].0, ps[i].1)
  {
    if i > 0 {
      DrawnAt(ps[1..], i - 1);
      assert ps[1..][i - 1] == ps[i];
    }
  }

  /** The text the loop accumulates is the drawings of the entries, entry `i`
      numbered `first + i`. */
  lemma {:induction false} ItemsNumbered(entries: seq<Entry>, first: nat)
    ensures Items(entries, first) == Concat(Drawn(Numbered(entries, first)))
  {
    if entries != [] {
      ItemsNumbered(entries[1..], first + 1);
      var ps := Numbered(entries, first);
      assert ps[0] == (first, entries[0]);
      assert ps[1..] == Numbered(entries[1..], first + 1);
      var d := Drawn(ps);
      assert d == [Item(first, entries[0])] + Drawn(ps[1..]);
      assert d[1..] == Drawn(Numbered(entries[1..], first + 1));
    }
  }

  function Header(dir: string, channel: string): string {
    "✅ <b>批量上传完成</b>\n📂 <b>目录:</b> " + dir + "\n📡 <b>渠道:</b> " + channel + "\n━━━━━━━━━━━━━━━\n"
  }

  /** The closing line: the number of entries that went up and that did not. */
  function CountLine(ok: nat, failed: nat): string {
    "📊 成功: " + ShowNat(ok) + " | 失败: " + ShowNat(failed)
  }

  function Summary(entries: seq<Entry>): string {
    var t := Tally(entries);
    CountLine(t.0, t.1)
  }

  /** The finished report text: the header, entry `i` numbered `i + 1`, and
      the number of entries that went up and that did not. */
  function ReportText(dir: string, channel: string, entries: seq<Entry>): (r: string)
    ensures r == Header(dir, channel)
                 + Concat(Drawn(Numbered(entries, 1)))
                 + CountLine(multiset(OkFlags(entries))[true], multiset(OkFlags(entries))[false])
  {
    ItemsNumbered(entries, 1);
    assert Summary(entries) == CountLine(multiset(OkFlags(entries))[true], multiset(OkFlags(entries))[false]);
    Header(dir, channel) + Items(entries, 1) + Summary(entries)
  }
}
