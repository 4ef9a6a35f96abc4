/**
 * The inline keyboards the bot renders: pure projections of the channel
 * list, the directory list and the selection, laid out in rows. Every
 * button's payload is a callback token; the lemmas here show that each
 * payload decodes to the request its label promises.
 */
module Keyboard {
  import opened Wrappers
  import opened Strings
  import opened Config
  import opened Token

  datatype Button = Button(text: string, data: string)

  /** An inline keyboard, row by row. */
  type Markup = seq<seq<Button>>

  function Flatten<T>(rows: seq<seq<T>>): (xs: seq<T>)
  {
    if |rows| == 0 then [] else rows[0] + Flatten(rows[1..])
  }

  lemma {:induction false} FlattenAppend<T>(a: seq<seq<T>>, b: seq<seq<T>>)
    ensures Flatten(a + b) == Flatten(a) + Flatten(b)
    decreases |a|
  {
    if |a| > 0 {
      assert (a + b)[1..] == a[1..] + b;
      FlattenAppend(a[1..], b);
    } else {
      assert a + b == b;
    }
  }

  /** The rows a left-to-right fill produces: each full at `n` buttons except
      possibly the last, none empty, nothing lost, reordered or repeated. */
  function Chunk<T>(xs: seq<T>, n: nat): (rows: seq<seq<T>>)
    requires n > 0
    ensures Flatten(rows) == xs
    ensures forall r :: 0 <= r < |rows| ==> 0 < |rows[r]| <= n
    ensures forall r :: 0 <= r < |rows| - 1 ==> |rows[r]| == n
    ensures |rows| == RowCount(|xs|, n)
    decreases |xs|
  {
    if |xs| == 0 then []
    else if |xs| <= n then
      assert Flatten([xs]) == xs + Flatten([xs][1..]);
      [xs]
    else
      var rest := Chunk(xs[n..], n);
      ChunkStep(xs, rest, n);
      [xs[..n]] + rest
  }

  lemma ChunkStep<T>(xs: seq<T>, rest: seq<seq<T>>, n: nat)
    requires 0 < n < |xs| && Flatten(rest) == xs[n..]
    ensures Flatten([xs[..n]] + rest) == xs
  {
    assert ([xs[..n]] + rest)[1..] == rest;
    assert xs[..n] + xs[n..] == xs;
  }

  /** The number of rows of width `n` that `m` buttons fill. */
  function RowCount(m: nat, n: nat): nat
    requires n > 0
    decreases m
  {
    if m == 0 then 0 else if m <= n then 1 else 1 + RowCount(m - n, n)
  }

  /** For the widths the bot uses, the row count is the rounded-up quotient. */
  lemma {:induction false} RowCountCeil(m: nat, n: nat)
    requires n == 2 || n == 3
    ensures RowCount(m, n) == (m + n - 1) / n
    decreases m
  {
    if m > n {
      RowCountCeil(m - n, n);
    }
  }

  const Checked := "✅"
  const Unchecked := "⬜"

  predicate IsChecked(b: Button) {
    StartsWith(b.text, Checked)
  }

  // ---------------------------------------------------------------------------
  // The unified upload panel

  function ChannelButton(ch: Channel, selected: string, batch: bool): Button {
    Button((if ch.value == selected then Checked else Unchecked) + " " + ch.name,
           "switch_chan:" + ch.value + ":" + BatchWord(batch))
  }

  /** One radio button per channel, in list order; exactly the buttons whose
      value is the selected one carry the check mark. */
  function ChannelButtons(chs: seq<Channel>, selected: string, batch: bool): (bs: seq<Button>)
    ensures |bs| == |chs|
    ensures forall i :: 0 <= i < |bs| ==> (IsChecked(bs[i]) <==> chs[i].value == selected)
    ensures forall i :: 0 <= i < |bs| ==> EndsWithName(bs[i], chs[i].name)
  {
    var bs := seq(|chs|, i requires 0 <= i < |chs| => ChannelButton(chs[i], selected, batch));
    assert forall i :: 0 <= i < |bs| ==> (IsChecked(bs[i]) <==> chs[i].value == selected) by {
      forall i | 0 <= i < |bs| ensures IsChecked(bs[i]) <==> chs[i].value == selected {
        assert bs[i].text[0] == (if chs[i].value == selected then Checked else Unchecked)[0];
      }
    }
    bs
  }

  predicate EndsWithName(b: Button, name: string) {
    |name| < |b.text| && b.text[|b.text| - |name|..] == name && b.text[|b.text| - |name| - 1] == ' '
  }

  function UploadAction(batch: bool): string {
    if batch then "batch_upload" else "upload"
  }

  function DirButton(dir: string, selected: string, batch: bool): Button {
    Button(dir, UploadAction(batch) + ":" + dir + ":" + selected)
  }

  const DefaultDir := "default"

  /** The fixed `default` directory, ahead of the configured ones. */
  function DefaultDirButton(selected: string, batch: bool): Button {
    Button("📂 默认 (" + DefaultDir + ")", DirButton(DefaultDir, selected, batch).data)
  }

  function DirButtons(dirs: seq<string>, selected: string, batch: bool): (bs: seq<Button>)
    ensures |bs| == |dirs|
    ensures forall j :: 0 <= j < |bs| ==> bs[j].text == dirs[j]
  {
    seq(|dirs|, j requires 0 <= j < |dirs| => DirButton(dirs[j], selected, batch))
  }

  function CancelRow(batch: bool): seq<Button> {
    [Button("❌ 取消操作", if batch then "batch_cancel" else "upload_cancel"),
     Button("🗑 关闭面板", "close_panel")]
  }

  /** `buildUnifiedKeyboard`: the channel rows (at most three buttons each), the
      lone `default` directory row, the directory rows (at most two each), then
      the cancel/close row. */
  function UnifiedKeyboard(chs: seq<Channel>, dirs: seq<string>, selected: string, batch: bool): (kb: Markup)
    ensures var c := (|chs| + 2) / 3;
            var d := (|dirs| + 1) / 2;
            && |kb| == c + d + 2
            && Flatten(kb[..c]) == ChannelButtons(chs, selected, batch)
            && (forall r :: 0 <= r < c ==> 0 < |kb[r]| <= 3)
            && kb[c] == [DefaultDirButton(selected, batch)]
            && Flatten(kb[c + 1..c + 1 + d]) == DirButtons(dirs, selected, batch)
            && (forall r :: c < r <= c + d ==> 0 < |kb[r]| <= 2)
            && kb[|kb| - 1] == CancelRow(batch)
  {
    var channelRows := Chunk(ChannelButtons(chs, selected, batch), 3);
    var dirRows := Chunk(DirButtons(dirs, selected, batch), 2);
    RowCountCeil(|chs|, 3);
    RowCountCeil(|dirs|, 2);
    var kb := channelRows + [[DefaultDirButton(selected, batch)]] + dirRows + [CancelRow(batch)];
    assert kb[..|channelRows|] == channelRows;
    assert kb[|channelRows| + 1..|channelRows| + 1 + |dirRows|] == dirRows;
    kb
  }

  // ---------------------------------------------------------------------------
  // The directory browser and the random-picture panels

  /** `buildDirKeyboard`: a browse button per directory, two to a row, then a
      close button that also names the command message. */
  function DirBrowserKeyboard(dirs: seq<string>, command: string): (kb: Markup)
    ensures |kb| == (|dirs| + 1) / 2 + 1
    ensures |Flatten(kb[..|kb| - 1])| == |dirs|
    ensures forall j :: 0 <= j < |dirs| ==>
              Flatten(kb[..|kb| - 1])[j].data == "browse:" + dirs[j] + ":0:" + command
    ensures forall r :: 0 <= r < |kb| - 1 ==> 0 < |kb[r]| <= 2
    ensures kb[|kb| - 1] == [Button("❌ 关闭面板", "close_panel:" + command)]
  {
    var bs := seq(|dirs|, j requires 0 <= j < |dirs| => Button("📂 " + dirs[j], "browse:" + dirs[j] + ":0:" + command));
    RowCountCeil(|dirs|, 2);
    var kb := Chunk(bs, 2) + [[Button("❌ 关闭面板", "close_panel:" + command)]];
    assert kb[..|kb| - 1] == Chunk(bs, 2);
    kb
  }

  function RandomDirButton(dir: string, current: string, command: string): Button {
    Button((if dir == current then "✅ " else "") + dir, "rnd:set:" + dir + ":" + command)
  }

  /** `buildRandomDirKeyboard`: the `all` choice, the directories two to a row
      (the current one checked), and a back button that keeps the current scope. */
  function RandomDirKeyboard(dirs: seq<string>, current: string, command: string): (kb: Markup)
    ensures |kb| == (|dirs| + 1) / 2 + 2
    ensures kb[0] == [Button((if current == "all" then "✅ " else "") + "🌟 所有目录 (All)", "rnd:set:all:" + command)]
    ensures var middle := Flatten(kb[1..|kb| - 1]);
            |middle| == |dirs|
            && forall j :: 0 <= j < |dirs| ==>
                 middle[j].data == "rnd:set:" + dirs[j] + ":" + command
                 && middle[j].text == (if dirs[j] == current then "✅ " else "") + dirs[j]
    ensures forall r :: 0 < r < |kb| - 1 ==> 0 < |kb[r]| <= 2
    ensures kb[|kb| - 1] == [Button("🔙 返回", "rnd:next:" + current + ":" + command)]
  {
    var bs := seq(|dirs|, j requires 0 <= j < |dirs| => RandomDirButton(dirs[j], current, command));
    var top := [Button((if current == "all" then "✅ " else "") + "🌟 所有目录 (All)", "rnd:set:all:" + command)];
    RowCountCeil(|dirs|, 2);
    var kb := [top] + Chunk(bs, 2) + [[Button("🔙 返回", "rnd:next:" + current + ":" + command)]];
    assert kb[1..|kb| - 1] == Chunk(bs, 2);
    kb
  }

  /** The random-picture panel under each picture: change scope, next
      picture, close. */
  function RandomPanelKeyboard(dir: string, command: string): (kb: Markup)
    ensures |kb| == 2 && |kb[0]| == 2 && |kb[1]| == 1
  {
    [[Button("📂 切换目录", "rnd:pick:" + dir + ":" + command),
      Button("🔄 下一张", "rnd:next:" + dir + ":" + command)],
     [Button("🗑 关闭面板", "close_panel:" + command)]]
  }

  /** The first question a media group gets: one upload for the whole group,
      one per file, or cancel. */
  function ModeKeyboard(): (kb: Markup)
    ensures |kb| == 3 && forall r :: 0 <= r < 3 ==> |kb[r]| == 1
  {
    [[Button("📦 统一上传 (推荐)", "mode:unify")],
     [Button("📑 分别上传 (繁琐)", "mode:separate")],
     [Button("❌ 取消", "batch_cancel")]]
  }

  // ---------------------------------------------------------------------------
  // Paging of a directory listing

  const PageSize: nat := 6

  /** `Math.ceil(totalCount / pageSize)`. */
  function PageCount(total: nat): nat {
    (total + PageSize - 1) / PageSize
  }

  /** The display number of the `index`-th file on `page`. */
  function ItemNumber(page: int, index: nat): int {
    page * PageSize + index + 1
  }

  function BrowseData(dir: string, page: int, command: string): string {
    "browse:" + dir + ":" + ShowInt(page) + ":" + command
  }

  /** The previous/next buttons. A page that did not parse (`NaN`) compares
      false both ways, so it gets neither. */
  function NavRow(dir: string, page: Option<int>, total: nat, command: string): (nav: seq<Button>)
    ensures page.None? ==> nav == []
    ensures |nav| <= 2
  {
    var prev := if page.Some? && page.value > 0
                then [Button("⬅️ 上一页", BrowseData(dir, page.value - 1, command))] else [];
    var next := if page.Some? && page.value < PageCount(total) - 1
                then [Button("下一页 ➡️", BrowseData(dir, page.value + 1, command))] else [];
    prev + next
  }

  /** The keyboard under a listing page: the navigation row when it is not
      empty, back to the directory list, close. */
  function PageKeyboard(dir: string, page: Option<int>, total: nat, command: string): (kb: Markup)
    ensures |kb| == (if NavRow(dir, page, total, command) == [] then 2 else 3)
    ensures NavRow(dir, page, total, command) != [] ==> kb[0] == NavRow(dir, page, total, command)
    ensures kb[|kb| - 2] == [Button("🔙 返回目录列表", "list_refresh_root:" + command)]
    ensures kb[|kb| - 1] == [Button("❌ 关闭面板", "close_panel:" + command)]
  {
    var nav := NavRow(dir, page, total, command);
    (if nav == [] then [] else [nav])
      + [[Button("🔙 返回目录列表", "list_refresh_root:" + command)]]
      + [[Button("❌ 关闭面板", "close_panel:" + command)]]
  }

  /** `PageCount` is the fewest pages of six that hold every file. */
  lemma PageCountFits(total: nat)
    ensures PageCount(total) * PageSize >= total
    ensures total > 0 ==> (PageCount(total) - 1) * PageSize < total
    ensures total == 0 <==> PageCount(total) == 0
  {
  }

  /** File number `n` appears on some page the page count admits. */
  predicate Numbered(total: nat, n: int) {
    exists p, i :: 0 <= p < PageCount(total) && 0 <= i < PageSize && ItemNumber(p, i) == n
  }

  /** Numbers on different pages never collide, and every file from 1 to the
      total gets a number on some page that the page count admits. */
  lemma ItemNumbers(total: nat)
    ensures forall p, i, q, j :: 0 <= i < PageSize && 0 <= j < PageSize && ItemNumber(p, i) == ItemNumber(q, j)
              ==> p == q && i == j
    ensures forall n :: 1 <= n <= total ==> Numbered(total, n)
  {
    forall n | 1 <= n <= total
      ensures Numbered(total, n)
    {
      var p, i := (n - 1) / PageSize, (n - 1) % PageSize;
      assert ItemNumber(p, i) == n;
    }
  }

  // ---------------------------------------------------------------------------
  // What the buttons mean

  lemma Join2(a: string, b: string)
    ensures Join([a, b], ':') == a + ":" + b
  {
    assert [a, b][1..] == [b];
  }

  lemma Join3(a: string, b: string, c: string)
    ensures Join([a, b, c], ':') == a + ":" + b + ":" + c
  {
    assert [a, b, c][1..] == [b, c];
    Join2(b, c);
  }

  lemma Join4(a: string, b: string, c: string, d: string)
    ensures Join([a, b, c, d], ':') == a + ":" + b + ":" + c + ":" + d
  {
    assert [a, b, c, d][1..] == [b, c, d];
    Join3(b, c, d);
  }

  function UploadToken(batch: bool, dir: string, channel: Option<string>): CallbackToken {
    if batch then BatchUpload(dir, channel) else SingleUpload(dir, channel)
  }

  lemma ChannelPayload(ch: Channel, selected: string, batch: bool)
    requires Free(ch.value)
    ensures Decode(ChannelButton(ch, selected, batch).data) == SwitchChannel(ch.value, batch)
  {
    Join3("switch_chan", ch.value, BatchWord(batch));
    DecodeEncode(SwitchChannel(ch.value, batch));
  }

  lemma UploadEncoding(dir: string, selected: string, batch: bool)
    ensures Encode(UploadToken(batch, dir, Some(selected))) == UploadAction(batch) + ":" + dir + ":" + selected
  {
    assert Token.Fields(UploadToken(batch, dir, Some(selected))) == [UploadAction(batch), dir, selected];
    Join3(UploadAction(batch), dir, selected);
  }

  lemma UploadPayload(dir: string, selected: string, batch: bool)
    requires Free(dir) && Free(selected)
    ensures Decode(UploadAction(batch) + ":" + dir + ":" + selected) == UploadToken(batch, dir, Some(selected))
  {
    UploadEncoding(dir, selected, batch);
    DecodeEncode(UploadToken(batch, dir, Some(selected)));
  }

  /** The footer of the unified panel: cancel this kind of upload, or just
      close (a bare close button carries no command id). */
  lemma CancelRowPayloads(batch: bool)
    ensures forall k :: 0 <= k < 2 ==> Decode(CancelRow(batch)[k].data) == [Cancel(batch), ClosePanel(None)][k]
  {
    forall k | 0 <= k < 2 ensures Decode(CancelRow(batch)[k].data) == [Cancel(batch), ClosePanel(None)][k] {
      if k == 0 {
        DecodeEncode(Cancel(batch));
      } else {
        DecodeEncode(ClosePanel(None));
      }
    }
  }

  /** Each channel button of the unified panel switches to its own channel in
      the panel's mode, provided its value holds no ':'. */
  lemma ChannelPayloads(chs: seq<Channel>, selected: string, batch: bool)
    requires forall i :: 0 <= i < |chs| ==> Free(chs[i].value)
    ensures var bs := ChannelButtons(chs, selected, batch);
            forall i :: 0 <= i < |bs| ==> Decode(bs[i].data) == SwitchChannel(chs[i].value, batch)
  {
    var cs := ChannelButtons(chs, selected, batch);
    forall i | 0 <= i < |cs| ensures Decode(cs[i].data) == SwitchChannel(chs[i].value, batch) {
      ChannelPayload(chs[i], selected, batch);
    }
  }

  lemma DefaultDirPayload(selected: string, batch: bool)
    requires Free(selected)
    ensures Decode(DefaultDirButton(selected, batch).data) == UploadToken(batch, DefaultDir, Some(selected))
  {
    UploadPayload(DefaultDir, selected, batch);
  }

  /** Each directory button of the unified panel uploads to its directory through the selected channel, provided neither
      holds a ':'. */
  lemma DirPayloads(dirs: seq<string>, selected: string, batch: bool)
    requires forall j :: 0 <= j < |dirs| ==> Free(dirs[j])
    requires Free(selected)
    ensures var bs := DirButtons(dirs, selected, batch);
            forall j :: 0 <= j < |bs| ==> Decode(bs[j].data) == UploadToken(batch, dirs[j], Some(selected))
  {
    var ds := DirButtons(dirs, selected, batch);
    forall j | 0 <= j < |ds| ensures Decode(ds[j].data) == UploadToken(batch, dirs[j], Some(selected)) {
      UploadPayload(dirs[j], selected, batch);
    }
  }

  /** A close button that carries the command message id; an empty id is the
      same as none. */
  lemma ClosePayload(command: string)
    requires Free(command)
    ensures Decode("close_panel:" + command) == ClosePanel(if command == "" then None else Some(command))
  {
    Join2("close_panel", command);
    assert "close_panel:" + command == "close_panel" + ":" + command;
    DecodeCloseJoin(command);
  }

  lemma BrowseEncoding(dir: string, page: int, command: string)
    ensures Encode(Browse(dir, Some(page), command)) == BrowseData(dir, page, command)
  {
    Join4("browse", dir, ShowInt(page), command);
  }

  lemma BrowsePayload(dir: string, page: int, command: string)
    requires Free(dir) && Free(command)
    ensures Decode(BrowseData(dir, page, command)) == Browse(dir, Some(page), command)
  {
    BrowseEncoding(dir, page, command);
    DecodeEncode(Browse(dir, Some(page), command));
  }

  function RandomData(action: string, dir: string, command: string): string {
    "rnd:" + action + ":" + dir + ":" + command
  }

  /** A `rnd:` payload: an empty scope means every directory. */
  lemma RandomPayload(action: string, dir: string, command: string)
    requires Free(action) && Free(dir) && Free(command)
    ensures Decode(RandomData(action, dir, command)) == DecodeRandom(["rnd", action, dir, command])
  {
    var fs := ["rnd", action, dir, command];
    Join4("rnd", action, dir, command);
    assert RandomData(action, dir, command) == Join(fs, ':');
    DecodeRandomJoin(fs);
  }

  /** The directory browser opens each directory at its first page. */
  lemma DirBrowserPayloads(dirs: seq<string>, command: string)
    requires forall j :: 0 <= j < |dirs| ==> Free(dirs[j])
    requires Free(command)
    ensures var kb := DirBrowserKeyboard(dirs, command);
            var bs := Flatten(kb[..|kb| - 1]);
            forall j :: 0 <= j < |dirs| ==> Decode(bs[j].data) == Browse(dirs[j], Some(0), command)
  {
    var kb := DirBrowserKeyboard(dirs, command);
    var bs := Flatten(kb[..|kb| - 1]);
    assert ShowInt(0) == "0";
    forall j | 0 <= j < |dirs| ensures Decode(bs[j].data) == Browse(dirs[j], Some(0), command) {
      assert bs[j].data == BrowseData(dirs[j], 0, command);
      BrowsePayload(dirs[j], 0, command);
    }
  }

  /** The scope chooser sets the scope it names, and its back button keeps the
      current scope (an empty one reads as every directory). */
  lemma RandomDirPayloads(dirs: seq<string>, current: string, command: string)
    requires forall j :: 0 <= j < |dirs| ==> Free(dirs[j])
    requires Free(current) && Free(command)
    ensures var kb := RandomDirKeyboard(dirs, current, command);
            && Decode(kb[0][0].data) == RandomSet(Some("all"), command)
            && Decode(Last(kb)[0].data) == RandomNext(if current == "" then "all" else current, command)
    ensures var kb := RandomDirKeyboard(dirs, current, command);
            var middle := Flatten(kb[1..|kb| - 1]);
            forall j :: 0 <= j < |dirs| ==> Decode(middle[j].data) == RandomSet(Some(dirs[j]), command)
  {
    var kb: Markup := RandomDirKeyboard(dirs, current, command);
    var middle: seq<Button> := Flatten(kb[1..|kb| - 1]);
    RandomSetAllPayload(command);
    RandomNextPayload(current, command);
    forall j | 0 <= j < |dirs| ensures Decode(middle[j].data) == RandomSet(Some(dirs[j]), command) {
      RandomSetPayload(dirs[j], command);
    }
  }

  /** The buttons under a random picture: change scope, next picture in the
      same scope, close. */
  lemma RandomPanelPayloads(dir: string, command: string)
    requires Free(dir) && Free(command)
    ensures var kb := RandomPanelKeyboard(dir, command);
            var scope := if dir == "" then "all" else dir;
            && Decode(kb[0][0].data) == RandomPick(scope, command)
            && Decode(kb[0][1].data) == RandomNext(scope, command)
            && Decode(kb[1][0].data) == ClosePanel(if command == "" then None else Some(command))
  {
    RandomPickPayload(dir, command);
    RandomNextPayload(dir, command);
    ClosePayload(command);
  }

  /** The three `rnd:` payloads the panels write, each read back as its action. */
  lemma RandomPickPayload(dir: string, command: string)
    requires Free(dir) && Free(command)
    ensures Decode("rnd:pick:" + dir + ":" + command) == RandomPick(if dir == "" then "all" else dir, command)
  {
    assert "rnd:pick:" + dir + ":" + command == RandomData("pick", dir, command);
    RandomPayload("pick", dir, command);
  }

  lemma RandomNextPayload(dir: string, command: string)
    requires Free(dir) && Free(command)
    ensures Decode("rnd:next:" + dir + ":" + command) == RandomNext(if dir == "" then "all" else dir, command)
  {
    assert "rnd:next:" + dir + ":" + command == RandomData("next", dir, command);
    RandomPayload("next", dir, command);
  }

  lemma RandomSetPayload(dir: string, command: string)
    requires Free(dir) && Free(command)
    ensures Decode("rnd:set:" + dir + ":" + command) == RandomSet(Some(dir), command)
  {
    assert "rnd:set:" + dir + ":" + command == RandomData("set", dir, command);
    RandomPayload("set", dir, command);
  }

  lemma RandomSetAllPayload(command: string)
    requires Free(command)
    ensures Decode("rnd:set:all:" + command) == RandomSet(Some("all"), command)
  {
    assert "rnd:set:all:" + command == RandomData("set", "all", command);
    RandomPayload("set", "all", command);
  }

  lemma ModeEncoding(m: string)
    ensures Encode(ModeSelect(m)) == "mode:" + m
  {
    Join2("mode", m);
  }

  lemma ModePayload(data: string, mode: string)
    requires Free(mode) && data == "mode:" + mode
    ensures Decode(data) == ModeSelect(mode)
  {
    ModeEncoding(mode);
    DecodeEncode(ModeSelect(mode));
  }

  lemma CancelPayload(data: string, batch: bool)
    requires data == Encode(Cancel(batch))
    ensures Decode(data) == Cancel(batch)
  {
    DecodeEncode(Cancel(batch));
  }

  /** The group prompt's rows: unified upload, separate uploads, cancel the
      batch. */
  lemma ModePayloads()
    ensures forall r :: 0 <= r < 3 ==>
              Decode(ModeKeyboard()[r][0].data) == [ModeSelect("unify"), ModeSelect("separate"), Cancel(true)][r]
  {
    var kb: Markup := ModeKeyboard();
    forall r | 0 <= r < 3
      ensures Decode(kb[r][0].data) == [ModeSelect("unify"), ModeSelect("separate"), Cancel(true)][r]
    {
      if r == 0 {
        ModePayload(kb[0][0].data, "unify");
      } else if r == 1 {
        ModePayload(kb[1][0].data, "separate");
      } else {
        CancelPayload(kb[2][0].data, true);
      }
    }
  }

  /** The navigation row holds at most a previous-page and a next-page button,
      the first exactly when this is not the first page, the second exactly
      when files remain beyond this page. */
  lemma NavRowShape(dir: string, page: int, total: nat, command: string)
    ensures var nav := NavRow(dir, Some(page), total, command);
            && (forall b :: b in nav ==> b.data == BrowseData(dir, page - 1, command) || b.data == BrowseData(dir, page + 1, command))
            && (page > 0 <==> Button("⬅️ 上一页", BrowseData(dir, page - 1, command)) in nav)
            && ((page + 1) * PageSize < total <==> Button("下一页 ➡️", BrowseData(dir, page + 1, command)) in nav)
  {
    assert page < PageCount(total) - 1 <==> (page + 1) * PageSize < total;
  }

  /** The page-turn buttons, by what they ask for. */
  lemma PageTurns(dir: string, page: int, total: nat, command: string)
    requires Free(dir) && Free(command)
    ensures var nav := NavRow(dir, Some(page), total, command);
            && ((exists b :: b in nav && Decode(b.data) == Browse(dir, Some(page - 1), command)) <==> page > 0)
            && ((exists b :: b in nav && Decode(b.data) == Browse(dir, Some(page + 1), command))
                  <==> (page + 1) * PageSize < total)
  {
    var nav := NavRow(dir, Some(page), total, command);
    NavRowShape(dir, page, total, command);
    BrowsePayload(dir, page - 1, command);
    BrowsePayload(dir, page + 1, command);
  }

  /** A directory whose name holds ':' (nothing in the configuration forbids
      one) yields a batch upload button for a different directory, and the
      part after the ':' takes the place of the selected channel. */
  lemma ColonDirMisroutes(a: string, b: string, selected: string)
    requires Free(a) && Free(b) && Free(selected)
    ensures Decode(DirButton(a + ":" + b, selected, true).data) == BatchUpload(a, Some(b))
    ensures Decode(DirButton(a + ":" + b, selected, true).data) != BatchUpload(a + ":" + b, Some(selected))
  {
    var fs := ["batch_upload", a, b, selected];
    Join4("batch_upload", a, b, selected);
    assert DirButton(a + ":" + b, selected, true).data == Join(fs, ':');
    DecodeBatchUploadJoin(fs);
    assert |a + ":" + b| > |a|;
  }
}
