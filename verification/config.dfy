/**
 * The bot's two configuration lists, read afresh on every request:
 * CHANNEL_LIST, comma-separated `name:provider[:sub]` items, and DIR_LIST,
 * comma-separated directory names.
 */
module Config {
  import opened Wrappers
  import opened Strings

  /** A destination channel: the label shown on its button and the code sent
      to the storage backend, either `provider` or the compound `provider|sub`. */
  datatype Channel = Channel(name: string, value: string)

  /** The raw settings; `None` is an unset variable. */
  datatype Settings = Settings(channelList: Option<string>, dirList: Option<string>)

  const DefaultChannelList := "TG:telegram"

  /** One `name:provider[:sub]` item. A missing provider defaults to the name;
      an empty sub-channel is as good as none; fields past the third are ignored. */
  function ParseChannel(item: string): (ch: Channel)
    ensures ':' !in ch.name && ':' !in ch.value
    ensures Trimmed(ch.name)
    ensures ':' !in item ==> ch.value == ch.name
  {
    var parts := Split(item, ':');
    FieldsTrimFree(parts);
    ChannelOf(parts)
  }

  /** The channel the fields of an item describe. */
  function ChannelOf(parts: seq<string>): Channel
    requires |parts| >= 1
  {
    var name := Trim(parts[0]);
    var provider := if |parts| > 1 then Trim(parts[1]) else name;
    var sub := if |parts| > 2 then Trim(parts[2]) else "";
    Channel(name, if sub != "" then provider + "|" + sub else provider)
  }

  lemma FieldsTrimFree(parts: seq<string>)
    requires forall i :: 0 <= i < |parts| ==> ':' !in parts[i]
    ensures forall i :: 0 <= i < |parts| ==> ':' !in Trim(parts[i])
  {
    forall i, k | 0 <= i < |parts| && 0 <= k < |Trim(parts[i])| ensures Trim(parts[i])[k] != ':' {
      assert Trim(parts[i])[k] == parts[i][Lead(parts[i]) + k];
    }
  }

  /** `getChannels`: one channel per comma-separated item, in order; an unset
      or empty list means the single channel `TG:telegram`. */
  function GetChannels(settings: Settings): (chs: seq<Channel>)
    ensures |chs| >= 1
    ensures var raw := OrElse(settings.channelList, DefaultChannelList);
            |chs| == |Split(raw, ',')|
            && forall i :: 0 <= i < |chs| ==> chs[i] == ParseChannel(Split(raw, ',')[i])
    ensures settings.channelList.None? || settings.channelList == Some("") ==>
              chs == [Channel("TG", "telegram")]
    ensures forall i :: 0 <= i < |chs| ==> ':' !in chs[i].value
  {
    var items := Split(OrElse(settings.channelList, DefaultChannelList), ',');
    var chs := seq(|items|, i requires 0 <= i < |items| => ParseChannel(items[i]));
    if settings.channelList.None? || settings.channelList == Some("") then
      DefaultChannel(OrElse(settings.channelList, DefaultChannelList));
      chs
    else
      chs
  }

  /** The default list is the one Telegram channel. */
  lemma DefaultChannel(raw: string)
    requires raw == "TG:telegram"
    ensures Split(raw, ',') == [raw]
    ensures ParseChannel(raw) == Channel("TG", "telegram")
  {
    SplitWhole(raw, ',');
    DefaultParses(raw);
  }

  lemma DefaultParses(raw: string)
    requires raw == "TG:telegram"
    ensures ParseChannel(raw) == Channel("TG", "telegram")
  {
    var spec := ChannelSpec("TG", Some("telegram"), None);
    assert Fields(spec) == ["TG", "telegram"];
    assert Format(spec) == raw;
    ParseWrittenChannel(spec);
  }

  /** `getDirs` over already split items: each trimmed, the empty ones dropped. */
  function NonEmptyTrimmed(items: seq<string>): (dirs: seq<string>)
    ensures |dirs| <= |items|
    ensures forall i :: 0 <= i < |dirs| ==> dirs[i] != "" && Trimmed(dirs[i])
    ensures forall d :: d in dirs <==> d != "" && exists item :: item in items && Trim(item) == d
    ensures (forall i :: 0 <= i < |items| ==> ',' !in items[i]) ==>
              forall i :: 0 <= i < |dirs| ==> ',' !in dirs[i]
    decreases |items|
  {
    if |items| == 0 then []
    else
      var t := Trim(items[0]);
      var rest := NonEmptyTrimmed(items[1..]);
      assert forall item :: item in items <==> item == items[0] || item in items[1..];
      (if t == "" then [] else [t]) + rest
  }

  /** Every position moved one further on. */
  function Shift(idx: seq<nat>): (r: seq<nat>)
    ensures |r| == |idx| && forall j :: 0 <= j < |idx| ==> r[j] == idx[j] + 1
  {
    seq(|idx|, j requires 0 <= j < |idx| => idx[j] + 1)
  }

  /** The positions of the items whose trim is not empty, in increasing order. */
  function KeptIndices(items: seq<string>): seq<nat>
    decreases |items|
  {
    if |items| == 0 then []
    else (if Trim(items[0]) == "" then [] else [0]) + Shift(KeptIndices(items[1..]))
  }

  /** `dirs` lists, in their order and each once, the trims of exactly the
      items at the positions `idx`, and those are the items whose trim is not
      empty. */
  predicate Selects(items: seq<string>, idx: seq<nat>, dirs: seq<string>) {
    && |idx| == |dirs|
    && (forall j :: 0 <= j < |idx| ==> idx[j] < |items| && dirs[j] == Trim(items[idx[j]]))
    && (forall j, k :: 0 <= j < k < |idx| ==> idx[j] < idx[k])
    && (forall i :: 0 <= i < |items| ==> (Trim(items[i]) != "" <==> i in idx))
  }

  /** `NonEmptyTrimmed` keeps the items at `KeptIndices`, in order. */
  lemma {:induction false} NonEmptyTrimmedSelects(items: seq<string>)
    ensures Selects(items, KeptIndices(items), NonEmptyTrimmed(items))
    decreases |items|
  {
    if |items| > 0 {
      NonEmptyTrimmedSelects(items[1..]);
      SelectsCons(items, KeptIndices(items[1..]), NonEmptyTrimmed(items[1..]));
    }
  }

  /** Dropping or keeping the first item extends a selection of the rest. */
  lemma SelectsCons(items: seq<string>, idx: seq<nat>, dirs: seq<string>)
    requires |items| > 0
    requires Selects(items[1..], idx, dirs)
    ensures var t := Trim(items[0]);
            Selects(items, (if t == "" then [] else [0]) + Shift(idx), (if t == "" then [] else [t]) + dirs)
  {
    var t := Trim(items[0]);
    var head: seq<nat> := if t == "" then [] else [0];
    var idx' := head + Shift(idx);
    var dirs' := (if t == "" then [] else [t]) + dirs;
    SelectsConsPositions(items, idx, dirs, head);
    ConsOrdered(idx, head);
    forall i | 0 <= i < |items| ensures Trim(items[i]) != "" <==> i in idx' {
      SelectsConsMember(items, idx, head, i);
    }
  }

  lemma SelectsConsPositions(items: seq<string>, idx: seq<nat>, dirs: seq<string>, head: seq<nat>)
    requires |items| > 0
    requires |idx| == |dirs|
    requires forall j :: 0 <= j < |idx| ==> idx[j] < |items| - 1 && dirs[j] == Trim(items[1..][idx[j]])
    requires head == if Trim(items[0]) == "" then [] else [0]
    ensures var idx' := head + Shift(idx);
            var dirs' := (if Trim(items[0]) == "" then [] else [Trim(items[0])]) + dirs;
            && |idx'| == |dirs'|
            && (forall j :: 0 <= j < |idx'| ==> idx'[j] < |items| && dirs'[j] == Trim(items[idx'[j]]))
  {
    var idx' := head + Shift(idx);
    var dirs' := (if Trim(items[0]) == "" then [] else [Trim(items[0])]) + dirs;
    var h := |head|;
    forall j | h <= j < |idx'| ensures idx'[j] < |items| && dirs'[j] == Trim(items[idx'[j]]) {
      assert idx'[j] == idx[j - h] + 1 && dirs'[j] == dirs[j - h];
      assert items[idx[j - h] + 1] == items[1..][idx[j - h]];
    }
    if h == 1 {
      assert idx'[0] == 0 && dirs'[0] == Trim(items[0]);
    }
  }

  lemma ConsOrdered(idx: seq<nat>, head: seq<nat>)
    requires forall j, k :: 0 <= j < k < |idx| ==> idx[j] < idx[k]
    requires head == [] || head == [0]
    ensures forall j, k :: 0 <= j < k < |head + Shift(idx)| ==> (head + Shift(idx))[j] < (head + Shift(idx))[k]
  {
    ShiftOrdered(idx);
    if head == [] {
      assert head + Shift(idx) == Shift(idx);
    } else {
      var idx' := head + Shift(idx);
      forall j, k | 0 <= j < k < |idx'| ensures idx'[j] < idx'[k] {
        assert idx'[k] == Shift(idx)[k - 1];
      }
    }
  }

  /** Moving increasing positions on keeps them increasing and past zero. */
  lemma ShiftOrdered(idx: seq<nat>)
    requires forall j, k :: 0 <= j < k < |idx| ==> idx[j] < idx[k]
    ensures forall j, k :: 0 <= j < k < |Shift(idx)| ==> Shift(idx)[j] < Shift(idx)[k]
    ensures forall j :: 0 <= j < |Shift(idx)| ==> Shift(idx)[j] > 0
  {
  }

  /** Behind a head of at most position 0, a later position is kept iff the
      one before it was kept in the shifted tail. */
  lemma ShiftMember(head: seq<nat>, idx: seq<nat>, i: nat)
    requires head == [] || head == [0]
    requires i > 0
    ensures i in head + Shift(idx) <==> i - 1 in idx
  {
    var idx' := head + Shift(idx);
    if i - 1 in idx {
      var j :| 0 <= j < |idx| && idx[j] == i - 1;
      assert idx'[|head| + j] == i;
    }
    if i in idx' {
      var j :| 0 <= j < |idx'| && idx'[j] == i;
      assert idx[j - |head|] == i - 1;
    }
  }

  lemma SelectsConsMember(items: seq<string>, idx: seq<nat>, head: seq<nat>, i: nat)
    requires 0 <= i < |items|
    requires forall i :: 0 <= i < |items| - 1 ==> (Trim(items[1..][i]) != "" <==> i in idx)
    requires head == if Trim(items[0]) == "" then [] else [0]
    ensures Trim(items[i]) != "" <==> i in head + Shift(idx)
  {
    var idx' := head + Shift(idx);
    if i > 0 {
      assert items[i] == items[1..][i - 1];
      ShiftMember(head, idx, i);
    } else {
      assert forall j :: 0 <= j < |idx| ==> Shift(idx)[j] != 0;
      assert 0 in idx' <==> head == [0];
    }
  }

  /** `getDirs`: the trimmed, non-empty comma-separated names, in their order. */
  function GetDirs(settings: Settings): (dirs: seq<string>)
    ensures forall i :: 0 <= i < |dirs| ==> dirs[i] != "" && Trimmed(dirs[i]) && ',' !in dirs[i]
    ensures forall d :: d in dirs <==>
              d != "" && exists item :: item in Split(OrElse(settings.dirList, ""), ',') && Trim(item) == d
    ensures var items := Split(OrElse(settings.dirList, ""), ',');
            Selects(items, KeptIndices(items), dirs)
  {
    NonEmptyTrimmedSelects(Split(OrElse(settings.dirList, ""), ','));
    NonEmptyTrimmed(Split(OrElse(settings.dirList, ""), ','))
  }

  // ---------------------------------------------------------------------------
  // The lists as an operator writes them.

  /** An item as written: `name`, `name:provider` or `name:provider:sub`. */
  datatype ChannelSpec = ChannelSpec(name: string, provider: Option<string>, sub: Option<string>)

  predicate WellWritten(spec: ChannelSpec) {
    && (spec.sub.Some? ==> spec.provider.Some?)
    && Clean(spec.name) && spec.name != ""
    && (spec.provider.Some? ==> Clean(spec.provider.value))
    && (spec.sub.Some? ==> Clean(spec.sub.value))
  }

  /** A field the list syntax can carry unchanged. */
  predicate Clean(field: string) {
    ':' !in field && ',' !in field && Trimmed(field)
  }

  function Fields(spec: ChannelSpec): seq<string> {
    [spec.name]
    + (if spec.provider.Some? then [spec.provider.value] else [])
    + (if spec.sub.Some? then [spec.sub.value] else [])
  }

  function Format(spec: ChannelSpec): string {
    Join(Fields(spec), ':')
  }

  /** The channel an operator means by an item. */
  function Intended(spec: ChannelSpec): Channel {
    var provider := spec.provider.GetOr(spec.name);
    Channel(spec.name, if spec.sub.Some? && spec.sub.value != "" then provider + "|" + spec.sub.value else provider)
  }

  lemma JoinFreeOf(parts: seq<string>, sep: char, c: char)
    requires c != sep
    requires forall i :: 0 <= i < |parts| ==> c !in parts[i]
    ensures c !in Join(parts, sep)
    decreases |parts|
  {
    if |parts| > 1 {
      JoinFreeOf(parts[1..], sep, c);
    }
  }

  /** Each written item parses back to the channel its author meant. */
  lemma ParseWrittenChannel(spec: ChannelSpec)
    requires WellWritten(spec)
    ensures ParseChannel(Format(spec)) == Intended(spec)
  {
    var fs := Fields(spec);
    SplitJoin(fs, ':');
    assert Split(Format(spec), ':') == fs;
    WrittenFields(spec);
  }

  /** Any item names the channel its author meant by its first three fields,
      each trimmed; fields past the third are ignored. */
  lemma ParseChannelFields(fs: seq<string>)
    requires |fs| >= 1
    requires forall i :: 0 <= i < |fs| ==> ':' !in fs[i]
    ensures ParseChannel(Join(fs, ':'))
            == Intended(ChannelSpec(Trim(fs[0]),
                                    if |fs| > 1 then Some(Trim(fs[1])) else None,
                                    if |fs| > 2 then Some(Trim(fs[2])) else None))
  {
    SplitJoin(fs, ':');
  }

  /** A written item with white space around its fields and any number of
      further fields after the third still names the intended channel. */
  lemma ParsePaddedChannel(spec: ChannelSpec, fs: seq<string>)
    requires WellWritten(spec)
    requires forall i :: 0 <= i < |fs| ==> ':' !in fs[i]
    requires |fs| >= 1 && Trim(fs[0]) == spec.name
    requires spec.provider.None? ==> |fs| == 1
    requires spec.provider.Some? ==> |fs| >= 2 && Trim(fs[1]) == spec.provider.value
    requires spec.provider.Some? && spec.sub.None? ==> |fs| == 2
    requires spec.sub.Some? ==> |fs| >= 3 && Trim(fs[2]) == spec.sub.value
    ensures ParseChannel(Join(fs, ':')) == Intended(spec)
  {
    var read := ChannelSpec(Trim(fs[0]),
                            if |fs| > 1 then Some(Trim(fs[1])) else None,
                            if |fs| > 2 then Some(Trim(fs[2])) else None);
    assert read == spec;
    ParseChannelFields(fs);
  }

  /** The channel an item of one, two or three already trimmed fields names. */
  lemma ChannelOfOne(a: string)
    requires Trimmed(a)
    ensures ChannelOf([a]) == Channel(a, a)
  {
    TrimTrimmed(a);
  }

  lemma ChannelOfTwo(a: string, b: string)
    requires Trimmed(a) && Trimmed(b)
    ensures ChannelOf([a, b]) == Channel(a, b)
  {
    TrimTrimmed(a);
    TrimTrimmed(b);
  }

  lemma ChannelOfThree(a: string, b: string, c: string)
    requires Trimmed(a) && Trimmed(b) && Trimmed(c)
    ensures ChannelOf([a, b, c]) == Channel(a, if c != "" then b + "|" + c else b)
  {
    TrimTrimmed(a);
    TrimTrimmed(b);
    TrimTrimmed(c);
  }

  lemma WrittenFields(spec: ChannelSpec)
    requires WellWritten(spec)
    ensures ChannelOf(Fields(spec)) == Intended(spec)
  {
    var fs := Fields(spec);
    if spec.provider.None? {
      assert fs == [spec.name];
      ChannelOfOne(spec.name);
    } else if spec.sub.None? {
      var p := spec.provider.value;
      assert fs == [spec.name, p];
      ChannelOfTwo(spec.name, p);
      assert Intended(spec) == Channel(spec.name, p);
    } else {
      var p, q := spec.provider.value, spec.sub.value;
      assert fs == [spec.name, p, q];
      ChannelOfThree(spec.name, p, q);
      assert Intended(spec) == Channel(spec.name, if q != "" then p + "|" + q else p);
    }
  }

  /** A channel list as written parses to the intended channels, in order. */
  lemma ParseWrittenChannels(specs: seq<ChannelSpec>)
    requires |specs| >= 1
    requires forall i :: 0 <= i < |specs| ==> WellWritten(specs[i])
    ensures var items := seq(|specs|, i requires 0 <= i < |specs| => Format(specs[i]));
            GetChannels(Settings(Some(Join(items, ',')), None))
              == seq(|specs|, i requires 0 <= i < |specs| => Intended(specs[i]))
  {
    var items := seq(|specs|, i requires 0 <= i < |specs| => Format(specs[i]));
    forall i | 0 <= i < |items| ensures ',' !in items[i] {
      JoinFreeOf(Fields(specs[i]), ':', ',');
    }
    SplitJoin(items, ',');
    var raw := Join(items, ',');
    assert raw != "" by {
      if |items| == 1 {
        assert items[0] == Format(specs[0]);
        assert Fields(specs[0])[0] == specs[0].name;
        assert |Format(specs[0])| >= |specs[0].name| by {
          var fs := Fields(specs[0]);
          if |fs| > 1 { assert Format(specs[0]) == fs[0] + [':'] + Join(fs[1..], ':'); }
        }
      } else {
        assert |raw| >= 1;
      }
    }
    assert OrElse(Some(raw), DefaultChannelList) == raw;
    forall i | 0 <= i < |specs| ensures ParseChannel(items[i]) == Intended(specs[i]) {
      ParseWrittenChannel(specs[i]);
    }
  }

  /** A directory list as written is read back name for name, in order. */
  lemma {:induction false} NonEmptyTrimmedKeeps(dirs: seq<string>)
    requires forall i :: 0 <= i < |dirs| ==> dirs[i] != "" && Trimmed(dirs[i])
    ensures NonEmptyTrimmed(dirs) == dirs
    decreases |dirs|
  {
    if |dirs| > 0 {
      TrimTrimmed(dirs[0]);
      NonEmptyTrimmedKeeps(dirs[1..]);
      assert [dirs[0]] + dirs[1..] == dirs;
    }
  }

  lemma ParseWrittenDirs(dirs: seq<string>)
    requires forall i :: 0 <= i < |dirs| ==> dirs[i] != "" && Clean(dirs[i])
    ensures GetDirs(Settings(None, Some(Join(dirs, ',')))) == dirs
  {
    if |dirs| == 0 {
      assert Split("", ',') == [""];
      assert Trim("") == "";
    } else {
      var raw := Join(dirs, ',');
      assert OrElse(Some(raw), "") == raw;
      SplitJoin(dirs, ',');
      assert GetDirs(Settings(None, Some(raw))) == NonEmptyTrimmed(dirs);
      NonEmptyTrimmedKeeps(dirs);
    }
  }

  /** An unset directory list offers no directories. */
  lemma UnsetDirs()
    ensures GetDirs(Settings(None, None)) == []
  {
    assert Split("", ',') == [""];
    assert Trim("") == "";
  }
}
