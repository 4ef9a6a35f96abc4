/**
 * `handleCallback`: what a decoded button press does. Network calls are
 * not performed here; a reaction records whether the press is answered
 * (the spinner on the button stops) and which follow-up the handler
 * starts, with the values it computes for it.
 */
module Router {
  import opened Wrappers
  import opened Strings
  import opened Config
  import opened Token
  import opened Keyboard
  import opened Media
  import opened Batch

  /** What the handler knows when a button is pressed. `panel` is the
      message carrying the button, `replied` the message that one answers. */
  datatype Press = Press(chat: int, message: int, panel: Option<Message>, replied: Option<Message>)

  datatype Action =
    | Redraw(keyboard: Markup, shown: string)                  // the panel with another channel checked
    | Expired                                                   // the group behind the panel is gone
    | ShowUnified(group: string, keyboard: Markup)              // one panel for the whole group
    | SeparatePanels(group: string)                             // one panel per stored file
    | StartBatch(group: string, dir: string, channel: Option<string>)
    | StartSingle(media: MediaRef, dir: string, channel: Option<string>)
    | FileGone                                                  // no file behind a single upload
    | DeletePanel(also: Option<string>)                         // delete the panel, and maybe the command
    | RandomImage(scope: Option<string>, command: string)       // show another picture
    | RandomScopes(keyboard: Markup)                            // the scope chooser
    | ShowPage(dir: string, page: Option<int>, command: string) // one page of a directory
    | ShowDirs(keyboard: Markup)                                // the directory browser
    | Nothing

  datatype Reaction = Reaction(answered: bool, action: Action)

  /** The name the confirmation shows for a channel value: the first
      channel with that value, else the value itself. */
  function ChannelLabel(chs: seq<Channel>, value: string): (name: string)
    ensures (forall i :: 0 <= i < |chs| ==> chs[i].value != value) ==> name == value
    ensures forall i :: 0 <= i < |chs| && chs[i].value == value
                        && (forall j :: 0 <= j < i ==> chs[j].value != value) ==>
                          name == (if chs[i].name != "" then chs[i].name else value)
  {
    if chs == [] then value
    else if chs[0].value == value then (if chs[0].name != "" then chs[0].name else value)
    else ChannelLabel(chs[1..], value)
  }

  /** The handler's reaction to a decoded token, given the configured
      channels and directories. */
  function Respond(t: CallbackToken, press: Press, chs: seq<Channel>, dirs: seq<string>, kv: Store, seed: NameSeed)
    : (r: Reaction)
    requires |chs| >= 1
    ensures r.action.StartBatch? ==>
              t == BatchUpload(r.action.dir, r.action.channel)
              && GroupOf(kv, press.chat, press.message) == Some(r.action.group)
    ensures r.action.StartSingle? ==>
              t.SingleUpload? && r.action.dir == t.dir && r.action.channel == t.channel
    ensures r.action.DeletePanel? <==> t.Cancel? || t.ClosePanel?
    ensures r.answered ==> t != Ignore
  {
    match t
    case SwitchChannel(v, batch) =>
      Reaction(true, Redraw(UnifiedKeyboard(chs, dirs, v, batch), ChannelLabel(chs, v)))
    case ModeSelect(mode) =>
      var group := GroupOf(kv, press.chat, press.message);
      if group.None? then Reaction(true, Expired)
      else if mode == "unify" then Reaction(true, ShowUnified(group.value, UnifiedKeyboard(chs, dirs, chs[0].value, true)))
      else if mode == "separate" then Reaction(true, SeparatePanels(group.value))
      else Reaction(false, Nothing)
    case BatchUpload(dir, channel) =>
      var group := GroupOf(kv, press.chat, press.message);
      if group.None? then Reaction(true, Expired)
      else Reaction(true, StartBatch(group.value, dir, channel))
    case SingleUpload(dir, channel) =>
      var own := GetMediaInfo(press.panel, seed);
      var media := if own.None? && press.replied.Some? then GetMediaInfo(press.replied, seed) else own;
      Reaction(true, if media.Some? then StartSingle(media.value, dir, channel) else FileGone)
    case Cancel(_) => Reaction(true, DeletePanel(None))
    case ClosePanel(extra) => Reaction(false, DeletePanel(extra))
    case RandomNext(dir, command) => Reaction(true, RandomImage(Some(dir), command))
    case RandomPick(dir, command) => Reaction(true, RandomScopes(RandomDirKeyboard(dirs, dir, command)))
    case RandomSet(target, command) => Reaction(true, RandomImage(target, command))
    case Browse(dir, page, command) => Reaction(true, ShowPage(dir, page, command))
    case ListRefreshRoot(command) => Reaction(true, ShowDirs(DirBrowserKeyboard(dirs, command)))
    case Ignore => Reaction(false, Nothing)
  }

  /** A press end to end: an answered press carries a recognised payload, and
      a payload matching no test is neither answered nor acted on. */
  function Route(data: string, press: Press, settings: Settings, kv: Store, seed: NameSeed): (r: Reaction)
    ensures r.answered ==> Recognised(data)
    ensures !Recognised(data) ==> r == Reaction(false, Nothing)
  {
    DecodeIgnoredIff(data);
    Respond(Decode(data), press, GetChannels(settings), GetDirs(settings), kv, seed)
  }

  // ---------------------------------------------------------------------------
  // Properties of the dispatch

  /** Some presses are never answered: closing a panel, an ignored payload,
      and an unknown mode on a live panel. Every other press is. */
  lemma AnsweredIff(t: CallbackToken, press: Press, chs: seq<Channel>, dirs: seq<string>, kv: Store, seed: NameSeed)
    requires |chs| >= 1
    ensures !Respond(t, press, chs, dirs, kv, seed).answered
            <==> t.ClosePanel? || t.Ignore?
                 || (t.ModeSelect? && GroupOf(kv, press.chat, press.message).Some?
                     && t.mode != "unify" && t.mode != "separate")
  {
  }

  /** Only the mode and batch-upload presses read the store, and they report
      an expired task exactly when the panel's map entry is missing. */
  lemma ExpiredIff(t: CallbackToken, press: Press, chs: seq<Channel>, dirs: seq<string>, kv: Store, seed: NameSeed)
    requires |chs| >= 1
    ensures Respond(t, press, chs, dirs, kv, seed).action.Expired?
            <==> (t.ModeSelect? || t.BatchUpload?) && GroupOf(kv, press.chat, press.message).None?
  {
  }

  lemma StoreIrrelevant(t: CallbackToken, press: Press, chs: seq<Channel>, dirs: seq<string>,
                        kv1: Store, kv2: Store, seed: NameSeed)
    requires |chs| >= 1
    requires !t.ModeSelect? && !t.BatchUpload?
    ensures Respond(t, press, chs, dirs, kv1, seed) == Respond(t, press, chs, dirs, kv2, seed)
  {
  }

  // ---------------------------------------------------------------------------
  // From a panel's buttons to what they do

  /** Pressing a channel button redraws the same panel with that channel
      checked. */
  lemma ChannelButtonRedraws(ch: Channel, selected: string, batch: bool, press: Press,
                             settings: Settings, kv: Store, seed: NameSeed)
    requires ':' !in ch.value
    ensures var chs := GetChannels(settings);
            Route(ChannelButton(ch, selected, batch).data, press, settings, kv, seed)
            == Reaction(true, Redraw(UnifiedKeyboard(chs, GetDirs(settings), ch.value, batch), ChannelLabel(chs, ch.value)))
  {
    ChannelPayload(ch, selected, batch);
  }

  /** Pressing a directory on a group's unified panel uploads the whole group
      there with the checked channel, provided the panel still maps to it. */
  lemma DirButtonStartsBatch(dir: string, selected: string, press: Press, settings: Settings,
                             kv: Store, seed: NameSeed, group: string)
    requires ':' !in dir && ':' !in selected
    requires GroupOf(kv, press.chat, press.message) == Some(group)
    ensures Route(DirButton(dir, selected, true).data, press, settings, kv, seed)
            == Reaction(true, StartBatch(group, dir, Some(selected)))
  {
    UploadPayload(dir, selected, true);
  }

  /** The panel a delivery sent leads every directory press on it to the
      delivery's group. */
  lemma DeliveredPanelStartsBatch(kv: Store, d: Delivery, dir: string, selected: string,
                                  settings: Settings, seed: NameSeed, panel: Option<Message>)
    requires d.group != "" && d.reply.Some? && !PanelClaimed(kv, d.group)
    requires ':' !in dir && ':' !in selected
    ensures var press := Press(d.chat, d.reply.value, panel, None);
            Route(DirButton(dir, selected, true).data, press, settings, Deliver(kv, d).store, seed)
            == Reaction(true, StartBatch(d.group, dir, Some(selected)))
  {
    PanelFindsGroup(kv, d);
    DirButtonStartsBatch(dir, selected, Press(d.chat, d.reply.value, panel, None), settings,
                         Deliver(kv, d).store, seed, d.group);
  }

  /** A single upload takes the file from the panel message, else from the
      message it answers. */
  lemma SingleUploadSource(dir: string, channel: Option<string>, press: Press, chs: seq<Channel>,
                           dirs: seq<string>, kv: Store, seed: NameSeed)
    requires |chs| >= 1
    ensures var r := Respond(SingleUpload(dir, channel), press, chs, dirs, kv, seed);
            var own := GetMediaInfo(press.panel, seed);
            var other := GetMediaInfo(press.replied, seed);
            && (own.Some? ==> r.action == StartSingle(own.value, dir, channel))
            && (own.None? && other.Some? ==> r.action == StartSingle(other.value, dir, channel))
            && (r.action == FileGone <==> own.None? && other.None?)
  {
    assert press.replied.None? ==> GetMediaInfo(press.replied, seed).None?;
  }
}
