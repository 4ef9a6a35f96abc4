# Telegram upload bot: a Dafny model of its core

The bot (`tg/tg-bot-upload/tgBotUpload.js`) is a Cloudflare Worker. It takes
photos, videos, documents and links sent to a Telegram chat. It lets the user
pick a storage channel and a directory with inline buttons, uploads the file to
an image host, and reports the resulting link. Files that arrive as one media
group are parked in the Worker's key-value store until the user chooses how to
upload them. The same bot also shows random pictures and pages through a
directory.

This project models the logic of that core as pure Dafny functions and proves
properties about it:

- `Config`: `getChannels` and `getDirs`. `CHANNEL_LIST` items have the form
  `name:provider[:sub]`. Written lists parse back to the channels and
  directories their author meant.
- `Token`: the `callback_data` codec, that is, the prefix dispatch at the head
  of `handleCallback` and the field defaults each branch applies. Every
  well-formed request decodes back to itself. An input is ignored exactly when
  it matches no prefix, or names an unknown `rnd:` action.
- `Keyboard`: the unified panel, the directory browser, the random-picture
  scope chooser, the random panel, the media-group mode question and the
  listing's page buttons. For each keyboard the model gives its row layout and
  what every button decodes to.
- `Media`: `getMediaInfo`, including the link found in a text and the file
  name inferred from the link, and `getMimeType`.
- `Batch`: the store effects of `handleBatchPreProcess`.
  - The store is a `map`.
  - Each delivery is one atomic step. Sequential runs send one panel per group
    and list exactly the files delivered.
  - The handler as written, a read and a write of the panel key as separate
    steps, is modelled separately and shown to send two panels under an
    interleaving.
- `Upload`:
  - how a channel value becomes the host's `uploadChannel` and `channelName`
    parameters;
  - the source path cleanup that yields the origin link;
  - `processUploadInternal`, with the network's answers as parameters.
- `Report`: the batch report. It aggregates the results as the handler does,
  with a corrected variant. It escapes names for HTML, counts successes and
  failures, and numbers the entries.
- `Router`: what each decoded press does. This is whether the press is
  answered and which follow-up starts, with the keyboard or group it uses.

Facts about the code that the model states on their own:

- Four kinds of press are never answered, so the button's spinner keeps
  running (`Router.AnsweredIff`):
  - `close_panel` (tgBotUpload.js:403-411);
  - a payload that matches none of the tests, since the handler falls off its
    end at line 507;
  - an unknown `rnd:` action (lines 416-482);
  - an unknown `mode:` on a live panel (lines 258-302).
- Nothing in `getDirs` (lines 43-46) keeps ':' out of a directory name, and a
  button's payload joins its fields with ':' (line 556). A directory `a:b`
  therefore yields a batch-upload button for directory `a` with `b` taken as
  the channel (`Keyboard.ColonDirMisroutes`). The round trip
  (`Token.DecodeEncode`) needs ':'-free fields, stated as a precondition.
- The batch report shows only "failed" for a failed file (lines 352-358). The
  error text that `processUploadInternal` returns is dropped (`Report.Item`).
- One listed key without a record aborts the whole batch report (line 341;
  second finding below).
- `processUploadInternal` never throws: every failure becomes a failed
  outcome, and the first failure decides it (`Upload.LaterAnswersIgnored`).
- The random delay before the panel check (lines 188-189) narrows the window
  for the race but does not close it (`Batch.RaceSendsTwoPanels`).

Strings follow JavaScript: `split` always yields at least one piece, `trim`
removes the ECMAScript white-space set, and `parseInt` without a radix skips
white space, reads an optional sign, reads base sixteen after `0x` or `0X`
and base ten otherwise, and takes the longest digit run, with `NaN` written
`None`. `x || d` is `OrElse`, and the empty string counts as false. Integers
are unbounded. The only numbers the model handles are message ids, page
numbers and counters; how JavaScript's doubles treat very large page numbers
is listed under Left out.

## Model

| member | source | states |
|---|---|---|
| Config.GetChannels | tg/tg-bot-upload/tgBotUpload.js:26-41 | one channel per comma-separated item, in order, each parsed by `ParseChannel`; an unset or empty list gives the single channel `TG`/`telegram`; no channel value holds ':' |
| Config.ParseChannel | tg/tg-bot-upload/tgBotUpload.js:28-39 | name and value are ':'-free, the name is trimmed, and an item without ':' is its own provider |
| Config.DefaultChannel | tg/tg-bot-upload/tgBotUpload.js:27-39 | the default list `TG:telegram` is one item naming channel `TG` with value `telegram` |
| Config.ParseWrittenChannel | tg/tg-bot-upload/tgBotUpload.js:28-39 | an item written as `name`, `name:provider` or `name:provider:sub` parses to that name, the provider (the name when absent) and `provider\|sub` when sub is non-empty |
| Config.ParseChannelFields | tg/tg-bot-upload/tgBotUpload.js:28-39 | any item reads as the channel of its first three fields, trimmed; fields after the third are ignored |
| Config.ParsePaddedChannel | tg/tg-bot-upload/tgBotUpload.js:28-39 | an item whose fields carry white space around them and are followed by further fields still names the intended channel |
| Config.ParseWrittenChannels | tg/tg-bot-upload/tgBotUpload.js:26-41 | a comma-joined list of written items parses to the intended channels, in order |
| Config.GetDirs | tg/tg-bot-upload/tgBotUpload.js:43-46 | the directories are the trims of the items that are non-empty once trimmed, one per such item, in item order, repeats kept; every one is non-empty, trimmed and comma-free |
| Config.ParseWrittenDirs | tg/tg-bot-upload/tgBotUpload.js:43-46 | a comma-joined list of clean non-empty names reads back as exactly that list |
| Config.UnsetDirs | tg/tg-bot-upload/tgBotUpload.js:44-45 | an unset directory list gives no directories |
| Strings.Split | tg/tg-bot-upload/tgBotUpload.js:28-29 | the pieces are separator-free and at least one, and there are two or more iff the separator occurs |
| Strings.SplitJoin | tg/tg-bot-upload/tgBotUpload.js:28-29 | separator-free pieces joined with the separator split back into the same pieces |
| Strings.Trim | tg/tg-bot-upload/tgBotUpload.js:30-32 | the result has no white space at either end, is an infix of the input, and everything dropped is white space |
| Strings.TrimPadded | tg/tg-bot-upload/tgBotUpload.js:30-32 | white space put around a trimmed string is removed exactly |
| Strings.ParseInt | tg/tg-bot-upload/tgBotUpload.js:490 | a result needs a decimal digit somewhere in the input; no digit gives `NaN` |
| Strings.ParseHex | tg/tg-bot-upload/tgBotUpload.js:490 | `0x` followed by hexadecimal digits reads as their base-sixteen value, not as zero |
| Token.Encode | tg/tg-bot-upload/tgBotUpload.js:225-502 | a well-formed request's payload splits back into exactly its fields, the inverse of the splitting the dispatch does |
| Token.Decode | tg/tg-bot-upload/tgBotUpload.js:225-502 | only a payload passing one of the tests decodes to anything other than the no-op |
| Token.DecodeEncode | tg/tg-bot-upload/tgBotUpload.js:225-502 | every well-formed request (':'-free fields) survives encoding and the prefix dispatch with its field defaults |
| Token.EncodeInjective | tg/tg-bot-upload/tgBotUpload.js:225-502 | distinct well-formed requests never share a payload |
| Token.DecodeIgnoredIff | tg/tg-bot-upload/tgBotUpload.js:225-507 | a payload is ignored iff it matches none of the tests in order, or is `rnd:` with an action other than next, pick, set |
| Token.PageRoundTrip | tg/tg-bot-upload/tgBotUpload.js:490 | a page written into a payload, `NaN` included, reads back through `parseInt(parts[2] \|\| "0")` as the same page |
| Token.DecodeRandomJoin | tg/tg-bot-upload/tgBotUpload.js:416-420 | any `rnd:` payload of ':'-free fields reaches the random sub-dispatch with exactly those fields |
| Token.DecodeCloseJoin | tg/tg-bot-upload/tgBotUpload.js:403-411 | `close_panel:<id>` asks to delete message `id` too, unless the id is empty |
| Token.DecodeBatchUploadJoin | tg/tg-bot-upload/tgBotUpload.js:305-308 | a `batch_upload:` payload uploads to its second field with its third, if any, as channel |
| Keyboard.Chunk | tg/tg-bot-upload/tgBotUpload.js:517-535 | filling rows left to right keeps every button in order, no row is empty, all rows but the last are full |
| Keyboard.ChannelButtons | tg/tg-bot-upload/tgBotUpload.js:518-527 | one button per channel, in order; a button is checked iff its channel's value is the selected one; each label ends with the channel name |
| Keyboard.UnifiedKeyboard | tg/tg-bot-upload/tgBotUpload.js:513-572 | channel rows of at most three, then the lone `default` row, directory rows of at most two, then cancel and close; row counts are the rounded-up quotients |
| Keyboard.ChannelPayloads | tg/tg-bot-upload/tgBotUpload.js:525 | each channel button switches to its own channel in the panel's mode |
| Keyboard.DefaultDirPayload | tg/tg-bot-upload/tgBotUpload.js:546-549 | the `default` button uploads to `default` with the selected channel |
| Keyboard.DirPayloads | tg/tg-bot-upload/tgBotUpload.js:553-557 | each directory button uploads to that directory with the selected channel, batch or single as the panel is |
| Keyboard.CancelRowPayloads | tg/tg-bot-upload/tgBotUpload.js:565-569 | the footer cancels the panel's kind of upload, or closes with no command id |
| Keyboard.ColonDirMisroutes | tg/tg-bot-upload/tgBotUpload.js:556 | a directory `a:b` yields a button that uploads to `a` through channel `b`, not to `a:b` through the selected channel |
| Keyboard.ModePayloads | tg/tg-bot-upload/tgBotUpload.js:197-201 | the mode question's rows ask for unified upload, separate panels, and cancelling the batch |
| Keyboard.ModeKeyboard | tg/tg-bot-upload/tgBotUpload.js:197-201 | three rows of one button each |
| Keyboard.DirBrowserKeyboard | tg/tg-bot-upload/tgBotUpload.js:900-918 | one browse button per directory at page 0, two to a row, then a close button carrying the command id |
| Keyboard.DirBrowserPayloads | tg/tg-bot-upload/tgBotUpload.js:906 | each directory button opens that directory at page 0 with the command id |
| Keyboard.RandomDirKeyboard | tg/tg-bot-upload/tgBotUpload.js:1209-1230 | the `all` choice (checked when current), one button per directory (checked iff current), two to a row, and a back button to the current scope |
| Keyboard.RandomDirPayloads | tg/tg-bot-upload/tgBotUpload.js:1214-1228 | `all` and each directory set that scope; back shows the next picture of the current scope, an empty scope reading as all |
| Keyboard.RandomPanelPayloads | tg/tg-bot-upload/tgBotUpload.js:1134-1140 | the random panel opens the scope chooser, shows the next picture in the same scope, or closes and deletes the command |
| Keyboard.RandomPanelKeyboard | tg/tg-bot-upload/tgBotUpload.js:1134-1140 | a row of two buttons, then a row of one |
| Keyboard.PageCountFits | tg/tg-bot-upload/tgBotUpload.js:787 | the page count is the fewest pages of six that hold every file, zero for none |
| Keyboard.ItemNumbers | tg/tg-bot-upload/tgBotUpload.js:835 | numbers on different pages never collide, and every file from 1 to the total is numbered on an admitted page |
| Keyboard.NavRowShape | tg/tg-bot-upload/tgBotUpload.js:848-851 | a previous button iff the page is past the first, a next button iff files remain beyond this page, nothing else |
| Keyboard.NavRow | tg/tg-bot-upload/tgBotUpload.js:849-850 | a page that did not parse (`NaN`) gets no page buttons, and no page gets more than two |
| Keyboard.PageTurns | tg/tg-bot-upload/tgBotUpload.js:849-850 | some button browses to page p-1 iff p > 0, and some button to p+1 iff files remain |
| Keyboard.PageKeyboard | tg/tg-bot-upload/tgBotUpload.js:848-855 | the navigation row comes first, and only when non-empty, then back-to-list and close, both with the command id |
| Media.FindUrl | tg/tg-bot-upload/tgBotUpload.js:730-736 | no link iff no position starts `http(s)://` plus a non-space; otherwise the leftmost such match, extended over the following non-space run |
| Media.ParseUrl | tg/tg-bot-upload/tgBotUpload.js:740 | a parsed path is non-empty and holds no `?` or `#`; a parsed query holds no `#` |
| Media.ParsePlain | tg/tg-bot-upload/tgBotUpload.js:740-741 | a link of scheme, host, absolute path and query splits into exactly that path and query |
| Media.InferName | tg/tg-bot-upload/tgBotUpload.js:740-751 | the inferred name always holds a dot, and an unparsable link gets the base name plus `.jpg` |
| Media.SegmentName | tg/tg-bot-upload/tgBotUpload.js:742-744 | a last path segment holding a dot is the name, whatever the query |
| Media.FormatName | tg/tg-bot-upload/tgBotUpload.js:746-748 | without a dotted segment, a non-empty `format` parameter gives the extension |
| Media.JpgFallback | tg/tg-bot-upload/tgBotUpload.js:745-749 | a link whose last segment has no dot and whose `format` parameter is absent or empty gets the base name plus `.jpg` |
| Media.SegmentBeatsFormat | tg/tg-bot-upload/tgBotUpload.js:742-748 | on `https://example.com/a/b.png?format=jpg` the dotted segment wins |
| Media.GetMediaInfo | tg/tg-bot-upload/tgBotUpload.js:701-758 | a record only for a present message with a non-empty id; a link record iff the message has no media and its text holds a link, and then it is a photo whose id is the link |
| Media.PriorityDecides | tg/tg-bot-upload/tgBotUpload.js:710-727 | messages that agree up to the deciding part (photo, video, animation, document, text in that order) get the same record |
| Media.MediaInfoIff | tg/tg-bot-upload/tgBotUpload.js:701-758 | no record iff the deciding part yields no id; else the record carries that id, is a photo iff from a photo or link, a video iff from a video or animation |
| Media.Extension | tg/tg-bot-upload/tgBotUpload.js:759 | the extension is dot-free and is the whole name or exactly what follows its last dot |
| Media.GetMimeType | tg/tg-bot-upload/tgBotUpload.js:759 | the type is specific iff the lower-cased extension is jpg, png, gif or mp4, or one of the keys `constructor` and `__proto__` that the lookup object inherits, which yield the inherited value's string |
| Media.ExtensionAfterDot | tg/tg-bot-upload/tgBotUpload.js:759 | `stem.ext` has extension `ext` and the type of lower-cased `ext` |
| Media.MediaMime | tg/tg-bot-upload/tgBotUpload.js:710-726 | generated photo names are typed `image/jpeg`, video and animation names `video/mp4`, a nameless document generic binary |
| Media.DocumentMime | tg/tg-bot-upload/tgBotUpload.js:725 | a named document keeps its own name's type despite the tag put in front |
| Batch.Deliver | tg/tg-bot-upload/tgBotUpload.js:182-212 | the file record is written; a panel is sent iff the group's panel key is unclaimed, and then the sentinel and (when the send answered) the map entry are written; nothing else changes, and a delivery that sends no panel changes only its file key |
| Batch.ClaimAfterDeliver | tg/tg-bot-upload/tgBotUpload.js:191-195 | after a delivery, a group is claimed iff it was before or it is the delivery's group |
| Batch.RunClaims | tg/tg-bot-upload/tgBotUpload.js:191-195 | after a run, a group is claimed iff it was at the start or some delivery belongs to it |
| Batch.RunPanels | tg/tg-bot-upload/tgBotUpload.js:191-211 | delivery i sends a panel iff its group was unclaimed at the start and no earlier delivery belongs to it |
| Batch.OnePanelPerGroup | tg/tg-bot-upload/tgBotUpload.js:191-195 | a later delivery of a group never sends a panel |
| Batch.OneGroupOnePanel | tg/tg-bot-upload/tgBotUpload.js:182-212 | any number of deliveries of one unclaimed group send exactly one panel |
| Batch.Run | tg/tg-bot-upload/tgBotUpload.js:182-212 | a run records one panel flag per delivery, in delivery order |
| Batch.AtomicSendsOnePanel | tg/tg-bot-upload/tgBotUpload.js:191-195 | two deliveries of a fresh group taken as atomic steps send one panel |
| Batch.RaceSendsTwoPanels | tg/tg-bot-upload/tgBotUpload.js:186-195 | as written, two deliveries of a fresh group whose reads both precede both claims both send a panel |
| Batch.Listed | tg/tg-bot-upload/tgBotUpload.js:185-208 | a file key is under a group's file prefix iff it is that group's; panel and map keys never are |
| Batch.PanelKeysApart | tg/tg-bot-upload/tgBotUpload.js:185-191 | different groups have different panel keys, and a panel key is never a file key |
| Batch.ListAfterDeliver | tg/tg-bot-upload/tgBotUpload.js:185-186 | a delivery adds its own file key to its own group's listing and to no other |
| Batch.ListAfterRun | tg/tg-bot-upload/tgBotUpload.js:327 | after a run, a group's listing is the earlier listing plus one key per delivered file of that group |
| Batch.FilesAre | tg/tg-bot-upload/tgBotUpload.js:185 | the keys a run adds for a group are exactly those of the group's deliveries |
| Batch.RunKeepsRecords | tg/tg-bot-upload/tgBotUpload.js:186-209 | no text value is ever written under a file key, so file keys always hold records |
| Batch.PanelFindsGroup | tg/tg-bot-upload/tgBotUpload.js:207-209 | the panel a delivery sent maps back to the delivery's group |
| Upload.SplitChannel | tg/tg-bot-upload/tgBotUpload.js:665-673 | a value without '\|' is the provider alone; otherwise the provider is the '\|'-free head; a store name is non-empty and '\|'-free |
| Upload.DefaultTarget | tg/tg-bot-upload/tgBotUpload.js:665 | an absent or empty channel is the `telegram` provider with no store |
| Upload.SplitChannelPair | tg/tg-bot-upload/tgBotUpload.js:669-673 | `provider\|store\|more` names that provider, empty included, and that store (none when empty); what follows is dropped |
| Upload.ChannelReachesHost | tg/tg-bot-upload/tgBotUpload.js:665-680 | a channel written `name:provider:sub` reaches the host as that provider and, when non-empty, that store; `name::sub` keeps the empty provider, and an item whose provider ends up empty without a store (`name:`) reaches the host as `telegram` |
| Upload.ParamsFound | tg/tg-bot-upload/tgBotUpload.js:661-681 | the host reads the token and folder only when set, the provider always, the store only when present |
| Upload.CleanPath | tg/tg-bot-upload/tgBotUpload.js:690 | the source is the cleaned path preceded by nothing, `/`, `file/` or `/file/` |
| Upload.OriginUrlForms | tg/tg-bot-upload/tgBotUpload.js:690-691 | all four spellings of a stored file's source give the same `/file/` link |
| Upload.UploadedLink | tg/tg-bot-upload/tgBotUpload.js:608-696 | a successful upload of any file, link or Telegram file, links to the stored path under `/file/` whichever spelling the host returned |
| Upload.LaterAnswersIgnored | tg/tg-bot-upload/tgBotUpload.js:608-638 | the steps run in order and the first failure decides the outcome; a link never consults `getFile` |
| Report.Escape | tg/tg-bot-upload/tgBotUpload.js:352 | an escaped name holds no '<' or '>' |
| Report.EscapeIsEach | tg/tg-bot-upload/tgBotUpload.js:352 | the three passes escape each character on its own, ampersands never doubly |
| Report.UnescapeEscape | tg/tg-bot-upload/tgBotUpload.js:352 | an escaped name reads back as the name |
| Report.AggregateAsWritten | tg/tg-bot-upload/tgBotUpload.js:340-350 | as written: no report iff some listed key has no record; otherwise one entry per key, in order |
| Report.Aggregate | tg/tg-bot-upload/tgBotUpload.js:340-350 | corrected: one entry per key, in order; a key without a record is a failure named by the key |
| Report.AggregateAgrees | tg/tg-bot-upload/tgBotUpload.js:340-350 | wherever the handler produces a report, the corrected one is the same |
| Report.MissingRecordAborts | tg/tg-bot-upload/tgBotUpload.js:341 | one listed key whose record is gone: no report as written, one failed entry corrected |
| Report.Tally | tg/tg-bot-upload/tgBotUpload.js:351-361 | the success count is the number of ok entries and the failure count the number of the others, so the two add up to the entries |
| Report.ItemsNumbered | tg/tg-bot-upload/tgBotUpload.js:351-358 | the text the `forEach` accumulates is the drawings of the entries in order, each paired with its number, the first entry with number `first` |
| Report.DrawnAt | tg/tg-bot-upload/tgBotUpload.js:351-358 | drawing i is entry i rendered with the number paired with it |
| Report.ReportText | tg/tg-bot-upload/tgBotUpload.js:336-361 | the report is the header, then the entries in order with entry i numbered i + 1, then the count line holding the number of ok entries and the number of the others |
| Router.ChannelLabel | tg/tg-bot-upload/tgBotUpload.js:236 | the first channel carrying the value gives its name, or the value when that name is empty; a value no channel carries is shown as itself |
| Router.AnsweredIff | tg/tg-bot-upload/tgBotUpload.js:218-507 | a press is left unanswered iff it closes a panel, is ignored, or is an unknown mode on a live panel |
| Router.ExpiredIff | tg/tg-bot-upload/tgBotUpload.js:257-313 | a press reports an expired task iff it is a mode or batch-upload press whose panel no longer maps to a group |
| Router.StoreIrrelevant | tg/tg-bot-upload/tgBotUpload.js:218-507 | only mode and batch-upload presses depend on the store |
| Router.Respond | tg/tg-bot-upload/tgBotUpload.js:218-507 | a batch starts only from a batch-upload press, with that press's directory and channel, for the group the panel maps to; a single upload keeps the press's directory and channel; the panel is deleted iff the press cancels or closes; an ignored request is never answered |
| Router.Route | tg/tg-bot-upload/tgBotUpload.js:218-507 | an answered press carries a payload passing one of the tests, and a payload passing none is neither answered nor acted on |
| Router.ChannelButtonRedraws | tg/tg-bot-upload/tgBotUpload.js:225-236 | a channel button redraws the unified panel with that channel checked and names it |
| Router.DirButtonStartsBatch | tg/tg-bot-upload/tgBotUpload.js:305-315 | a directory button on a live group panel starts the batch upload of that group there, with the checked channel |
| Router.DeliveredPanelStartsBatch | tg/tg-bot-upload/tgBotUpload.js:207-311 | the panel a delivery sent leads every directory press on it to the delivery's group |
| Router.SingleUploadSource | tg/tg-bot-upload/tgBotUpload.js:381-392 | a single upload takes the panel's own file, else the replied-to message's, and reports the file gone iff neither has one |

## Left out

- Every HTTP call is replaced by a parameter or a recorded action: the Telegram Bot API and the image host's upload and list endpoints. This includes message edits and deletions, callback answers, `getFile`, and the file downloads.
- Concurrency, except for the one two-delivery interleaving in `Batch.RaceSendsTwoPanels`. Each delivery is otherwise one atomic step.
- The random delay (lines 188-189) does not change which interleavings are possible, so it is not modelled.
- Random name tags and `Date.now()` become the `Media.NameSeed` parameter.
- Key expiry (one hour) is not modelled as time. A key that has expired is a key absent from the map.
- `JSON.stringify`/`JSON.parse` of a media record is taken as a round trip. The store holds the record itself.
- Listing order is the store's. The batch handlers take the listed keys as a given sequence.
- `Media.ParseUrl` is a simplified splitter, not the WHATWG URL parser. It handles:
  - the scheme;
  - the authority up to `/`, `?` or `#`;
  - the path and the query.

  It does no percent-decoding, no `+` decoding in `searchParams.get`, and no userinfo or port handling.
- Media.InferName: the last segment is taken from the raw link text, where `new URL(...).pathname` (line 742) is normalised. So `Media.SegmentName` and `Media.InferName` differ from the code on:
  - non-ASCII characters, `"`, `<`, `>`, the backtick, `{` and `}` in the path, which the code percent-encodes (`图片.png` is named `%E5%9B%BE%E7%89%87.png`);
  - the dot segments `.` and `..`, which the code removes (`https://h/a.png/..` falls back to `base.jpg`);
  - `\`, which the code reads as `/`;
  - host code points such as `<` or `%` that make `new URL` throw, so the code falls back to `.jpg` at line 751.

  The `Media.ParseUrl` line above lists the splitter's other simplifications.
- Media.SegmentName: names the raw last segment, so it is weaker than the code on the links listed in the `Media.InferName` line.
- `toLowerCase` is modelled on ASCII letters only (`Strings.LowerAscii`).
- Left out as user-interface text or network work with no logic of interest:
  - `handleUpdate`'s command routing and the `/init`, `/reset`, `/clean`, `/info` commands;
  - `clearAllKV`, `setupBotCommands`, `delayDelete`;
  - `formatFileSize`, `formatTimestamp`;
  - the listing text of `renderFilePage` apart from numbering and page buttons;
  - `sendRandomPanel`, and `renderRandomImage` apart from its keyboard.
- The `ACCESS_URL` rewrite of a link (lines 693 and 832) is not modelled. The access link equals the origin link, as when `ACCESS_URL` is unset.
- `Router.Respond`: the separate-mode branch is recorded as `SeparatePanels(group)`. The model does not follow the per-file panel sends that come after it.
- `Router.Respond`: the batch branch is recorded as `StartBatch`. The "no files found" message for an empty listing (lines 328-334) is not a separate outcome.
- `Router.Respond`: the "already selected" answer in the catch of the channel switch (line 251) is folded into "answered". A non-OK reply does not make `fetch` throw, so that catch runs only on network errors.
- `Upload.Interpret`: the error text (`JSON.stringify(result)`) of a rejected upload is not modelled. Only the failure reason is kept.
- Strings.ParseInt: a page is an unbounded integer. A JavaScript number loses precision above 2^53, and `${page}` writes 1e21 and above in exponent form; neither is reproduced.
- `tg/tg-monitor/main.py` is not part of this model.

## Findings

| source | as written | input that shows it | evidently intended | confidence | as-written member | corrected member |
|---|---|---|---|---|---|---|
| tg/tg-bot-upload/tgBotUpload.js:191-195 | the panel claim is a read of the panel key followed later by a write, so concurrent deliveries of one media group can both see it unclaimed | two deliveries of a fresh group whose `get(panelKey)` both happen before either `put` | one mode question per media group | not executed | Batch.RaceSendsTwoPanels | Batch.OnePanelPerGroup |
| tg/tg-bot-upload/tgBotUpload.js:341 | the record is read outside the `try`; a listed key whose value is gone yields `null`, the name lookup throws in the `try` and again in the `catch`, and `Promise.all` rejects, so no report is sent | a listed key that expires, or is not yet visible, between `list` and `get` | that file reported as one failed entry, the others as usual | not executed | Report.MissingRecordAborts | Report.Aggregate |
