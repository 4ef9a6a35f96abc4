/**
 * Batch coordination over the key-value store. Every file of a media group
 * is parked under a per-file key; the first delivery of a group claims the
 * group's panel key and sends the mode question, and the question's
 * message id is mapped back to the group so that a later button press can
 * find the files again.
 */
module Batch {
  import opened Wrappers
  import opened Strings
  import opened Media

  /** A stored value: a plain string, or a media record (kept as JSON by the
      store, and read back as the same record). */
  datatype Value = Text(text: string) | Record(media: MediaRef)

  type Store = map<string, Value>

  function FilePrefix(group: string): string {
    "batch:" + group + ":file:"
  }

  function FileKey(group: string, fileId: string): string {
    FilePrefix(group) + fileId
  }

  function PanelKey(group: string): string {
    "batch:" + group + ":panel"
  }

  function MapKey(chat: int, message: int): string {
    "map:" + ShowInt(chat) + ":" + ShowInt(message)
  }

  const Pending := "pending"

  /** `await get(panelKey)` is truthy: present and not the empty string. */
  predicate PanelClaimed(kv: Store, group: string) {
    PanelKey(group) in kv && kv[PanelKey(group)] != Text("")
  }

  /** One media-group message reaching the bot. `reply` is the id of the
      panel message when sending it answered `ok`; it is only consulted when
      a panel is sent. */
  datatype Delivery = Delivery(chat: int, message: int, group: string, media: MediaRef, reply: Option<int>)

  datatype Step = Step(store: Store, panel: bool)

  // ---------------------------------------------------------------------------
  // The two halves of a delivery

  /** The unconditional write of the file record. */
  function PutFile(kv: Store, d: Delivery): (kv': Store)
    ensures kv'.Keys == kv.Keys + {FileKey(d.group, d.media.fileId)}
  {
    kv[FileKey(d.group, d.media.fileId) := Record(d.media)]
  }

  /** What follows the read of the panel key: unless the read saw a claim,
      write the sentinel, send the panel and, when the send answered, map
      its message to the group. */
  function Claim(kv: Store, d: Delivery, sawPanel: bool): (s: Step)
    ensures s.panel == !sawPanel
  {
    if sawPanel then Step(kv, false)
    else
      var kv1 := kv[PanelKey(d.group) := Text(Pending)];
      match d.reply
      case Some(id) => Step(kv1[MapKey(d.chat, id) := Text(d.group)], true)
      case None => Step(kv1, true)
  }

  /** `handleBatchPreProcess` taken as one atomic step: the file record is
      always written; a panel is sent exactly when the group's panel key was
      not claimed; the map entry is written only for a panel whose send
      answered. No other key changes; without a panel, only the file key does. */
  function Deliver(kv: Store, d: Delivery): (s: Step)
    ensures s.panel <==> !PanelClaimed(kv, d.group)
    ensures s.store.Keys == kv.Keys + {FileKey(d.group, d.media.fileId)}
                            + (if s.panel then {PanelKey(d.group)} else {})
                            + (if s.panel then MapKeys(d) else {})
    ensures s.store[FileKey(d.group, d.media.fileId)] == Record(d.media)
    ensures s.panel ==> s.store[PanelKey(d.group)] == Text(Pending)
    ensures s.panel && d.reply.Some? ==> s.store[MapKey(d.chat, d.reply.value)] == Text(d.group)
    ensures forall k :: (k in kv && k != FileKey(d.group, d.media.fileId)
                         && (s.panel ==> k != PanelKey(d.group) && k !in MapKeys(d))) ==> s.store[k] == kv[k]
  {
    var kv1 := PutFile(kv, d);
    FileNotPanel(d.group, d.media.fileId);
    MapKeysApart(d);
    Claim(kv1, d, PanelClaimed(kv1, d.group))
  }

  function MapKeys(d: Delivery): set<string> {
    if d.reply.Some? then {MapKey(d.chat, d.reply.value)} else {}
  }

  // ---------------------------------------------------------------------------
  // Keys do not collide

  lemma FileNotPanel(group: string, fileId: string)
    ensures FileKey(group, fileId) != PanelKey(group)
  {
    var n := |"batch:" + group|;
    assert FileKey(group, fileId)[n + 1] == 'f';
    assert PanelKey(group)[n + 1] == 'p';
  }

  lemma MapKeysApart(d: Delivery)
    ensures forall k :: k in MapKeys(d) ==> k[0] == 'm'
    ensures FileKey(d.group, d.media.fileId)[0] == 'b' && PanelKey(d.group)[0] == 'b'
  {
  }

  /** Two group keys share their group part when the groups hold no ':'. */
  lemma GroupOfKey(g: string, h: string, y: string)
    requires Free(g) && Free(h)
    requires StartsWith("batch:" + h + ":" + y, "batch:" + g + ":")
    ensures g == h
  {
    var s := "batch:" + h + ":" + y;
    var p := "batch:" + g + ":";
    assert s[6..] == h + ":" + y;
    assert p[6..] == g + ":";
    assert s[6..][..|g| + 1] == s[6..|p|] == p[6..];
    FreeHeadUnique(g, h, ':', y);
  }

  predicate Free(s: string) {
    ':' !in s
  }

  /** A file key is listed under exactly its own group's prefix, and no panel
      or map key is listed at all. */
  lemma Listed(g: string, h: string, fileId: string, chat: int, message: int)
    requires Free(g) && Free(h)
    ensures StartsWith(FileKey(h, fileId), FilePrefix(g)) <==> g == h
    ensures !StartsWith(PanelKey(h), FilePrefix(g))
    ensures !StartsWith(MapKey(chat, message), FilePrefix(g))
  {
    if StartsWith(FileKey(h, fileId), FilePrefix(g)) {
      assert FileKey(h, fileId) == "batch:" + h + ":" + ("file:" + fileId);
      assert StartsWith(FileKey(h, fileId), "batch:" + g + ":");
      GroupOfKey(g, h, "file:" + fileId);
    }
    PanelNotListed(g, h);
    assert MapKey(chat, message)[0] != FilePrefix(g)[0];
  }

  /** A panel key never starts with a file prefix: the two differ where the
      shorter group ends, or at the word after it when the groups agree. */
  lemma PanelNotListed(g: string, h: string)
    requires Free(g) && Free(h)
    ensures !StartsWith(PanelKey(h), FilePrefix(g))
  {
    var key, prefix := PanelKey(h), FilePrefix(g);
    if |g| == |h| {
      assert key[|g| + 7] == 'p' && prefix[|g| + 7] == 'f';
    } else if |g| < |h| {
      assert key[|g| + 6] == h[|g|] && prefix[|g| + 6] == ':';
    } else {
      assert key[|h| + 6] == ':' && prefix[|h| + 6] == g[|h|];
    }
  }

  lemma PanelKeysApart(g: string, h: string, fileId: string)
    requires Free(g) && Free(h) && g != h
    ensures PanelKey(h) != PanelKey(g) && PanelKey(h) != FileKey(g, fileId)
  {
    assert PanelKey(h)[..|PanelKey(h)| - 6] == "batch:" + h;
    assert PanelKey(g)[..|PanelKey(g)| - 6] == "batch:" + g;
    assert ("batch:" + h)[6..] == h && ("batch:" + g)[6..] == g;
    Listed(g, h, fileId, 0, 0);
    assert StartsWith(FileKey(g, fileId), FilePrefix(g));
  }

  // ---------------------------------------------------------------------------
  // Sequential runs

  datatype Trace = Trace(store: Store, panels: seq<bool>)

  /** Deliveries handled one after another, each as one atomic step;
      `panels[i]` says whether delivery `i` sent a panel. */
  function Run(kv: Store, ds: seq<Delivery>): (t: Trace)
    ensures |t.panels| == |ds|
  {
    if ds == [] then Trace(kv, [])
    else
      var t := Run(kv, ds[..|ds| - 1]);
      var s := Deliver(t.store, Last(ds));
      Trace(s.store, t.panels + [s.panel])
  }

  /** Media group ids are numeric strings: they hold no ':'. */
  predicate Groups(ds: seq<Delivery>) {
    forall i :: 0 <= i < |ds| ==> Free(ds[i].group)
  }

  /** Some delivery of `ds` belongs to group `g` (see `MentionsIff`). */
  predicate Mentions(ds: seq<Delivery>, g: string) {
    ds != [] && (Mentions(ds[..|ds| - 1], g) || Last(ds).group == g)
  }

  lemma {:induction false} MentionsIff(ds: seq<Delivery>, g: string)
    ensures Mentions(ds, g) <==> exists i :: 0 <= i < |ds| && ds[i].group == g
  {
    if ds != [] {
      var front := ds[..|ds| - 1];
      MentionsIff(front, g);
      if exists i :: 0 <= i < |ds| && ds[i].group == g {
        var i :| 0 <= i < |ds| && ds[i].group == g;
        if i < |ds| - 1 {
          assert front[i].group == g;
        }
      }
      if exists i :: 0 <= i < |front| && front[i].group == g {
        var i :| 0 <= i < |front| && front[i].group == g;
        assert ds[i].group == g;
      }
    }
  }

  /** A delivery claims its own group's panel key and leaves every other
      group's claim as it was. */
  lemma ClaimAfterDeliver(kv: Store, d: Delivery, g: string)
    requires Free(g) && Free(d.group)
    ensures PanelClaimed(Deliver(kv, d).store, g) <==> PanelClaimed(kv, g) || g == d.group
  {
    var s := Deliver(kv, d);
    FileNotPanel(d.group, d.media.fileId);
    if g != d.group {
      PanelKeysApart(d.group, g, d.media.fileId);
      MapKeysApart(d);
      assert PanelKey(g)[0] == 'b';
      assert PanelKey(g) !in MapKeys(d);
    } else if !s.panel {
      assert PanelKey(g) in kv;
    }
  }

  lemma RunSnoc(kv: Store, ds: seq<Delivery>)
    requires ds != []
    ensures var t := Run(kv, ds[..|ds| - 1]);
            Run(kv, ds).panels == t.panels + [!PanelClaimed(t.store, Last(ds).group)]
  {
  }

  lemma {:induction false} RunClaims(kv: Store, ds: seq<Delivery>, g: string)
    requires Groups(ds) && Free(g)
    ensures PanelClaimed(Run(kv, ds).store, g) <==> PanelClaimed(kv, g) || Mentions(ds, g)
  {
    if ds != [] {
      var front := ds[..|ds| - 1];
      assert Groups(front) by {
        assert forall i :: 0 <= i < |front| ==> front[i] == ds[i];
      }
      RunClaims(kv, front, g);
      ClaimAfterDeliver(Run(kv, front).store, Last(ds), g);
    }
  }

  lemma GroupsFront(ds: seq<Delivery>)
    requires Groups(ds) && ds != []
    ensures Groups(ds[..|ds| - 1])
  {
    assert forall i :: 0 <= i < |ds| - 1 ==> ds[..|ds| - 1][i] == ds[i];
  }

  /** The last delivery of a run sends a panel exactly when its group is
      unclaimed after the deliveries before it. */
  lemma RunPanelsLast(kv: Store, ds: seq<Delivery>)
    requires Groups(ds) && ds != []
    ensures Run(kv, ds).panels[|ds| - 1]
            <==> !PanelClaimed(kv, Last(ds).group) && !Mentions(ds[..|ds| - 1], Last(ds).group)
  {
    GroupsFront(ds);
    RunSnoc(kv, ds);
    RunClaims(kv, ds[..|ds| - 1], Last(ds).group);
  }

  /** In a sequential run, delivery `i` sends a panel exactly when its group
      was unclaimed at the start and no earlier delivery belongs to it. */
  lemma {:induction false} RunPanelAt(kv: Store, ds: seq<Delivery>, i: int)
    requires Groups(ds) && 0 <= i < |ds|
    ensures Run(kv, ds).panels[i] <==> !PanelClaimed(kv, ds[i].group) && !Mentions(ds[..i], ds[i].group)
    decreases |ds|
  {
    var n := |ds| - 1;
    if i == n {
      RunPanelsLast(kv, ds);
    } else {
      var front := ds[..n];
      GroupsFront(ds);
      RunSnoc(kv, ds);
      assert Run(kv, ds).panels[i] == Run(kv, front).panels[i];
      RunPanelAt(kv, front, i);
      assert ds[i] == front[i] && ds[..i] == front[..i];
    }
  }

  lemma RunPanels(kv: Store, ds: seq<Delivery>)
    requires Groups(ds)
    ensures forall i :: 0 <= i < |ds| ==>
              (Run(kv, ds).panels[i] <==> !PanelClaimed(kv, ds[i].group) && !Mentions(ds[..i], ds[i].group))
  {
    forall i | 0 <= i < |ds|
      ensures Run(kv, ds).panels[i] <==> !PanelClaimed(kv, ds[i].group) && !Mentions(ds[..i], ds[i].group)
    {
      RunPanelAt(kv, ds, i);
    }
  }

  /** Only the first delivery of a group can send its panel, and when the
      group was unclaimed at the start, the first delivery does. */
  lemma OnePanelPerGroup(kv: Store, ds: seq<Delivery>, i: int, j: int)
    requires Groups(ds)
    requires 0 <= i < j < |ds| && ds[i].group == ds[j].group
    ensures !Run(kv, ds).panels[j]
    ensures Run(kv, ds).panels[i] <==> !PanelClaimed(kv, ds[i].group) && !Mentions(ds[..i], ds[i].group)
  {
    RunPanels(kv, ds);
    MentionsIff(ds[..j], ds[j].group);
    assert ds[..j][i].group == ds[j].group;
  }

  /** The number of panels a run sends. */
  function PanelCount(panels: seq<bool>): nat {
    if panels == [] then 0 else PanelCount(panels[..|panels| - 1]) + (if Last(panels) then 1 else 0)
  }

  /** Deliveries of one group into a store that has no claim for it send
      exactly one panel. */
  lemma {:induction false} OneGroupOnePanel(kv: Store, ds: seq<Delivery>, g: string)
    requires Free(g) && !PanelClaimed(kv, g)
    requires |ds| > 0 && forall i :: 0 <= i < |ds| ==> ds[i].group == g
    ensures PanelCount(Run(kv, ds).panels) == 1
  {
    RunPanels(kv, ds);
    var n := |ds| - 1;
    if n == 0 {
      assert Run(kv, ds).panels == [true] by {
        assert Run(kv, ds).panels[0];
      }
    } else {
      var front := ds[..n];
      OneGroupOnePanel(kv, front, g);
      assert ds[..n][0].group == g;
      assert !Run(kv, ds).panels[n];
      assert Run(kv, ds).panels[..n] == Run(kv, front).panels;
    }
  }

  // ---------------------------------------------------------------------------
  // Listing a group's files

  /** `list({prefix: "batch:<g>:file:"})`, as a set of key names. */
  function ListFiles(kv: Store, g: string): (keys: set<string>)
    ensures forall k :: k in keys <==> k in kv && StartsWith(k, FilePrefix(g))
  {
    set k | k in kv.Keys && StartsWith(k, FilePrefix(g))
  }

  /** The file keys a run adds for group `g`. */
  function Files(ds: seq<Delivery>, g: string): set<string> {
    if ds == [] then {}
    else Files(ds[..|ds| - 1], g) + (if Last(ds).group == g then {FileKey(g, Last(ds).media.fileId)} else {})
  }

  lemma {:induction false} FilesAre(ds: seq<Delivery>, g: string, k: string)
    ensures k in Files(ds, g) <==> exists i :: 0 <= i < |ds| && ds[i].group == g && k == FileKey(g, ds[i].media.fileId)
  {
    if ds != [] {
      var front := ds[..|ds| - 1];
      FilesAre(front, g, k);
      if exists i :: 0 <= i < |ds| && ds[i].group == g && k == FileKey(g, ds[i].media.fileId) {
        var i :| 0 <= i < |ds| && ds[i].group == g && k == FileKey(g, ds[i].media.fileId);
        if i < |ds| - 1 {
          assert front[i] == ds[i];
        }
      }
      if exists i :: 0 <= i < |front| && front[i].group == g && k == FileKey(g, front[i].media.fileId) {
        var i :| 0 <= i < |front| && front[i].group == g && k == FileKey(g, front[i].media.fileId);
        assert ds[i] == front[i];
      }
    }
  }

  /** A delivery adds its own file key to its own group's listing, and to no
      other group's; panel and map keys are never listed. */
  lemma ListAfterDeliver(kv: Store, d: Delivery, g: string)
    requires Free(g) && Free(d.group)
    ensures ListFiles(Deliver(kv, d).store, g)
            == ListFiles(kv, g) + (if d.group == g then {FileKey(g, d.media.fileId)} else {})
  {
    var s := Deliver(kv, d);
    Listed(g, d.group, d.media.fileId, d.chat, d.reply.GetOr(0));
  }

  /** After a sequential run, a group's listing is what the store listed
      before plus one key per delivered file of that group. */
  lemma {:induction false} ListAfterRun(kv: Store, ds: seq<Delivery>, g: string)
    requires Groups(ds) && Free(g)
    ensures ListFiles(Run(kv, ds).store, g) == ListFiles(kv, g) + Files(ds, g)
  {
    if ds != [] {
      var front := ds[..|ds| - 1];
      ListAfterRun(kv, front, g);
      ListAfterDeliver(Run(kv, front).store, Last(ds), g);
    }
  }

  /** Every file key holds a media record: the shape the batch handlers
      read back. */
  ghost predicate FileRecords(kv: Store) {
    forall k :: k in kv && kv[k].Text? ==> !IsFileKey(k)
  }

  ghost predicate IsFileKey(k: string) {
    exists g, f :: Free(g) && k == FileKey(g, f)
  }

  lemma {:induction false} RunKeepsRecords(kv: Store, ds: seq<Delivery>)
    requires Groups(ds) && FileRecords(kv)
    ensures FileRecords(Run(kv, ds).store)
  {
    if ds != [] {
      var front := ds[..|ds| - 1];
      RunKeepsRecords(kv, front);
      DeliverKeepsRecords(Run(kv, front).store, Last(ds));
    }
  }

  /** One delivery writes text only under its panel and map keys. */
  lemma DeliverKeepsRecords(kv: Store, d: Delivery)
    requires Free(d.group) && FileRecords(kv)
    ensures FileRecords(Deliver(kv, d).store)
  {
    var s := Deliver(kv, d);
    forall k | k in s.store && s.store[k].Text? && IsFileKey(k)
      ensures false
    {
      var g, f :| Free(g) && k == FileKey(g, f);
      Listed(g, d.group, f, d.chat, d.reply.GetOr(0));
      assert StartsWith(k, FilePrefix(g));
    }
  }

  // ---------------------------------------------------------------------------
  // Finding the group from a panel message

  /** `get("map:<chat>:<message>")` taken as the group, when truthy. */
  function GroupOf(kv: Store, chat: int, message: int): (g: Option<string>)
    ensures g.Some? <==> MapKey(chat, message) in kv && kv[MapKey(chat, message)].Text?
                         && kv[MapKey(chat, message)].text != ""
    ensures g.Some? ==> Text(g.value) == kv[MapKey(chat, message)]
  {
    var k := MapKey(chat, message);
    if k in kv && kv[k].Text? && kv[k].text != "" then Some(kv[k].text) else None
  }

  /** The panel message a delivery sent leads back to the delivery's group. */
  lemma PanelFindsGroup(kv: Store, d: Delivery)
    requires d.group != "" && d.reply.Some? && !PanelClaimed(kv, d.group)
    ensures GroupOf(Deliver(kv, d).store, d.chat, d.reply.value) == Some(d.group)
  {
  }

  // ---------------------------------------------------------------------------
  // The handler as written: read and claim are separate steps

  /** The first half of the handler: park the file and read the claim. */
  function Observe(kv: Store, d: Delivery): (r: (Store, bool))
    ensures r.0 == PutFile(kv, d)
    ensures r.1 <==> PanelClaimed(r.0, d.group)
  {
    var kv1 := PutFile(kv, d);
    (kv1, PanelClaimed(kv1, d.group))
  }

  /** Two deliveries of the same fresh group whose reads both happen before
      either claim both send a panel: the read-then-write on the panel key
      is not a lock, whatever delay precedes it. */
  lemma RaceSendsTwoPanels(kv: Store, d1: Delivery, d2: Delivery)
    requires d1.group == d2.group && Free(d1.group) && PanelKey(d1.group) !in kv
    ensures var (kv1, saw1) := Observe(kv, d1);
            var (kv2, saw2) := Observe(kv1, d2);
            var s1 := Claim(kv2, d1, saw1);
            var s2 := Claim(s1.store, d2, saw2);
            s1.panel && s2.panel
  {
    FileNotPanel(d1.group, d1.media.fileId);
    FileNotPanel(d2.group, d2.media.fileId);
  }

  /** The same two deliveries taken as atomic steps send one panel. */
  lemma AtomicSendsOnePanel(kv: Store, d1: Delivery, d2: Delivery)
    requires d1.group == d2.group && Free(d1.group) && PanelKey(d1.group) !in kv
    ensures Run(kv, [d1, d2]).panels == [true, false]
  {
    OnePanelPerGroup(kv, [d1, d2], 0, 1);
    assert [d1, d2][..1] == [d1];
    assert [d1, d2][..0] == [];
  }
}
