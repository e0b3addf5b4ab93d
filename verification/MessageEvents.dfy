/** Turning one received message into host events: `handle_content` and `emit_data_message`. */
module MessageEvents {
  import opened Common
  import opened Contents

  datatype Kind = MessageEvent | GroupMessageEvent | AttachmentEvent | ErrorEvent | TypingEvent | ReceiptEvent

  datatype Event = Event(kind: Kind, requestId: nat, outgoing: bool, text: Option<string>, data: nat)

  datatype Disposition = AwaitingAck | Complete | Retry

  const MAX_ATTACHMENT_SIZE_BYTES: nat := 50 * 1024 * 1024
  const MAX_ATTACHMENT_DOWNLOADS_PER_MESSAGE: nat := 32
  const MAX_SIGNAL_GIF_TRANSCODES_PER_MESSAGE: nat := 2

  /** The kinds of event the host acknowledges when they carry a delivery id. */
  predicate Acknowledged(e: Event) {
    e.kind.MessageEvent? || e.kind.GroupMessageEvent? || e.kind.AttachmentEvent?
  }

  function ErrorReport(): Event { Event(ErrorEvent, 0, false, None, 0) }

  // ----- what the network and the store answer while one message is handled -----

  datatype GroupAnswer = Active | Left | Leaving | ReadFailed

  datatype World = World(
    group: GroupAnswer,
    download: nat -> Option<nat>,   // length of the decrypted attachment, by index
    transcode: nat -> Option<nat>,  // length of the animation made from a GIF video, by index
    inline: nat -> bool,            // whether the host will show the attachment inline
    receiptBacklogFull: bool)

  datatype Downloaded = Downloaded(index: nat, data: nat, gifVideo: bool)

  // ----- downloads -----

  function DownloadLimit(attachments: seq<Attachment>): nat {
    if |attachments| < MAX_ATTACHMENT_DOWNLOADS_PER_MESSAGE then |attachments|
    else MAX_ATTACHMENT_DOWNLOADS_PER_MESSAGE
  }

  /** What one attachment contributes: itself, or an error report. */
  function DownloadOne(a: Attachment, i: nat, w: World): Option<Downloaded> {
    if a.sizeHint.Some? && a.sizeHint.value > MAX_ATTACHMENT_SIZE_BYTES then None
    else match w.download(i)
      case None => None
      case Some(n) =>
        var length := if a.sizeHint.Some? && a.sizeHint.value < n then a.sizeHint.value else n;
        if length > MAX_ATTACHMENT_SIZE_BYTES || length == 0 then None
        else Some(Downloaded(i, length, a.gifVideo))
  }

  function DownloadsFrom(attachments: seq<Attachment>, w: World, i: nat): seq<Downloaded>
    decreases DownloadLimit(attachments) - i
  {
    if i >= DownloadLimit(attachments) then []
    else
      match DownloadOne(attachments[i], i, w)
      case Some(d) => [d] + DownloadsFrom(attachments, w, i + 1)
      case None => DownloadsFrom(attachments, w, i + 1)
  }

  function DownloadErrorsFrom(attachments: seq<Attachment>, w: World, i: nat): seq<Event>
    decreases DownloadLimit(attachments) - i
  {
    if i >= DownloadLimit(attachments) then []
    else
      match DownloadOne(attachments[i], i, w)
      case Some(_) => DownloadErrorsFrom(attachments, w, i + 1)
      case None => [ErrorReport()] + DownloadErrorsFrom(attachments, w, i + 1)
  }

  function Downloads(m: DataMessage, outgoing: bool, w: World): seq<Downloaded> {
    if outgoing then [] else DownloadsFrom(m.attachments, w, 0)
  }

  function DownloadErrors(m: DataMessage, outgoing: bool, w: World): seq<Event> {
    if outgoing then []
    else (if |m.attachments| > MAX_ATTACHMENT_DOWNLOADS_PER_MESSAGE then [ErrorReport()] else [])
         + DownloadErrorsFrom(m.attachments, w, 0)
  }

  // ----- GIF videos -----

  function TranscodeOne(d: Downloaded, w: World): Downloaded {
    match w.transcode(d.index)
    case None => d
    case Some(n) => d.(data := n, gifVideo := false)
  }

  function Transcode(ds: seq<Downloaded>, w: World, used: nat): seq<Downloaded> {
    if ds == [] || used >= MAX_SIGNAL_GIF_TRANSCODES_PER_MESSAGE then ds
    else if !ds[0].gifVideo then [ds[0]] + Transcode(ds[1..], w, used)
    else [TranscodeOne(ds[0], w)] + Transcode(ds[1..], w, used + 1)
  }

  // ----- text -----

  /** Placeholders for the attachments that are not shown inline, each on its own line. */
  function WithPlaceholders(text: string, attachments: seq<Attachment>, inlined: set<nat>, i: nat): string
    decreases |attachments| - i
  {
    if i >= |attachments| then text
    else if i in inlined then WithPlaceholders(text, attachments, inlined, i + 1)
    else
      WithPlaceholders((if text == "" then "" else text + "\n") + "[Attachment: " + attachments[i].name + "]",
                       attachments, inlined, i + 1)
  }

  /** An attachment is shown inline only if it was downloaded and qualifies. */
  function InlineIndexes(ds: seq<Downloaded>, w: World): set<nat> {
    set d | d in ds && w.inline(d.index) :: d.index
  }

  // ----- the events of one data message -----

  function MessageKind(m: DataMessage): Kind {
    if m.target.Direct? then MessageEvent else GroupMessageEvent
  }

  function TextEvents(m: DataMessage, outgoing: bool, text: string, id: nat): seq<Event> {
    if text == "" then [] else [Event(MessageKind(m), id, outgoing, Some(text), 0)]
  }

  function AttachmentEvents(ds: seq<Downloaded>, id: nat): seq<Event> {
    if ds == [] then []
    else [Event(AttachmentEvent, if |ds| == 1 then id else 0, false, None, ds[0].data)]
         + AttachmentEvents(ds[1..], id)
  }

  datatype Handled = Handled(events: seq<Event>, disposition: Disposition)

  /** The attachments that reach the host, after downloading and transcoding. */
  function Files(m: DataMessage, outgoing: bool, w: World): seq<Downloaded> {
    Transcode(Downloads(m, outgoing, w), w, 0)
  }

  function ShownText(m: DataMessage, ds: seq<Downloaded>, w: World): string {
    WithPlaceholders(m.text, m.attachments, InlineIndexes(ds, w), 0)
  }

  /** The message and attachment events of a message that is shown. */
  function ShownEvents(m: DataMessage, outgoing: bool, id: nat, w: World): seq<Event> {
    var ds := Files(m, outgoing, w);
    TextEvents(m, outgoing, ShownText(m, ds, w), if ds == [] then id else 0) + AttachmentEvents(ds, id)
  }

  function DataMessageEvents(m: DataMessage, outgoing: bool, id: nat, w: World): Handled {
    if m.target.Malformed? then Handled([ErrorReport()], Complete)
    else if m.text == "" && m.attachments == [] then Handled([], Complete)
    else if m.target.Group? && w.group.Left? then Handled([], Complete)
    else if m.target.Group? && w.group.Leaving? then Handled([], Retry)
    else if m.target.Group? && w.group.ReadFailed? then Handled([ErrorReport()], Retry)
    else Handled(DownloadErrors(m, outgoing, w) + ShownEvents(m, outgoing, id, w), AwaitingAck)
  }

  /** `handle_content` for a local account `self`. */
  function HandleContent(c: Content, self: ServiceId, id: nat, w: World): Handled {
    var outgoing := c.body.SyncSent? || c.identity.sender == self;
    match c.body
    case Data(m, needsReceipt) =>
      var h := DataMessageEvents(m, outgoing, id, w);
      if needsReceipt && w.receiptBacklogFull then h.(events := h.events + [ErrorReport()]) else h
    case Edit(Some(m)) => DataMessageEvents(m, outgoing, id, w)
    case SyncSent(Some(m), _) => DataMessageEvents(m, true, id, w)
    case SyncSent(None, Some(m)) => DataMessageEvents(m, true, id, w)
    case Typing(false) => Handled([Event(TypingEvent, 0, false, None, 0)], Complete)
    case Receipt => Handled([Event(ReceiptEvent, 0, false, None, 0)], Complete)
    case DecryptionError => Handled([ErrorReport()], Complete)
    case _ => Handled([], Complete)
  }

  // ----- exactly one final acknowledgement -----

  /** The events the host would acknowledge, in order. */
  function Projected(events: seq<Event>): seq<Event> {
    if events == [] then []
    else (if Acknowledged(events[0]) then [events[0]] else []) + Projected(events[1..])
  }

  lemma {:induction false} ProjectedAppend(a: seq<Event>, b: seq<Event>)
    ensures Projected(a + b) == Projected(a) + Projected(b)
  {
    if a == [] {
      assert a + b == b;
    } else {
      var head := if Acknowledged(a[0]) then [a[0]] else [];
      assert (a + b)[0] == a[0] && (a + b)[1..] == a[1..] + b;
      ProjectedAppend(a[1..], b);
      Associative(head, Projected(a[1..]), Projected(b));
    }
  }

  lemma {:induction false} ProjectedNone(events: seq<Event>)
    requires forall e :: e in events ==> !Acknowledged(e)
    ensures Projected(events) == []
  {
    if events != [] {
      ProjectedNone(events[1..]);
    }
  }

  lemma {:induction false} ProjectedAll(events: seq<Event>)
    requires forall e :: e in events ==> Acknowledged(e)
    ensures Projected(events) == events
  {
    if events != [] {
      ProjectedAll(events[1..]);
      assert events == [events[0]] + events[1..];
    }
  }

  /** Acknowledging `id` means every message and attachment event has been seen: it is carried
      by the last of them and by no other. */
  ghost predicate OneFinalAck(events: seq<Event>, id: nat) {
    var p := Projected(events);
    && p != [] && p[|p| - 1].requestId == id
    && forall i :: 0 <= i < |p| - 1 ==> p[i].requestId == 0
  }

  lemma {:induction false} DownloadErrorsUnacknowledged(attachments: seq<Attachment>, w: World, i: nat)
    ensures forall e :: e in DownloadErrorsFrom(attachments, w, i) ==> e == ErrorReport()
    decreases DownloadLimit(attachments) - i
  {
    if i < DownloadLimit(attachments) {
      DownloadErrorsUnacknowledged(attachments, w, i + 1);
    }
  }

  // ----- which attachments reach the host -----

  /** Strictly in the order of the message. */
  ghost predicate InOrder(ds: seq<Downloaded>) {
    forall j, k :: 0 <= j < k < |ds| ==> ds[j].index < ds[k].index
  }

  ghost predicate Includes(ds: seq<Downloaded>, index: nat) {
    exists k :: 0 <= k < |ds| && ds[k].index == index
  }

  predicate Usable(attachments: seq<Attachment>, w: World, index: nat) {
    index < DownloadLimit(attachments) && DownloadOne(attachments[index], index, w).Some?
  }

  ghost predicate InOrderFrom(ds: seq<Downloaded>, i: nat) {
    InOrder(ds) && forall k :: 0 <= k < |ds| ==> i <= ds[k].index
  }

  lemma {:induction false} DownloadsInOrder(attachments: seq<Attachment>, w: World, i: nat)
    ensures InOrderFrom(DownloadsFrom(attachments, w, i), i)
    decreases DownloadLimit(attachments) - i
  {
    if i < DownloadLimit(attachments) {
      var rest := DownloadsFrom(attachments, w, i + 1);
      DownloadsInOrder(attachments, w, i + 1);
      match DownloadOne(attachments[i], i, w) {
        case Some(d) => InOrderCons(d, rest);
        case None => InOrderBelow(rest, i);
      }
    }
  }

  lemma {:induction false} DownloadsAreUsable(attachments: seq<Attachment>, w: World, i: nat, index: nat)
    ensures Includes(DownloadsFrom(attachments, w, i), index) <==> i <= index && Usable(attachments, w, index)
    decreases DownloadLimit(attachments) - i
  {
    if i < DownloadLimit(attachments) {
      DownloadsAreUsable(attachments, w, i + 1, index);
      match DownloadOne(attachments[i], i, w) {
        case Some(d) => IncludesCons(d, DownloadsFrom(attachments, w, i + 1), index);
        case None =>
      }
    }
  }

  lemma InOrderCons(d: Downloaded, ds: seq<Downloaded>)
    requires InOrderFrom(ds, d.index + 1)
    ensures InOrderFrom([d] + ds, d.index)
  {
    assert forall k :: 0 < k < |[d] + ds| ==> ([d] + ds)[k] == ds[k - 1];
  }

  lemma InOrderBelow(ds: seq<Downloaded>, i: nat)
    requires InOrderFrom(ds, i + 1)
    ensures InOrderFrom(ds, i)
  {
  }

  lemma IncludesCons(d: Downloaded, ds: seq<Downloaded>, index: nat)
    ensures Includes([d] + ds, index) <==> index == d.index || Includes(ds, index)
  {
    var all := [d] + ds;
    if k :| 0 <= k < |ds| && ds[k].index == index {
      assert all[k + 1].index == index;
    }
    if k :| 0 < k < |all| && all[k].index == index {
      assert ds[k - 1].index == index;
    }
    assert all[0] == d;
  }

  /** When an attachment is usable: its announced size and what arrived are within the limit, and
      what is left after cutting it to the announced size is not empty. */
  lemma UsableIff(a: Attachment, i: nat, w: World)
    ensures DownloadOne(a, i, w).Some? <==>
            && w.download(i).Some? && 0 < w.download(i).value
            && (a.sizeHint.Some? ==> 0 < a.sizeHint.value <= MAX_ATTACHMENT_SIZE_BYTES)
            && (a.sizeHint.None? ==> w.download(i).value <= MAX_ATTACHMENT_SIZE_BYTES)
    ensures DownloadOne(a, i, w).Some? ==>
            var d := DownloadOne(a, i, w).value;
            && d.index == i && d.gifVideo == a.gifVideo && d.data <= w.download(i).value
            && (a.sizeHint.Some? ==> d.data <= a.sizeHint.value)
            && (d.data == w.download(i).value || Some(d.data) == a.sizeHint)
  {
  }

  /** Every attachment within the download limit becomes a file or a report. */
  lemma {:induction false} FileOrReport(attachments: seq<Attachment>, w: World, i: nat)
    requires i <= DownloadLimit(attachments)
    ensures |DownloadsFrom(attachments, w, i)| + |DownloadErrorsFrom(attachments, w, i)| == DownloadLimit(attachments) - i
    decreases DownloadLimit(attachments) - i
  {
    if i < DownloadLimit(attachments) {
      FileOrReport(attachments, w, i + 1);
    }
  }

  /** The GIF videos among the files. */
  function Videos(ds: seq<Downloaded>): nat {
    if ds == [] then 0 else Videos(ds[..|ds| - 1]) + if ds[|ds| - 1].gifVideo then 1 else 0
  }

  lemma {:induction false} VideosCons(d: Downloaded, ds: seq<Downloaded>)
    ensures Videos([d] + ds) == (if d.gifVideo then 1 else 0) + Videos(ds)
  {
    if ds == [] {
      assert ([d] + ds)[..0] == [];
    } else {
      var front := ds[..|ds| - 1];
      assert ([d] + ds)[..|ds|] == [d] + front;
      VideosCons(d, front);
    }
  }

  /** A file is transcoded exactly if it is a GIF video with fewer than two before it. */
  lemma {:induction false} FirstTwoTranscoded(ds: seq<Downloaded>, w: World, used: nat, k: nat)
    requires k < |ds|
    ensures |Transcode(ds, w, used)| == |ds|
    ensures Transcode(ds, w, used)[k]
            == if ds[k].gifVideo && used + Videos(ds[..k]) < MAX_SIGNAL_GIF_TRANSCODES_PER_MESSAGE
                  && w.transcode(ds[k].index).Some?
               then ds[k].(data := w.transcode(ds[k].index).value, gifVideo := false) else ds[k]
    decreases |ds|
  {
    TranscodeKeepsIndexes(ds, w, used);
    if used < MAX_SIGNAL_GIF_TRANSCODES_PER_MESSAGE && k > 0 {
      var next := used + if ds[0].gifVideo then 1 else 0;
      assert ds[..k] == [ds[0]] + ds[1..][..k - 1] && ds[1..][k - 1] == ds[k];
      VideosCons(ds[0], ds[1..][..k - 1]);
      FirstTwoTranscoded(ds[1..], w, next, k - 1);
      assert Transcode(ds, w, used)[k] == Transcode(ds[1..], w, next)[k - 1];
    }
  }

  lemma {:induction false} TranscodeKeepsIndexes(ds: seq<Downloaded>, w: World, used: nat)
    ensures |Transcode(ds, w, used)| == |ds|
    ensures forall i :: 0 <= i < |ds| ==> Transcode(ds, w, used)[i].index == ds[i].index
  {
    if ds != [] && used < MAX_SIGNAL_GIF_TRANSCODES_PER_MESSAGE {
      TranscodeKeepsIndexes(ds[1..], w, used);
      TranscodeKeepsIndexes(ds[1..], w, used + 1);
      var r := if ds[0].gifVideo then Transcode(ds[1..], w, used + 1) else Transcode(ds[1..], w, used);
      forall i | 0 <= i < |ds|
        ensures Transcode(ds, w, used)[i].index == ds[i].index
      {
        if i > 0 {
          assert Transcode(ds, w, used)[i] == r[i - 1] && ds[1..][i - 1] == ds[i];
        }
      }
    }
  }

  lemma {:induction false} TextGrows(text: string, attachments: seq<Attachment>, inlined: set<nat>, i: nat)
    ensures text != "" ==> WithPlaceholders(text, attachments, inlined, i) != ""
    ensures i < |attachments| && i !in inlined ==> WithPlaceholders(text, attachments, inlined, i) != ""
    decreases |attachments| - i
  {
    if i < |attachments| {
      TextGrows(text, attachments, inlined, i + 1);
      TextGrows((if text == "" then "" else text + "\n") + "[Attachment: " + attachments[i].name + "]",
                attachments, inlined, i + 1);
    }
  }

  // ----- the text that is shown -----

  /** One line for every attachment from `i` on that is not shown inline, in order. */
  function PlaceholderLines(attachments: seq<Attachment>, inlined: set<nat>, i: nat): seq<string>
    decreases |attachments| - i
  {
    if i >= |attachments| then []
    else if i in inlined then PlaceholderLines(attachments, inlined, i + 1)
    else ["[Attachment: " + attachments[i].name + "]"] + PlaceholderLines(attachments, inlined, i + 1)
  }

  /** The lines of a message: its own text, if any, and the placeholders. */
  function Lines(text: string, attachments: seq<Attachment>, inlined: set<nat>): seq<string> {
    (if text == "" then [] else [text]) + PlaceholderLines(attachments, inlined, 0)
  }

  function Join(lines: seq<string>): string {
    if lines == [] then ""
    else if |lines| == 1 then lines[0]
    else Join(lines[..|lines| - 1]) + "\n" + lines[|lines| - 1]
  }

  ghost predicate NoneEmpty(lines: seq<string>) {
    forall i :: 0 <= i < |lines| ==> lines[i] != ""
  }

  lemma {:induction false} JoinEmpty(lines: seq<string>)
    requires NoneEmpty(lines)
    ensures Join(lines) == "" <==> lines == []
  {
  }

  lemma JoinAppend(lines: seq<string>, line: string)
    ensures Join(lines + [line]) == if lines == [] then line else Join(lines) + "\n" + line
  {
    assert (lines + [line])[..|lines|] == lines;
    assert |lines + [line]| == |lines| + 1 && (lines + [line])[|lines|] == line;
  }

  /** The text grows by lines. */
  lemma {:induction false} PlaceholdersAreLines(lines: seq<string>, attachments: seq<Attachment>, inlined: set<nat>, i: nat)
    requires NoneEmpty(lines)
    ensures WithPlaceholders(Join(lines), attachments, inlined, i)
            == Join(lines + PlaceholderLines(attachments, inlined, i))
    decreases |attachments| - i
  {
    if i >= |attachments| {
      assert lines + [] == lines;
    } else if i in inlined {
      PlaceholdersAreLines(lines, attachments, inlined, i + 1);
    } else {
      var line, rest := "[Attachment: " + attachments[i].name + "]", PlaceholderLines(attachments, inlined, i + 1);
      JoinEmpty(lines);
      JoinAppend(lines, line);
      GrownText(Join(lines), attachments[i].name);
      PlaceholdersAreLines(lines + [line], attachments, inlined, i + 1);
      AppendOne(lines, line, rest);
    }
  }

  lemma GrownText(text: string, name: string)
    ensures (if text == "" then "" else text + "\n") + "[Attachment: " + name + "]"
            == if text == "" then "[Attachment: " + name + "]" else text + "\n" + ("[Attachment: " + name + "]")
  {
  }

  /** What is shown is the message's own text followed by one line per attachment that is not
      shown inline, in order. */
  lemma TextIsItsLines(text: string, attachments: seq<Attachment>, inlined: set<nat>)
    ensures WithPlaceholders(text, attachments, inlined, 0) == Join(Lines(text, attachments, inlined))
    ensures WithPlaceholders(text, attachments, inlined, 0) == "" <==> Lines(text, attachments, inlined) == []
  {
    var first := if text == "" then [] else [text];
    assert Join(first) == text;
    PlaceholdersAreLines(first, attachments, inlined, 0);
    PlaceholdersNoneEmpty(attachments, inlined, 0);
    JoinEmpty(Lines(text, attachments, inlined));
  }

  lemma {:induction false} PlaceholdersNoneEmpty(attachments: seq<Attachment>, inlined: set<nat>, i: nat)
    ensures NoneEmpty(PlaceholderLines(attachments, inlined, i))
    decreases |attachments| - i
  {
    if i < |attachments| {
      PlaceholdersNoneEmpty(attachments, inlined, i + 1);
    }
  }

  lemma {:induction false} AttachmentEventsAck(ds: seq<Downloaded>, id: nat)
    ensures var es := AttachmentEvents(ds, id);
            && |es| == |ds|
            && forall i :: 0 <= i < |es| ==>
                 es[i] == Event(AttachmentEvent, if i == |ds| - 1 then id else 0, false, None, ds[i].data)
  {
    if ds != [] {
      AttachmentEventsAck(ds[1..], id);
    }
  }

  lemma ErrorsNotProjected(m: DataMessage, outgoing: bool, w: World)
    ensures Projected(DownloadErrors(m, outgoing, w)) == []
  {
    DownloadErrorsUnacknowledged(m.attachments, w, 0);
    ProjectedNone(DownloadErrors(m, outgoing, w));
  }

  lemma ShownIsProjected(m: DataMessage, outgoing: bool, id: nat, w: World)
    requires DataMessageEvents(m, outgoing, id, w).disposition.AwaitingAck?
    ensures Projected(DataMessageEvents(m, outgoing, id, w).events) == ShownEvents(m, outgoing, id, w)
  {
    var errors, shown := DownloadErrors(m, outgoing, w), ShownEvents(m, outgoing, id, w);
    assert DataMessageEvents(m, outgoing, id, w).events == errors + shown;
    ErrorsNotProjected(m, outgoing, w);
    ProjectedAppend(errors, shown);
    ShownAcknowledged(m, outgoing, id, w);
    ProjectedAll(shown);
    assert [] + shown == shown;
  }

  lemma ShownAcknowledged(m: DataMessage, outgoing: bool, id: nat, w: World)
    ensures forall e :: e in ShownEvents(m, outgoing, id, w) ==> Acknowledged(e)
  {
    AttachmentEventsAck(Files(m, outgoing, w), id);
  }

  /** With nothing downloaded, there is a text event: the text, or a placeholder per attachment. */
  lemma ShownEndsWithAck(m: DataMessage, outgoing: bool, id: nat, w: World)
    requires m.text != "" || m.attachments != []
    ensures var p := ShownEvents(m, outgoing, id, w);
            && p != [] && p[|p| - 1].requestId == id
            && forall i :: 0 <= i < |p| - 1 ==> p[i].requestId == 0
  {
    var ds := Files(m, outgoing, w);
    AttachmentEventsAck(ds, id);
    TextGrows(m.text, m.attachments, InlineIndexes(ds, w), 0);
  }

  lemma DataMessageSingleAck(m: DataMessage, outgoing: bool, id: nat, w: World)
    ensures var h := DataMessageEvents(m, outgoing, id, w);
            if h.disposition.AwaitingAck? then OneFinalAck(h.events, id) else Projected(h.events) == []
  {
    var h := DataMessageEvents(m, outgoing, id, w);
    if h.disposition.AwaitingAck? {
      ShownIsProjected(m, outgoing, id, w);
      ShownEndsWithAck(m, outgoing, id, w);
    } else {
      ProjectedNone(h.events);
    }
  }

  /** Single final acknowledgement, for any content and any answers of the network and store:
      a message that waits for the host carries its id on exactly its last event, and one that
      does not wait shows the host nothing to acknowledge. */
  lemma SingleFinalAck(c: Content, self: ServiceId, id: nat, w: World)
    ensures var h := HandleContent(c, self, id, w);
            if h.disposition.AwaitingAck? then OneFinalAck(h.events, id) else Projected(h.events) == []
  {
    var h := HandleContent(c, self, id, w);
    var m := ProjectedMessage(c.body);
    if m.Some? {
      var outgoing := c.body.SyncSent? || c.identity.sender == self;
      DataMessageSingleAck(m.value, outgoing, id, w);
      var g := DataMessageEvents(m.value, outgoing, id, w);
      ProjectedAppend(g.events, [ErrorReport()]);
      assert Projected([ErrorReport()]) == [];
      assert Projected(g.events) + [] == Projected(g.events);
    } else {
      ProjectedNone(h.events);
    }
  }

  // ----- what the host is shown -----

  /** The files are the usable attachments of an incoming message, in its order; an outgoing one
      has none. */
  lemma FilesAreDownloads(m: DataMessage, outgoing: bool, w: World)
    ensures InOrder(Files(m, outgoing, w))
    ensures outgoing ==> Files(m, outgoing, w) == []
    ensures !outgoing ==>
              forall index :: Includes(Files(m, outgoing, w), index) <==> Usable(m.attachments, w, index)
  {
    var ds, files := Downloads(m, outgoing, w), Files(m, outgoing, w);
    TranscodeKeepsIndexes(ds, w, 0);
    assert |files| == |ds| && forall k :: 0 <= k < |ds| ==> files[k].index == ds[k].index;
    if !outgoing {
      DownloadsInOrder(m.attachments, w, 0);
      forall index
        ensures Includes(files, index) <==> Usable(m.attachments, w, index)
      {
        SameIncludes(ds, files, index);
        DownloadsAreUsable(m.attachments, w, 0, index);
      }
    }
  }

  lemma SameIncludes(a: seq<Downloaded>, b: seq<Downloaded>, index: nat)
    requires |a| == |b| && forall k :: 0 <= k < |a| ==> a[k].index == b[k].index
    ensures Includes(a, index) <==> Includes(b, index)
  {
    if k :| 0 <= k < |a| && a[k].index == index {
      assert b[k].index == index;
    }
    if k :| 0 <= k < |b| && b[k].index == index {
      assert a[k].index == index;
    }
  }

  lemma {:induction false} PlaceholderShown(text: string, attachments: seq<Attachment>, inlined: set<nat>, from: nat, i: nat)
    requires from <= i < |attachments| && i !in inlined
    ensures WithPlaceholders(text, attachments, inlined, from) != ""
    decreases i - from
  {
    TextGrows(text, attachments, inlined, from);
    if from < i && from in inlined {
      PlaceholderShown(text, attachments, inlined, from + 1, i);
    }
  }

  /** Text, or an attachment that is not shown inline, leaves text to show. */
  lemma TextShown(m: DataMessage, ds: seq<Downloaded>, w: World)
    requires m.text != "" || exists i :: 0 <= i < |m.attachments| && i !in InlineIndexes(ds, w)
    ensures ShownText(m, ds, w) != ""
  {
    var inlined := InlineIndexes(ds, w);
    TextGrows(m.text, m.attachments, inlined, 0);
    if m.text == "" {
      var i :| 0 <= i < |m.attachments| && i !in inlined;
      PlaceholderShown(m.text, m.attachments, inlined, 0, i);
    }
  }

  /** Nothing is hidden: every usable attachment of an incoming message reaches the host as one
      event, in order; the text with a line for everything that is not shown inline makes an event
      in front of them. */
  lemma NothingHidden(m: DataMessage, outgoing: bool, id: nat, w: World)
    ensures var ds := Files(m, outgoing, w);
            && InOrder(ds)
            && (!outgoing ==> forall index :: Includes(ds, index) <==> Usable(m.attachments, w, index))
    ensures var ds := Files(m, outgoing, w);
            var p := ShownEvents(m, outgoing, id, w);
            var lines := Lines(m.text, m.attachments, InlineIndexes(ds, w));
            && (m.text != "" || (exists i :: 0 <= i < |m.attachments| && i !in InlineIndexes(ds, w)) ==> lines != [])
            && |p| == |ds| + (if lines == [] then 0 else 1)
            && (forall i :: 0 <= i < |ds| ==>
                  p[|p| - |ds| + i] == Event(AttachmentEvent, if i == |ds| - 1 then id else 0, false, None, ds[i].data))
            && (lines != [] ==>
                  p[0] == Event(if m.target.Direct? then MessageEvent else GroupMessageEvent,
                                if ds == [] then id else 0, outgoing, Some(Join(lines)), 0))
    ensures !outgoing ==> forall index ::
              index in InlineIndexes(Files(m, outgoing, w), w) <==> Usable(m.attachments, w, index) && w.inline(index)
  {
    var ds := Files(m, outgoing, w);
    FilesAreDownloads(m, outgoing, w);
    AttachmentEventsAck(ds, id);
    TextIsItsLines(m.text, m.attachments, InlineIndexes(ds, w));
    if m.text != "" || exists i :: 0 <= i < |m.attachments| && i !in InlineIndexes(ds, w) {
      TextShown(m, ds, w);
    }
    InlinedIff(ds, w);
  }

  lemma InlinedIff(ds: seq<Downloaded>, w: World)
    ensures forall index :: index in InlineIndexes(ds, w) <==> Includes(ds, index) && w.inline(index)
  {
    forall index | Includes(ds, index) && w.inline(index)
      ensures index in InlineIndexes(ds, w)
    {
      var k :| 0 <= k < |ds| && ds[k].index == index;
      assert ds[k] in ds;
    }
  }

  // ----- which content waits for the host -----

  /** What a body brings to the host, if anything: a data message that is well-formed and has text
      or attachments. */
  ghost predicate Brings(b: Body, m: DataMessage) {
    Carries(b, m) && !m.target.Malformed? && (m.text != "" || m.attachments != [])
  }

  predicate Outgoing(c: Content, self: ServiceId) {
    c.body.SyncSent? || c.identity.sender == self
  }

  /** Nothing to show: no data message, an empty or malformed one, or one for a group that was left. */
  ghost predicate HasNothing(c: Content, group: GroupAnswer) {
    forall m :: Brings(c.body, m) ==> m.target.Group? && group.Left?
  }

  /** A message waits for the host exactly if it brings something and is direct or for an active
      group, and then the host gets its events; it is retried exactly while its group is being left
      or cannot be read; everything else has nothing to show and is complete. */
  lemma DispositionIff(c: Content, self: ServiceId, id: nat, w: World, m: DataMessage)
    requires Brings(c.body, m)
    ensures var h := HandleContent(c, self, id, w);
            && (h.disposition.AwaitingAck? <==> m.target.Direct? || w.group.Active?)
            && (h.disposition.Retry? <==> m.target.Group? && (w.group.Leaving? || w.group.ReadFailed?))
            && (h.disposition.Complete? <==> m.target.Group? && w.group.Left?)
            && (h.disposition.AwaitingAck? ==> Projected(h.events) == ShownEvents(m, Outgoing(c, self), id, w))
  {
    ProjectedIsCarried(c.body, m);
    var h, g := HandleContent(c, self, id, w), DataMessageEvents(m, Outgoing(c, self), id, w);
    assert h.disposition == g.disposition && (h.events == g.events || h.events == g.events + [ErrorReport()]);
    if g.disposition.AwaitingAck? {
      ShownIsProjected(m, Outgoing(c, self), id, w);
      ReportNotProjected(g.events);
    }
  }

  lemma ReportNotProjected(events: seq<Event>)
    ensures Projected(events + [ErrorReport()]) == Projected(events)
  {
    ProjectedAppend(events, [ErrorReport()]);
    assert Projected([ErrorReport()]) == [];
    assert Projected(events) + [] == Projected(events);
  }

  lemma CompleteIff(c: Content, self: ServiceId, id: nat, w: World)
    ensures HandleContent(c, self, id, w).disposition.Complete? <==> HasNothing(c, w.group)
  {
    if m :| Brings(c.body, m) {
      DispositionIff(c, self, id, w, m);
      forall x | Brings(c.body, x)
        ensures x == m
      {
        ProjectedIsCarried(c.body, x);
        ProjectedIsCarried(c.body, m);
      }
    } else {
      CompleteWithout(c, self, id, w);
    }
  }

  lemma CompleteWithout(c: Content, self: ServiceId, id: nat, w: World)
    requires forall m :: !Brings(c.body, m)
    ensures HandleContent(c, self, id, w).disposition.Complete?
  {
    var p := ProjectedMessage(c.body);
    if p.Some? {
      ProjectedIsCarried(c.body, p.value);
      assert !Brings(c.body, p.value);
    }
  }

  /** Typing notices, receipts and undecryptable messages each make the one event that says so, and
      no other content makes a typing notice or a receipt. */
  lemma NoticesIff(c: Content, self: ServiceId, id: nat, w: World)
    ensures var events := HandleContent(c, self, id, w).events;
            && (c.body == Typing(false) <==> exists e :: e in events && e.kind.TypingEvent?)
            && (c.body.Receipt? <==> exists e :: e in events && e.kind.ReceiptEvent?)
            && (c.body == Typing(false) || c.body.Receipt? || c.body.DecryptionError? ==> |events| == 1)
            && (c.body.DecryptionError? ==> ErrorReport() in events)
  {
    var events := HandleContent(c, self, id, w).events;
    var p := ProjectedMessage(c.body);
    if p.Some? {
      var g := DataMessageEvents(p.value, Outgoing(c, self), id, w);
      MessagesMakeNoNotice(p.value, Outgoing(c, self), id, w);
      AppendMembers(g.events, [ErrorReport()]);
      assert events == g.events || events == g.events + [ErrorReport()];
    } else if events != [] {
      assert events == [events[0]] && events[0] in events;
    }
  }

  ghost predicate NoNotice(events: seq<Event>) {
    forall e :: e in events ==> !e.kind.TypingEvent? && !e.kind.ReceiptEvent?
  }

  lemma NoNoticeAppend(a: seq<Event>, b: seq<Event>)
    requires NoNotice(a) && NoNotice(b)
    ensures NoNotice(a + b)
  {
  }

  lemma MessagesMakeNoNotice(m: DataMessage, outgoing: bool, id: nat, w: World)
    ensures NoNotice(DataMessageEvents(m, outgoing, id, w).events)
  {
    ErrorsMakeNoNotice(m, outgoing, w);
    ShownMakesNoNotice(m, outgoing, id, w);
    NoNoticeAppend(DownloadErrors(m, outgoing, w), ShownEvents(m, outgoing, id, w));
  }

  lemma ErrorsMakeNoNotice(m: DataMessage, outgoing: bool, w: World)
    ensures NoNotice(DownloadErrors(m, outgoing, w))
  {
    ErrorsAreReports(m, outgoing, w);
  }

  lemma ShownMakesNoNotice(m: DataMessage, outgoing: bool, id: nat, w: World)
    ensures NoNotice(ShownEvents(m, outgoing, id, w))
  {
    ShownAcknowledged(m, outgoing, id, w);
  }

  /** Without group authority nothing that may be projected shows the host a group message. */
  lemma NoGroupMessageWithoutAuthority(c: Content, self: ServiceId, id: nat, w: World)
    requires IsProjectable(c.body, false)
    ensures forall e :: e in HandleContent(c, self, id, w).events ==> !e.kind.GroupMessageEvent?
  {
    GroupContextIsProjectedTarget(c.body);
    if ProjectedMessage(c.body).Some? {
      DirectShowsNoGroup(ProjectedMessage(c.body).value, c.body.SyncSent? || c.identity.sender == self, id, w);
    }
  }

  lemma DirectShowsNoGroup(m: DataMessage, outgoing: bool, id: nat, w: World)
    requires m.target.Direct?
    ensures forall e :: e in DataMessageEvents(m, outgoing, id, w).events ==> !e.kind.GroupMessageEvent?
  {
    ErrorsAreReports(m, outgoing, w);
    ShownDirectly(m, outgoing, id, w);
    AppendMembers(DownloadErrors(m, outgoing, w), ShownEvents(m, outgoing, id, w));
  }

  lemma AppendMembers(a: seq<Event>, b: seq<Event>)
    ensures forall e :: e in a + b <==> e in a || e in b
  {
  }

  lemma ErrorsAreReports(m: DataMessage, outgoing: bool, w: World)
    ensures forall e :: e in DownloadErrors(m, outgoing, w) ==> e == ErrorReport()
  {
    if !outgoing {
      var over := if |m.attachments| > MAX_ATTACHMENT_DOWNLOADS_PER_MESSAGE then [ErrorReport()] else [];
      DownloadErrorsUnacknowledged(m.attachments, w, 0);
      AppendMembers(over, DownloadErrorsFrom(m.attachments, w, 0));
    }
  }

  lemma ShownDirectly(m: DataMessage, outgoing: bool, id: nat, w: World)
    requires m.target.Direct?
    ensures forall e :: e in ShownEvents(m, outgoing, id, w) ==> !e.kind.GroupMessageEvent?
  {
    var ds := Files(m, outgoing, w);
    var texts := TextEvents(m, outgoing, ShownText(m, ds, w), if ds == [] then id else 0);
    AttachmentEventsAck(ds, id);
    AppendMembers(texts, AttachmentEvents(ds, id));
  }
}

/** `emit_data_message` as the source runs it: loops over attachments with a growing event log. */
module MessageEmitter {
  import opened Common
  import opened Contents
  import opened MessageEvents

  method DownloadAttachments(m: DataMessage, outgoing: bool, w: World)
    returns (events: seq<Event>, downloaded: seq<Downloaded>)
    ensures events == DownloadErrors(m, outgoing, w)
    ensures downloaded == Downloads(m, outgoing, w)
  {
    events, downloaded := [], [];
    if !outgoing {
      if |m.attachments| > MAX_ATTACHMENT_DOWNLOADS_PER_MESSAGE {
        events := events + [ErrorReport()];
      }
      var errors;
      errors, downloaded := DownloadEach(m.attachments, w);
      events := events + errors;
    }
  }

  method DownloadEach(attachments: seq<Attachment>, w: World) returns (events: seq<Event>, downloaded: seq<Downloaded>)
    ensures events == DownloadErrorsFrom(attachments, w, 0)
    ensures downloaded == DownloadsFrom(attachments, w, 0)
  {
    events, downloaded := [], [];
    var i := 0;
    while i < |attachments| && i < MAX_ATTACHMENT_DOWNLOADS_PER_MESSAGE
      invariant 0 <= i <= DownloadLimit(attachments)
      invariant downloaded + DownloadsFrom(attachments, w, i) == DownloadsFrom(attachments, w, 0)
      invariant events + DownloadErrorsFrom(attachments, w, i) == DownloadErrorsFrom(attachments, w, 0)
    {
      var result := DownloadAttachment(attachments[i], i, w);
      if result.Some? {
        AppendOne(downloaded, result.value, DownloadsFrom(attachments, w, i + 1));
        downloaded := downloaded + [result.value];
      } else {
        AppendOne(events, ErrorReport(), DownloadErrorsFrom(attachments, w, i + 1));
        events := events + [ErrorReport()];
      }
      i := i + 1;
    }
  }

  /** One pass of the download loop: at most one of an attachment and an error report. */
  method DownloadAttachment(a: Attachment, index: nat, w: World) returns (result: Option<Downloaded>)
    ensures result == DownloadOne(a, index, w)
  {
    if a.sizeHint.Some? && a.sizeHint.value > MAX_ATTACHMENT_SIZE_BYTES {
      return None;
    }
    var answer := w.download(index);
    if answer.None? {
      return None;
    }
    var length := answer.value;
    if a.sizeHint.Some? && a.sizeHint.value < length {
      length := a.sizeHint.value;
    }
    if length > MAX_ATTACHMENT_SIZE_BYTES || length == 0 {
      return None;
    }
    return Some(Downloaded(index, length, a.gifVideo));
  }

  method TranscodeVideos(ds: seq<Downloaded>, w: World) returns (result: seq<Downloaded>)
    ensures result == Transcode(ds, w, 0)
  {
    result := [];
    var transcodes, i := 0, 0;
    while i < |ds| && transcodes < MAX_SIGNAL_GIF_TRANSCODES_PER_MESSAGE
      invariant 0 <= i <= |ds|
      invariant transcodes <= MAX_SIGNAL_GIF_TRANSCODES_PER_MESSAGE
      invariant result + Transcode(ds[i..], w, transcodes) == Transcode(ds, w, 0)
    {
      assert ds[i..][1..] == ds[i + 1..];
      var next := ds[i];
      var used := transcodes;
      if next.gifVideo {
        used := used + 1;
        next := TranscodeOne(next, w);
      }
      AppendOne(result, next, Transcode(ds[i + 1..], w, used));
      transcodes, result, i := used, result + [next], i + 1;
    }
    result := result + ds[i..];
  }

  method ProjectText(text: string, attachments: seq<Attachment>, inlined: set<nat>) returns (shown: string)
    ensures shown == WithPlaceholders(text, attachments, inlined, 0)
    ensures shown == Join(Lines(text, attachments, inlined))
  {
    TextIsItsLines(text, attachments, inlined);
    shown := text;
    var i := 0;
    while i < |attachments|
      invariant 0 <= i <= |attachments|
      invariant WithPlaceholders(shown, attachments, inlined, i) == WithPlaceholders(text, attachments, inlined, 0)
    {
      if i !in inlined {
        shown := (if shown == "" then "" else shown + "\n") + "[Attachment: " + attachments[i].name + "]";
      }
      i := i + 1;
    }
  }

  method EmitAttachments(ds: seq<Downloaded>, id: nat) returns (events: seq<Event>)
    ensures events == AttachmentEvents(ds, id)
  {
    events := [];
    for i := 0 to |ds|
      invariant events + AttachmentEvents(ds[i..], id) == AttachmentEvents(ds, id)
    {
      assert ds[i..][1..] == ds[i + 1..];
      AppendOne(events, AttachmentEvents(ds[i..], id)[0], AttachmentEvents(ds[i + 1..], id));
      events := events + [Event(AttachmentEvent, if i + 1 == |ds| then id else 0, false, None, ds[i].data)];
    }
  }

  method EmitDataMessage(m: DataMessage, outgoing: bool, id: nat, w: World)
    returns (events: seq<Event>, disposition: Disposition)
    ensures Handled(events, disposition) == DataMessageEvents(m, outgoing, id, w)
    ensures if disposition.AwaitingAck? then OneFinalAck(events, id) else Projected(events) == []
  {
    DataMessageSingleAck(m, outgoing, id, w);
    if m.target.Malformed? {
      return [ErrorReport()], Complete;
    }
    if m.text == "" && m.attachments == [] {
      return [], Complete;
    }
    if m.target.Group? {
      match w.group {
        case Left => return [], Complete;
        case Leaving => return [], Retry;
        case ReadFailed => return [ErrorReport()], Retry;
        case Active =>
      }
    }
    var downloaded;
    events, downloaded := DownloadAttachments(m, outgoing, w);
    var shown := EmitShown(m, outgoing, id, w, downloaded);
    return events + shown, AwaitingAck;
  }

  method EmitShown(m: DataMessage, outgoing: bool, id: nat, w: World, downloaded: seq<Downloaded>)
    returns (events: seq<Event>)
    requires downloaded == Downloads(m, outgoing, w)
    ensures events == ShownEvents(m, outgoing, id, w)
  {
    var ds := TranscodeVideos(downloaded, w);
    var text := ProjectText(m.text, m.attachments, InlineIndexes(ds, w));
    var messageDeliveryId := if ds == [] then id else 0;
    events := [];
    if text != "" {
      events := [Event(MessageKind(m), messageDeliveryId, outgoing, Some(text), 0)];
    }
    var files := EmitAttachments(ds, id);
    events := events + files;
  }
}
