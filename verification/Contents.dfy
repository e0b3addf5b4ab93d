/** Received Signal content, as far as its projection to the host depends on it. */
module Contents {
  import opened Common

  type ServiceId = string
  type MasterKey = seq<int>

  /** What a client stamps on a message: the key of deduplication within a run. */
  datatype Identity = Identity(sender: ServiceId, destination: ServiceId, timestampMs: int)

  /** The `group_v2` field: absent, with a 32-byte master key, or without one. */
  datatype GroupTarget = Direct | Group(key: MasterKey) | Malformed

  datatype Attachment = Attachment(name: string, sizeHint: Option<nat>, gifVideo: bool)

  /** `text` is the rendered message text; `attachments` excludes view-once media. */
  datatype DataMessage = DataMessage(target: GroupTarget, text: string, attachments: seq<Attachment>)

  datatype Body =
    | Data(message: DataMessage, needsReceipt: bool)
    | Edit(edited: Option<DataMessage>)
    | SyncSent(sent: Option<DataMessage>, sentEdit: Option<DataMessage>)
    | Typing(inGroup: bool)
    | Receipt
    | DecryptionError
    | OtherBody

  datatype Content = Content(identity: Identity, body: Body)

  /** Where the store files a row: with a contact or with a group. */
  datatype Thread = Contact(peer: ServiceId) | GroupThread(key: MasterKey)

  /** What a successful send reports: enough to find its row again, but no sender. */
  datatype SentMessage = SentMessage(thread: Thread, timestampMs: int)

  predicate InGroup(m: Option<DataMessage>) {
    m.Some? && !m.value.target.Direct?
  }

  /** `content_has_group_context`: for a sync message the edit counts only without a message. */
  predicate HasGroupContext(b: Body) {
    match b
    case Data(m, _) => InGroup(Some(m))
    case Edit(m) => InGroup(m)
    case SyncSent(m, e) => if m.Some? then InGroup(m) else InGroup(e)
    case _ => false
  }

  predicate IsProjectable(b: Body, groupsAuthoritative: bool) {
    groupsAuthoritative || !HasGroupContext(b)
  }

  /** The data message that handling a body projects, if any. */
  function ProjectedMessage(b: Body): Option<DataMessage> {
    match b
    case Data(m, _) => Some(m)
    case Edit(m) => m
    case SyncSent(m, e) => if m.Some? then m else e
    case _ => None
  }

  /** The bodies that bring a data message to the host: the message itself, an edit, or the copy of
      one sent from another device, where an edit counts only without a message. */
  ghost predicate Carries(b: Body, m: DataMessage) {
    || (exists needsReceipt :: b == Data(m, needsReceipt))
    || b == Edit(Some(m))
    || (exists edit :: b == SyncSent(Some(m), edit))
    || b == SyncSent(None, Some(m))
  }

  lemma ProjectedIsCarried(b: Body, m: DataMessage)
    ensures ProjectedMessage(b) == Some(m) <==> Carries(b, m)
  {
    match b {
      case Data(x, needsReceipt) => assert b == Data(x, needsReceipt);
      case SyncSent(x, edit) => if x.Some? { assert b == SyncSent(Some(x.value), edit); }
      case _ =>
    }
  }

  /** Content held back for group authority is exactly content whose projection needs a group. */
  lemma GroupContextIsProjectedTarget(b: Body)
    ensures HasGroupContext(b) <==> ProjectedMessage(b).Some? && !ProjectedMessage(b).value.target.Direct?
  {
  }
}
