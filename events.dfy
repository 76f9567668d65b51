/**
 * The domain events of src/types/index.ts, dispatched to subscribers of the
 * event bus. In the source an event IS its string tag; here it is a datatype
 * with its tag and a parser back from tags.
 */
module Events {
  import opened Wrappers

  /** The owner a domain event belongs to: the part of its tag before the dot. */
  datatype EventFamily = ContactFamily | DealFamily | TaskFamily | NoteFamily | MessageFamily | AutomationFamily

  datatype CRMEvent =
    | ContactCreated | ContactUpdated | ContactDeleted | ContactMerged
    | DealCreated | DealUpdated | DealStageChanged | DealWon | DealLost | DealDeleted
    | TaskCreated | TaskCompleted | TaskOverdue
    | NoteCreated
    | MessageReceived | MessageSent
    | AutomationTriggered
  {
    /** The string the source uses for this value; it parses back to the value, so no two values share one. */
    function Tag(): (t: string)
      ensures ParseCRMEvent(t) == Some(this)
    {
      match this
      case ContactCreated => "contact.created"
      case ContactUpdated => "contact.updated"
      case ContactDeleted => "contact.deleted"
      case ContactMerged => "contact.merged"
      case DealCreated => "deal.created"
      case DealUpdated => "deal.updated"
      case DealStageChanged => "deal.stage_changed"
      case DealWon => "deal.won"
      case DealLost => "deal.lost"
      case DealDeleted => "deal.deleted"
      case TaskCreated => "task.created"
      case TaskCompleted => "task.completed"
      case TaskOverdue => "task.overdue"
      case NoteCreated => "note.created"
      case MessageReceived => "message.received"
      case MessageSent => "message.sent"
      case AutomationTriggered => "automation.triggered"
    }

    function Family(): EventFamily {
      match this
      case ContactCreated | ContactUpdated | ContactDeleted | ContactMerged => ContactFamily
      case DealCreated | DealUpdated | DealStageChanged | DealWon | DealLost | DealDeleted => DealFamily
      case TaskCreated | TaskCompleted | TaskOverdue => TaskFamily
      case NoteCreated => NoteFamily
      case MessageReceived | MessageSent => MessageFamily
      case AutomationTriggered => AutomationFamily
    }
  }

  function FamilyName(f: EventFamily): string {
    match f
    case ContactFamily => "contact"
    case DealFamily => "deal"
    case TaskFamily => "task"
    case NoteFamily => "note"
    case MessageFamily => "message"
    case AutomationFamily => "automation"
  }

  function ParseCRMEvent(s: string): Option<CRMEvent> {
    if s == "contact.created" then Some(ContactCreated)
    else if s == "contact.updated" then Some(ContactUpdated)
    else if s == "contact.deleted" then Some(ContactDeleted)
    else if s == "contact.merged" then Some(ContactMerged)
    else if s == "deal.created" then Some(DealCreated)
    else if s == "deal.updated" then Some(DealUpdated)
    else if s == "deal.stage_changed" then Some(DealStageChanged)
    else if s == "deal.won" then Some(DealWon)
    else if s == "deal.lost" then Some(DealLost)
    else if s == "deal.deleted" then Some(DealDeleted)
    else if s == "task.created" then Some(TaskCreated)
    else if s == "task.completed" then Some(TaskCompleted)
    else if s == "task.overdue" then Some(TaskOverdue)
    else if s == "note.created" then Some(NoteCreated)
    else if s == "message.received" then Some(MessageReceived)
    else if s == "message.sent" then Some(MessageSent)
    else if s == "automation.triggered" then Some(AutomationTriggered)
    else None
  }

  /** A tag that parses names the event whose tag it is. */
  lemma ParsedCRMEventHasTag(s: string)
    ensures ParseCRMEvent(s).Some? ==> ParseCRMEvent(s).value.Tag() == s
  {
    match ParseCRMEvent(s)
    case None =>
    case Some(ContactCreated) =>
    case Some(ContactUpdated) =>
    case Some(ContactDeleted) =>
    case Some(ContactMerged) =>
    case Some(DealCreated) =>
    case Some(DealUpdated) =>
    case Some(DealStageChanged) =>
    case Some(DealWon) =>
    case Some(DealLost) =>
    case Some(DealDeleted) =>
    case Some(TaskCreated) =>
    case Some(TaskCompleted) =>
    case Some(TaskOverdue) =>
    case Some(NoteCreated) =>
    case Some(MessageReceived) =>
    case Some(MessageSent) =>
    case Some(AutomationTriggered) =>
  }

  /** An event's tag is its family's name, a dot, and the transition. */
  lemma CRMEventTagHasFamilyPrefix(e: CRMEvent)
    ensures FamilyName(e.Family()) + "." <= e.Tag()
  {
  }
}
