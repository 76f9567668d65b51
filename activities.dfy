/**
 * The kinds of entry in the durable activity log of src/types/index.ts, and the
 * tag by which an activity or note names the kind of entity that owns it.
 */
module Activities {
  import opened Wrappers
  import opened Tags

  datatype ActivityType =
    | ContactCreated | ContactUpdated | ContactMerged
    | DealCreated | DealUpdated | DealStageChanged | DealWon | DealLost
    | EmailSent | EmailReceived | WhatsappSent | WhatsappReceived | CallMade | MeetingHeld
    | NoteAdded
    | AutomationTriggered
  {
    /** The string the source uses for this value; it parses back to the value, so no two values share one. */
    function Value(): (v: string)
      ensures IsUpperSnake(v)
      ensures ParseActivityType(v) == Some(this)
    {
      match this
      case ContactCreated => "CONTACT_CREATED"
      case ContactUpdated => "CONTACT_UPDATED"
      case ContactMerged => "CONTACT_MERGED"
      case DealCreated => "DEAL_CREATED"
      case DealUpdated => "DEAL_UPDATED"
      case DealStageChanged => "DEAL_STAGE_CHANGED"
      case DealWon => "DEAL_WON"
      case DealLost => "DEAL_LOST"
      case EmailSent => "EMAIL_SENT"
      case EmailReceived => "EMAIL_RECEIVED"
      case WhatsappSent => "WHATSAPP_SENT"
      case WhatsappReceived => "WHATSAPP_RECEIVED"
      case CallMade => "CALL_MADE"
      case MeetingHeld => "MEETING_HELD"
      case NoteAdded => "NOTE_ADDED"
      case AutomationTriggered => "AUTOMATION_TRIGGERED"
    }
  }

  function ParseActivityType(s: string): Option<ActivityType> {
    if s == "CONTACT_CREATED" then Some(ContactCreated)
    else if s == "CONTACT_UPDATED" then Some(ContactUpdated)
    else if s == "CONTACT_MERGED" then Some(ContactMerged)
    else if s == "DEAL_CREATED" then Some(DealCreated)
    else if s == "DEAL_UPDATED" then Some(DealUpdated)
    else if s == "DEAL_STAGE_CHANGED" then Some(DealStageChanged)
    else if s == "DEAL_WON" then Some(DealWon)
    else if s == "DEAL_LOST" then Some(DealLost)
    else if s == "EMAIL_SENT" then Some(EmailSent)
    else if s == "EMAIL_RECEIVED" then Some(EmailReceived)
    else if s == "WHATSAPP_SENT" then Some(WhatsappSent)
    else if s == "WHATSAPP_RECEIVED" then Some(WhatsappReceived)
    else if s == "CALL_MADE" then Some(CallMade)
    else if s == "MEETING_HELD" then Some(MeetingHeld)
    else if s == "NOTE_ADDED" then Some(NoteAdded)
    else if s == "AUTOMATION_TRIGGERED" then Some(AutomationTriggered)
    else None
  }

  /** A value that parses names the activity kind whose value it is. */
  lemma ParsedActivityTypeHasValue(s: string)
    ensures ParseActivityType(s).Some? ==> ParseActivityType(s).value.Value() == s
  {
  }

  /** The owner of an activity or note, referenced by tag plus id. */
  datatype EntityType = Contact | Deal | Company | Task {
    /** The string the source uses for this value; it parses back to the value, so no two values share one. */
    function Tag(): (t: string)
      ensures IsLowerWord(t)
      ensures ParseEntityType(t) == Some(this)
    {
      match this
      case Contact => "contact"
      case Deal => "deal"
      case Company => "company"
      case Task => "task"
    }
  }

  function ParseEntityType(s: string): Option<EntityType> {
    if s == "contact" then Some(Contact)
    else if s == "deal" then Some(Deal)
    else if s == "company" then Some(Company)
    else if s == "task" then Some(Task)
    else None
  }

  /** A tag that parses names the entity type whose tag it is. */
  lemma ParsedEntityTypeHasTag(s: string)
    ensures ParseEntityType(s).Some? ==> ParseEntityType(s).value.Tag() == s
  {
  }
}
