/**
 * The contact-channel shape and the per-request workspace context of
 * src/types/index.ts.
 */
module Workspace {
  import opened Wrappers
  import opened Tags

  datatype ChannelType = WhatsApp | Facebook | Instagram | Email | Telegram | Phone {
    /** The string the source uses for this value; it parses back to the value, so no two values share one. */
    function Tag(): (t: string)
      ensures IsLowerWord(t)
      ensures ParseChannelType(t) == Some(this)
    {
      match this
      case WhatsApp => "whatsapp"
      case Facebook => "facebook"
      case Instagram => "instagram"
      case Email => "email"
      case Telegram => "telegram"
      case Phone => "phone"
    }
  }

  function ParseChannelType(s: string): Option<ChannelType> {
    if s == "whatsapp" then Some(WhatsApp)
    else if s == "facebook" then Some(Facebook)
    else if s == "instagram" then Some(Instagram)
    else if s == "email" then Some(Email)
    else if s == "telegram" then Some(Telegram)
    else if s == "phone" then Some(Phone)
    else None
  }

  /** A tag that parses names the channel type whose tag it is. */
  lemma ParsedChannelTypeHasTag(s: string)
    ensures ParseChannelType(s).Some? ==> ParseChannelType(s).value.Tag() == s
  {
  }

  /** One entry of a contact's `channels`: a number, page id, username, ... */
  datatype ContactChannel = ContactChannel(channelType: ChannelType, identifier: string)

  /** The roles a member can hold; the source declares no order among them. */
  datatype Role = Owner | Admin | Member | Viewer {
    /** The string the source uses for this value; it parses back to the value, so no two values share one. */
    function Tag(): (t: string)
      ensures IsLowerWord(t)
      ensures ParseRole(t) == Some(this)
    {
      match this
      case Owner => "owner"
      case Admin => "admin"
      case Member => "member"
      case Viewer => "viewer"
    }
  }

  function ParseRole(s: string): Option<Role> {
    if s == "owner" then Some(Owner)
    else if s == "admin" then Some(Admin)
    else if s == "member" then Some(Member)
    else if s == "viewer" then Some(Viewer)
    else None
  }

  /** A tag that parses names the role whose tag it is. */
  lemma ParsedRoleHasTag(s: string)
    ensures ParseRole(s).Some? ==> ParseRole(s).value.Tag() == s
  {
  }

  /** What the authentication middleware attaches to every request. */
  datatype WorkspaceContext = WorkspaceContext(workspaceId: string, userId: string, role: Role)
}
