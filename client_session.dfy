/**
 * The chat client's live-session bookkeeping: the module-level variables
 * `currentPartner`, `partnerUid`, `partnerUsername` and `partnerAvatar`, the
 * `chat_start` handler that sets them, `resetUI` that clears the current
 * partner, and the guard at the top of `sendMessage`.
 */
module ClientSession {
  import opened Wrappers
  import JsString

  const DefaultPartnerUid: string := "unknown"
  const DefaultPartnerUsername: string := "Opponent"
  const DefaultPartnerAvatar: string := "https://api.dicebear.com/7.x/bottts/svg?seed=Opponent"

  /** A JavaScript string value is truthy unless it is missing (null, undefined) or empty. */
  predicate Truthy(v: Option<string>)
  {
    v.Some? && v.value != ""
  }

  /** JavaScript's `v || fallback` on a possibly missing string. */
  function OrElse(v: Option<string>, fallback: string): (r: string)
    ensures Truthy(v) ==> r == v.value
    ensures !Truthy(v) ==> r == fallback
  {
    if Truthy(v) then v.value else fallback
  }

  /** The payload of the server's `chat_start` event; any field may be missing. */
  datatype ChatStart = ChatStart(
    partnerId: Option<string>,
    partnerUid: Option<string>,
    partnerUsername: Option<string>,
    partnerAvatar: Option<string>)

  /**
   * `sendMessage` returns early, emitting, showing and saving nothing, when the
   * trimmed input is empty or there is no current partner.
   */
  predicate SendBlocked(input: string, currentPartner: Option<string>)
  {
    JsString.Trim(input) == [] || !Truthy(currentPartner)
  }

  /** The guard blocks exactly the blank inputs, and every input once there is no partner. */
  lemma SendBlockedIff(input: string, currentPartner: Option<string>)
    ensures SendBlocked(input, currentPartner) <==> JsString.AllWhitespace(input) || !Truthy(currentPartner)
    ensures currentPartner == None ==> SendBlocked(input, currentPartner)
  {
    JsString.TrimEmptyIffBlank(input);
  }

  class Client {
    var currentPartner: Option<string>
    var partnerUid: Option<string>
    var partnerUsername: string
    var partnerAvatar: string

    /** The initial values of the module-level variables, followed by the `resetUI()` run at load. */
    constructor ()
      ensures currentPartner == None && partnerUid == None
      ensures partnerUsername == DefaultPartnerUsername && partnerAvatar == DefaultPartnerAvatar
    {
      currentPartner := None;
      partnerUid := None;
      partnerUsername := DefaultPartnerUsername;
      partnerAvatar := DefaultPartnerAvatar;
    }

    /**
     * `chat_start`: the partner handle is taken as sent, and each missing or
     * empty partner field falls back to its default.
     */
    method OnChatStart(data: ChatStart)
      modifies this
      ensures currentPartner == data.partnerId
      ensures partnerUid == Some(OrElse(data.partnerUid, DefaultPartnerUid))
      ensures partnerUsername == OrElse(data.partnerUsername, DefaultPartnerUsername)
      ensures partnerAvatar == OrElse(data.partnerAvatar, DefaultPartnerAvatar)
      ensures partnerUid.Some? && partnerUid.value != "" && partnerUsername != "" && partnerAvatar != ""
    {
      currentPartner := data.partnerId;
      partnerUid := Some(OrElse(data.partnerUid, DefaultPartnerUid));
      partnerUsername := OrElse(data.partnerUsername, DefaultPartnerUsername);
      partnerAvatar := OrElse(data.partnerAvatar, DefaultPartnerAvatar);
    }

    /** `resetUI`: forgets the current partner, whatever the state was, and leaves the partner details as they were. */
    method ResetUI()
      modifies this
      ensures currentPartner == None
      ensures partnerUid == old(partnerUid)
      ensures partnerUsername == old(partnerUsername) && partnerAvatar == old(partnerAvatar)
    {
      currentPartner := None;
    }

    /**
     * `sendMessage` on the current input: the text emitted as `send_message`
     * (and shown and saved), or None when the guard returns early. The session
     * variables are not changed.
     */
    method SendMessage(input: string) returns (emitted: Option<string>)
      ensures emitted == None <==> JsString.AllWhitespace(input) || !Truthy(currentPartner)
      ensures emitted.Some? ==> emitted.value == JsString.Trim(input) && emitted.value != []
    {
      SendBlockedIff(input, currentPartner);
      var msg := JsString.Trim(input);
      if SendBlocked(input, currentPartner) {
        return None;
      }
      return Some(msg);
    }
  }

  /**
   * One client's life across a battle: `chat_start` with a partner handle, a
   * message, then `partner_left` (which runs `resetUI`) and the same message
   * again. Before the reset a non-blank message goes out trimmed; after it,
   * nothing does.
   */
  method MessageBlockedAfterPartnerLeft(start: ChatStart, input: string)
    returns (before: Option<string>, after: Option<string>)
    ensures Truthy(start.partnerId) && !JsString.AllWhitespace(input) ==> before == Some(JsString.Trim(input))
    ensures after == None
  {
    var c := new Client();
    c.OnChatStart(start);
    before := c.SendMessage(input);
    c.ResetUI();
    after := c.SendMessage(input);
  }
}
