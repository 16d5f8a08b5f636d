/** What the bot exchanges with its collaborators: optional values, abstract
    responses of the inference and news services, and the outbound actions
    the message pipeline produces. */
module Outbound {
  import opened Text

  /** The suffix of a group chat's jid. */
  const GroupSuffix := "@g.us"
  /** The suffix that turns a phone number into a user id. */
  const UserSuffix := "@s.whatsapp.net"
  /** The reply of every group-only command in a private chat. */
  const OnlyInGroups := "This command only works in groups."

  /** `jid.endsWith("@g.us")`: the chat is a group. */
  predicate IsGroup(jid: string) {
    EndsWith(jid, GroupSuffix)
  }

  datatype Option<+T> = None | Some(value: T)

  /** The outcome of one call to a collaborator over HTTP: the call threw
      (network error, non-2xx status), or it returned a body. */
  datatype Response<+T> = Failed | Ok(value: T)

  /** JavaScript truthiness of an optional string field: present and non-empty. */
  predicate Truthy(o: Option<string>) {
    o.Some? && o.value != ""
  }

  /** `o || fallback` on an optional string field. */
  function OrElse(o: Option<string>, fallback: string): (r: string)
    ensures Truthy(o) ==> r == o.value
    ensures !Truthy(o) ==> r == fallback
  {
    if Truthy(o) then o.value else fallback
  }

  /** The command handlers of main.js, and the two reply routines, named as calls. */
  datatype Handler =
    | Joke                                       // sendRomanUrduJoke
    | Roast(mentions: seq<string>)               // handleRoastCommand
    | Fact                                       // sendRomanUrduFact
    | Mood                                       // sendGroupMood
    | TagAll(extendedText: Option<string>)       // tagAllMembers
    | News                                       // sendDailyNews
    | Quote                                      // sendRandomQuote
    | Spam(participant: Option<string>, args: string)  // handleSpamCommand
    | Help                                       // sendHelpMessage
    | ReplyByTone(tone: string)                  // sendToneAwareReply without a custom message
    | ContextReply(latest: string)               // generateAndSendToneAwareReply

  /** One outbound step: a message with its mention list, or a call to a handler. */
  datatype Action =
    | Send(jid: string, text: string, mentions: seq<string>)
    | Call(jid: string, handler: Handler)
}
