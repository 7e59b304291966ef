/** What the bot does to the outside world, in the order it does it: requests to
    the AI completion provider, messages through the messaging gateway, and HTTP
    requests to the helpdesk (Chatwoot). */
module Effects {
  import opened Json

  datatype Effect =
    | Complete(prompt: string)                            // chat completion for the user's text
    | Send(to: string, text: string)                      // send_message(to, text), utils.py:22
    | SearchContact(phone: string)                        // GET contacts/search, utils.py:66
    | CreateContact(phone: string)                        // POST contacts, utils.py:50
    | ListConversations(contact: Json)                    // GET contacts/{id}/conversations, utils.py:121
    | CreateConversation(contact: Json, inbox: int, phone: string)  // POST conversations, utils.py:106
    | PostMessage(conversation: Json, content: string)    // POST conversations/{id}/messages, utils.py:157
    | PatchOpen(conversation: Json)                       // PATCH conversations/{id} status=open, utils.py:206
  {
    /** A request to the helpdesk (as opposed to the AI provider or the gateway). */
    predicate IsHelpdesk() {
      !Complete? && !Send?
    }
  }

  /** The helpdesk's answer to one request: a status code and a parsed JSON body,
      or no answer at all (`requests` raised: timeout, connection error). */
  datatype HttpReply = Reply(status: int, body: Json) | NoResponse

  /** Status 200 or 201, which the client treats as success. */
  predicate Success(reply: HttpReply) {
    reply.Reply? && (reply.status == 200 || reply.status == 201)
  }
}
