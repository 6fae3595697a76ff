/** The message list that a turn extends. */
module AgentContexts {
  class AgentContext<Msg> {
    var messages: seq<Msg>

    constructor (messages: seq<Msg>)
      ensures this.messages == messages
    {
      this.messages := messages;
    }

    method Add(m: Msg)
      modifies this
      ensures messages == old(messages) + [m]
    {
      messages := messages + [m];
    }
  }
}
