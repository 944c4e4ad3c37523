/** One turn of a conversation as the trainer carries it. */
module Messages {
  import opened Options

  /** Expert choices of one token per layer, or the missing-route sentinel in
      every slot. */
  datatype Route = Recorded(choices: seq<seq<int>>) | Missing

  datatype Message = Message(
    role: string,
    content: Option<string>,
    tokenIds: Option<seq<int>>,
    generationLogprobs: Option<seq<real>>,
    routedExperts: Option<seq<Route>>,
    tokenLossMask: Option<seq<int>>,
    /** Summed advantage-locus penalty of the turn's violations; zero without any. */
    advantagePenalty: real)

  type Log = seq<Message>

  const ASSISTANT: string := "assistant"

  /** Tokens a turn contributes to the flat sequence. */
  function TokenCount(m: Message): nat {
    if m.tokenIds.Some? then |m.tokenIds.value| else 0
  }
}
