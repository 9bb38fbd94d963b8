/** Who closes the response channel of a streamed answer. The `prompt` and
    `ask` commands run `ChatStream` in a goroutine and read the channel with
    `range` until it is closed; some providers close it themselves with a
    deferred `close`, and the `prompt` command's goroutine closes it again
    after `ChatStream` returns, while the `ask` command's never does. */
module Streaming {
  import opened Config
  import opened Registry

  /** Whether a provider's `ChatStream` closes the channel it is handed. */
  predicate ProviderCloses(prov: Provider) {
    prov.Ollama? || prov.Mock? || prov.LegacyOllama? || prov.LegacyNova? || prov.LegacyClaude? || prov.LegacyMock?
  }

  datatype Command = PromptCmd | AskCmd

  /** What the reading loop sees: one close ends it; a second close panics
      ("close of closed channel"); with none, `range` waits forever. */
  datatype ChannelEnd = EndsOnce | PanicsOnSecondClose | BlocksForever

  function ChannelEndOf(closes: nat): (e: ChannelEnd)
    ensures e == EndsOnce <==> closes == 1
    ensures e == BlocksForever <==> closes == 0
    ensures e == PanicsOnSecondClose <==> closes >= 2
  {
    if closes == 0 then BlocksForever else if closes == 1 then EndsOnce else PanicsOnSecondClose
  }

  /** The commands as written: only `prompt` closes after `ChatStream`. */
  predicate CommandClosesAsWritten(c: Command) {
    c == PromptCmd
  }

  function ClosesAsWritten(c: Command, prov: Provider): (n: nat)
    ensures n <= 2
    ensures n == 1 <==> ProviderCloses(prov) != CommandClosesAsWritten(c)
  {
    (if ProviderCloses(prov) then 1 else 0) + (if CommandClosesAsWritten(c) then 1 else 0)
  }

  /** As written, a streamed `prompt` panics for every provider it can pick
      except the OpenAI one, and a streamed `ask` never ends for the OpenAI
      one. */
  lemma ChannelEndsAsWritten(p: Profile)
    ensures ChannelEndOf(ClosesAsWritten(PromptCmd, PromptDispatch(p).provider))
            == (if p.provider == "openai" then EndsOnce else PanicsOnSecondClose)
    ensures ChannelEndOf(ClosesAsWritten(AskCmd, AskDispatch(p).provider))
            == (if p.provider == "openai" then BlocksForever else EndsOnce)
  {
  }

  /** The discipline the two commands need: the command closes the channel
      exactly when the provider does not. This is the intended rule written
      down as a definition, not a property derived from the code, so the
      single close of `Closes` holds by construction. */
  predicate CommandCloses(prov: Provider) {
    !ProviderCloses(prov)
  }

  function Closes(prov: Provider): (n: nat)
    ensures n == 1
  {
    (if ProviderCloses(prov) then 1 else 0) + (if CommandCloses(prov) then 1 else 0)
  }

  /** With it, every streamed answer of either command ends exactly once. */
  lemma ChannelEndsOnce(c: Command, p: Profile)
    ensures c == PromptCmd ==> ChannelEndOf(Closes(PromptDispatch(p).provider)) == EndsOnce
    ensures c == AskCmd ==> ChannelEndOf(Closes(AskDispatch(p).provider)) == EndsOnce
  {
  }
}
