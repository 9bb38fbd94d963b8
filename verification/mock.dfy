/** The mock providers (sub-package `mock.Provider` and the flat
    `llm.MockProvider`, which are the same): the reply echoes both prompts,
    and the stream sends that reply as its one chunk. */
module Mock {
  import opened Wrappers
  import opened Llm
  import GoStrings

  const Header := "\n--- Mock Response ---\nSystem Prompt: "
  const UserLabel := "\nUser Prompt: "
  const Footer := "\n---------------------\n"

  /** The reply `Chat` formats. */
  function Response(systemPrompt: string, userPrompt: string): (r: string)
    ensures GoStrings.HasPrefix(r, Header) && GoStrings.HasSuffix(r, Footer)
    ensures |r| == |Header| + |systemPrompt| + |UserLabel| + |userPrompt| + |Footer|
  {
    Header + systemPrompt + UserLabel + userPrompt + Footer
  }

  datatype Error = Canceled   // ctx.Err()

  /** `Chat` never fails. */
  function Chat(systemPrompt: string, userPrompt: string): (r: Result<string, Error>)
    ensures r.Ok?
  {
    Ok(Response(systemPrompt, userPrompt))
  }

  /** The system prompt as it stands in a reply: the text between the header
      and the first newline after it. */
  function SystemPart(reply: string): string
    requires GoStrings.HasPrefix(reply, Header)
  {
    UpToNewline(reply[|Header|..])
  }

  function UpToNewline(s: string): (r: string)
    ensures GoStrings.HasPrefix(s, r)
    ensures forall i :: 0 <= i < |r| ==> r[i] != '\n'
    ensures |r| < |s| ==> s[|r|] == '\n'
    decreases |s|
  {
    if |s| == 0 || s[0] == '\n' then [] else [s[0]] + UpToNewline(s[1..])
  }

  /** The text after the user label and before the footer. */
  function UserPart(reply: string, systemPrompt: string): string
    requires |reply| >= |Header| + |systemPrompt| + |UserLabel| + |Footer|
  {
    reply[|Header| + |systemPrompt| + |UserLabel|..|reply| - |Footer|]
  }

  lemma {:induction false} UpToNewlineOf(a: string, b: string)
    requires forall i :: 0 <= i < |a| ==> a[i] != '\n'
    requires |b| > 0 && b[0] == '\n'
    ensures UpToNewline(a + b) == a
    decreases |a|
  {
    if |a| == 0 {
      assert a + b == b;
    } else {
      assert (a + b)[1..] == a[1..] + b;
      UpToNewlineOf(a[1..], b);
    }
  }

  /** A reply gives back both prompts, provided the system prompt is one
      line (a newline in it would make the boundary ambiguous). */
  lemma ResponseRoundTrip(systemPrompt: string, userPrompt: string)
    requires forall i :: 0 <= i < |systemPrompt| ==> systemPrompt[i] != '\n'
    ensures var r := Response(systemPrompt, userPrompt);
            && SystemPart(r) == systemPrompt
            && UserPart(r, SystemPart(r)) == userPrompt
  {
    var r := Response(systemPrompt, userPrompt);
    var tail := UserLabel + userPrompt + Footer;
    assert r[|Header|..] == systemPrompt + tail;
    assert tail[0] == '\n';
    UpToNewlineOf(systemPrompt, tail);
    assert r == Header + systemPrompt + UserLabel + userPrompt + Footer;
    assert UserPart(r, systemPrompt) == userPrompt;
  }

  /** `ChatStream`: one `select` between sending the reply and the context. */
  function ChatStream(systemPrompt: string, userPrompt: string, ctx: Ctx): (r: Outcome<Error>)
    ensures ctx.Done() ==> r == Outcome([], Some(Canceled))
    ensures !ctx.Done() ==> r == Outcome([Chat(systemPrompt, userPrompt).value], None)
  {
    var steps := [Send(Response(systemPrompt, userPrompt))];
    assert steps[1..] == [];
    assert !ctx.Done() ==> Relay(steps[1..], ctx.Delivered(), Canceled).sent == [];
    Relay(steps, ctx, Canceled)
  }
}
