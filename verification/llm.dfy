/** What the provider implementations share: the `llm.Message` record and the
    system-then-user message list, the HTTP exchange as an input, the host
    environment (home directory, working directory, readable JSON files), and
    the way a `ChatStream` loop turns the events it reads into chunks sent on
    the response channel.

    Cancellation: a context is done once a given number of chunks has been
    delivered (or never). A send attempted while the context is done is not
    received, so a `select` between the send and `ctx.Done()` takes the
    `Done` branch; this is one of the choices Go's `select` may make. */
module Llm {
  import opened Wrappers

  /** `llm.Message`. */
  datatype Message = Message(role: string, content: string)

  /** The message list every chat-style provider builds: a system message
      only when the system prompt is non-empty, then the user message. */
  function ChatMessages(systemPrompt: string, userPrompt: string): (r: seq<Message>)
    ensures |r| == (if systemPrompt == "" then 1 else 2)
    ensures r[|r| - 1] == Message("user", userPrompt)
    ensures systemPrompt != "" ==> r[0] == Message("system", systemPrompt)
  {
    (if systemPrompt != "" then [Message("system", systemPrompt)] else []) + [Message("user", userPrompt)]
  }

  /** Reads the two prompts back from a message list of that shape. */
  function PromptsOf(msgs: seq<Message>): (r: Option<(string, string)>)
    ensures r.Some? ==> 1 <= |msgs| <= 2 && msgs[|msgs| - 1].role == "user"
  {
    if |msgs| == 1 && msgs[0].role == "user" then Some(("", msgs[0].content))
    else if |msgs| == 2 && msgs[0].role == "system" && msgs[0].content != "" && msgs[1].role == "user" then
      Some((msgs[0].content, msgs[1].content))
    else None
  }

  /** The message list loses nothing: both prompts can be read back, an empty
      system prompt included. */
  lemma ChatMessagesRoundTrip(systemPrompt: string, userPrompt: string)
    ensures PromptsOf(ChatMessages(systemPrompt, userPrompt)) == Some((systemPrompt, userPrompt))
  {
  }

  /** And the lists of that shape are exactly the ones `ChatMessages` builds. */
  lemma ChatMessagesOnto(msgs: seq<Message>)
    requires PromptsOf(msgs).Some?
    ensures ChatMessages(PromptsOf(msgs).value.0, PromptsOf(msgs).value.1) == msgs
  {
    if |msgs| == 1 {
      assert msgs[0] == Message("user", msgs[0].content);
    } else {
      assert msgs[0] == Message("system", msgs[0].content);
      assert msgs[1] == Message("user", msgs[1].content);
    }
  }

  // ---------------------------------------------------------------------
  // Inputs

  /** The outcome of one HTTP exchange: no response at all, or a status code,
      the raw body text, and the body as the provider's decoder sees it. */
  datatype Http<B> = Unreachable(reason: string) | Answered(status: int, raw: string, body: B)

  const StatusOK := 200

  /** Whether `url.Parse` accepts a URL, which `http.NewRequestWithContext`
      needs before any request exists ("error creating request"). The URL
      parser itself is not modelled: it is given as a parameter. */
  type UrlParser = string -> bool

  /** A file holding a JSON document, as `json.Unmarshal` into a struct of
      string fields sees it: no bytes at all, not an object of that shape,
      or the string fields it has (a missing field reads as ""). */
  datatype JsonFile = Empty | Malformed | Fields(fields: map<string, string>) {
    function Field(name: string): string
      requires Fields?
    {
      if name in fields then fields[name] else ""
    }
  }

  /** The host: home directory and working directory lookups (which may
      fail), the files that can be read, and the paths `os.Stat` does not
      report as missing although they cannot be read (a file without read
      permission, a path under a directory that cannot be searched). */
  datatype Host = Host(home: Option<string>, workingDir: Option<string>, files: map<string, JsonFile>,
                       unreadable: set<string>)
  {
    /** `os.Stat` on the path does not fail with a not-exist error. */
    predicate StatFinds(path: string) {
      path in files || path in unreadable
    }
  }

  // ---------------------------------------------------------------------
  // Streaming

  datatype Ctx = Ctx(budget: Option<nat>) {
    predicate Done() {
      budget == Some(0)
    }

    /** The context after one more chunk has been delivered. */
    function Delivered(): Ctx
      requires !Done()
    {
      match budget
      case None => this
      case Some(n) => Ctx(Some(n - 1))
    }
  }

  /** A context that is never done (`context.Background()`). */
  const Background := Ctx(None)

  /** What one iteration of a stream loop does with the event it read. */
  datatype Step<E> = Skip | Fail(error: E) | Send(chunk: string)

  /** The step each item of a stream stands for, in order. */
  function Classified<X, E>(items: seq<X>, classify: X -> Step<E>): (r: seq<Step<E>>)
    ensures |r| == |items|
    ensures forall i :: 0 <= i < |items| ==> r[i] == classify(items[i])
  {
    seq(|items|, i requires 0 <= i < |items| => classify(items[i]))
  }

  /** The chunks sent, in order, and the error `ChatStream` returns (`None`: nil). */
  datatype Outcome<E> = Outcome(sent: seq<string>, error: Option<E>)

  function Prepend<E>(chunk: string, o: Outcome<E>): (r: Outcome<E>)
  {
    Outcome([chunk] + o.sent, o.error)
  }

  /** A loop whose sends are `select { case ch <- chunk: case <-ctx.Done(): return ctx.Err() }`. */
  function Relay<E>(steps: seq<Step<E>>, ctx: Ctx, canceled: E): (r: Outcome<E>)
    ensures ctx.budget.Some? ==> |r.sent| <= ctx.budget.value
    decreases |steps|
  {
    if |steps| == 0 then Outcome([], None)
    else match steps[0]
      case Skip => Relay(steps[1..], ctx, canceled)
      case Fail(e) => Outcome([], Some(e))
      case Send(c) =>
        if ctx.Done() then Outcome([], Some(canceled))
        else Prepend(c, Relay(steps[1..], ctx.Delivered(), canceled))
  }

  /** A loop that checks `ctx.Done()` at the top of every event and then sends
      without a `select`. */
  function RelayChecked<E>(steps: seq<Step<E>>, ctx: Ctx, canceled: E): (r: Outcome<E>)
    ensures ctx.budget.Some? ==> |r.sent| <= ctx.budget.value
    decreases |steps|
  {
    if |steps| == 0 then Outcome([], None)
    else if ctx.Done() then Outcome([], Some(canceled))
    else match steps[0]
      case Skip => RelayChecked(steps[1..], ctx, canceled)
      case Fail(e) => Outcome([], Some(e))
      case Send(c) => Prepend(c, RelayChecked(steps[1..], ctx.Delivered(), canceled))
  }

  /** The check after the loop (`scanner.Err()`, `stream.Err()`): it reports
      only when the loop itself ended normally. */
  function AfterLoop<E>(o: Outcome<E>, tail: Option<E>): (r: Outcome<E>)
    ensures r.sent == o.sent
    ensures o.error.Some? ==> r == o
    ensures o.error.None? ==> r.error == tail
  {
    if o.error.None? then Outcome(o.sent, tail) else o
  }

  // Reference definitions of an uncancelled loop.

  /** The chunks of the `Send` steps, in order. */
  function Sends<E>(steps: seq<Step<E>>): seq<string>
    decreases |steps|
  {
    if |steps| == 0 then []
    else if steps[0].Send? then [steps[0].chunk] + Sends(steps[1..])
    else Sends(steps[1..])
  }

  /** The steps before the first `Fail`. */
  function BeforeFail<E>(steps: seq<Step<E>>): (r: seq<Step<E>>)
    ensures forall i :: 0 <= i < |r| ==> !r[i].Fail?
    decreases |steps|
  {
    if |steps| == 0 || steps[0].Fail? then []
    else [steps[0]] + BeforeFail(steps[1..])
  }

  /** The error of the first `Fail` step, if any. */
  function FirstFail<E>(steps: seq<Step<E>>): Option<E>
    decreases |steps|
  {
    if |steps| == 0 then None
    else if steps[0].Fail? then Some(steps[0].error)
    else FirstFail(steps[1..])
  }

  /** Without cancellation a loop sends every chunk before the first failing
      event, in order, and returns that failure (or nil). */
  lemma {:induction false} RelayUncancelled<E>(steps: seq<Step<E>>, canceled: E)
    ensures Relay(steps, Background, canceled) == Outcome(Sends(BeforeFail(steps)), FirstFail(steps))
    decreases |steps|
  {
    if |steps| > 0 && !steps[0].Fail? {
      RelayUncancelled(steps[1..], canceled);
      var bf := BeforeFail(steps);
      assert bf[0] == steps[0] && bf[1..] == BeforeFail(steps[1..]);
    }
  }

  /** Cancellation after `n` deliveries cuts the uncancelled outcome short:
      if fewer than `n + 1` chunks would be sent nothing changes, otherwise
      exactly the first `n` chunks are sent and the context error returned. */
  lemma {:induction false} RelayCancelled<E>(steps: seq<Step<E>>, n: nat, canceled: E)
    ensures var u := Relay(steps, Background, canceled);
            var c := Relay(steps, Ctx(Some(n)), canceled);
            && (|u.sent| <= n ==> c == u)
            && (|u.sent| > n ==> c == Outcome(u.sent[..n], Some(canceled)))
    decreases |steps|
  {
    if |steps| > 0 {
      match steps[0]
      case Skip =>
        RelayCancelled(steps[1..], n, canceled);
      case Fail(_) =>
      case Send(ch) =>
        if n > 0 {
          RelayCancelled(steps[1..], n - 1, canceled);
          var u := Relay(steps, Background, canceled);
          var u1 := Relay(steps[1..], Background, canceled);
          assert u.sent == [ch] + u1.sent;
          assert |u1.sent| > n - 1 ==> u.sent[..n] == [ch] + u1.sent[..n - 1];
        }
    }
  }

  /** A loop that checks the context before each event behaves, when nothing
      cancels it, exactly like one that checks at each send. */
  lemma {:induction false} RelayCheckedUncancelled<E>(steps: seq<Step<E>>, canceled: E)
    ensures RelayChecked(steps, Background, canceled) == Relay(steps, Background, canceled)
    decreases |steps|
  {
    if |steps| > 0 && !steps[0].Fail? {
      RelayCheckedUncancelled(steps[1..], canceled);
    }
  }

  /** Under cancellation the per-event check also delivers a prefix of the
      uncancelled chunks, and it reports the context error whenever that loop
      would have sent more than `n` chunks. */
  lemma {:induction false} RelayCheckedCancelled<E>(steps: seq<Step<E>>, n: nat, canceled: E)
    ensures var u := Relay(steps, Background, canceled);
            var c := RelayChecked(steps, Ctx(Some(n)), canceled);
            && |c.sent| <= |u.sent| && c.sent == u.sent[..|c.sent|]
            && (|u.sent| > n ==> c == Outcome(u.sent[..n], Some(canceled)))
            && (c.error != Some(canceled) ==> c == u)
    decreases |steps|
  {
    if |steps| > 0 && n > 0 {
      match steps[0]
      case Skip =>
        RelayCheckedCancelled(steps[1..], n, canceled);
      case Fail(_) =>
      case Send(ch) =>
        RelayCheckedCancelled(steps[1..], n - 1, canceled);
        var u := Relay(steps, Background, canceled);
        var u1 := Relay(steps[1..], Background, canceled);
        var c1 := RelayChecked(steps[1..], Ctx(Some(n - 1)), canceled);
        assert u.sent == [ch] + u1.sent;
        assert u.sent[..|c1.sent| + 1] == [ch] + u1.sent[..|c1.sent|];
        assert |u1.sent| > n - 1 ==> u.sent[..n] == [ch] + u1.sent[..n - 1];
    } else if |steps| > 0 {
      assert RelayChecked(steps, Ctx(Some(n)), canceled) == Outcome([], Some(canceled));
    }
  }
}
