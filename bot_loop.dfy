/** main: the credential check at startup, then cycle after cycle of fetch,
    check, parse and send. The network, the clock and the sleep are inputs or
    left out; the endless loop runs here over a finite list of cycles. */
module BotLoop {
  import opened Wrappers
  import opened Json
  import opened Homework

  /** The chat-bot client, as far as the bot can observe it: the messages the chat received. */
  class Bot {
    const token: string
    var sent: seq<string>

    constructor (token: string)
      ensures this.token == token && sent == []
    {
      this.token := token;
      sent := [];
    }

    /** send_message: the chat receives `message` when delivery works; a failed
        delivery is swallowed and changes nothing. */
    method SendMessage(message: string, delivers: bool)
      modifies this
      ensures sent == old(sent) + (if delivers then [message] else [])
    {
      if delivers {
        sent := sent + [message];
      }
    }
  }

  /** What one cycle meets: the API's answer, and whether the chat accepts the message sent in it. */
  datatype Cycle = Cycle(answer: ApiAnswer, delivers: bool)

  /** The part of a cycle's messages that reaches the chat. */
  function Received(cycle: Cycle): (r: seq<string>)
    ensures |r| <= 1
  {
    if cycle.delivers then CycleMessages(cycle.answer) else []
  }

  /** What the chat has received after the given cycles, in order. */
  function Transcript(cycles: seq<Cycle>): (r: seq<string>)
    ensures |r| <= |cycles|
  {
    if cycles == [] then [] else Transcript(cycles[..|cycles| - 1]) + Received(cycles[|cycles| - 1])
  }

  /** One pass of the try/except in main's loop. */
  method RunCycle(bot: Bot, cycle: Cycle)
    modifies bot
    ensures bot.sent == old(bot.sent) + Received(cycle)
  {
    var failure: Option<Error> := None;
    match cycle.answer {
      case Raised(text) =>
        failure := Some(ApiError(text));
      case Answer(response) =>
        var checked := CheckResponse(response);
        if checked.Failure? {
          failure := Some(checked.error);
        } else {
          var homeworks := response.fields["homeworks"].items;
          if homeworks != [] {
            var parsed := ParseStatus(homeworks[0]);
            if parsed.Failure? {
              failure := Some(parsed.error);
            } else {
              bot.SendMessage(parsed.value, cycle.delivers);
            }
          }
        }
    }
    if failure.Some? {
      bot.SendMessage(FailureMessage(failure.value), cycle.delivers);
    }
  }

  /** main: check_tokens first; when it raises, the process stops before the
      bot is built. Otherwise every cycle runs, whatever the earlier ones raised. */
  method RunBot(credentials: Credentials, cycles: seq<Cycle>) returns (r: Result<Bot, Error>)
    ensures r.Failure? <==> CheckTokens(credentials).Failure?
    ensures r.Failure? ==> r.error == MissingCredentials
    ensures r.Success? ==> fresh(r.value) && r.value.sent == Transcript(cycles)
    ensures r.Success? ==> credentials.telegramToken == Some(r.value.token)
  {
    var tokens := CheckTokens(credentials);
    if tokens.Failure? {
      return Failure(tokens.error);
    }
    var bot := new Bot(credentials.telegramToken.value);
    var i := 0;
    while i < |cycles|
      invariant 0 <= i <= |cycles|
      invariant bot.sent == Transcript(cycles[..i])
    {
      RunCycle(bot, cycles[i]);
      assert cycles[..i + 1][..i] == cycles[..i];
      i := i + 1;
    }
    assert cycles[..|cycles|] == cycles;
    return Success(bot);
  }

  /** The transcript of two consecutive runs of cycles is the transcript of
      the first followed by that of the second. */
  lemma {:induction false} TranscriptAppend(first: seq<Cycle>, rest: seq<Cycle>)
    ensures Transcript(first + rest) == Transcript(first) + Transcript(rest)
    decreases |rest|
  {
    if rest == [] {
      assert first + rest == first;
    } else {
      var last := rest[|rest| - 1];
      var init := rest[..|rest| - 1];
      assert first + rest == (first + init) + [last];
      assert (first + rest)[..|first + rest| - 1] == first + init;
      TranscriptAppend(first, init);
    }
  }

}
