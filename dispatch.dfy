/** Command dispatch (tryToHandleMessage): an inbound chat message is routed on
    an exact match of its text to start monitoring, stop monitoring or help;
    anything else, and a body that did not decode, does nothing. */
module Dispatch {
  import opened Config
  import opened Boards

  /** The inbound message as decoded from the webhook body. */
  datatype Update = Update(chatId: int, text: string)

  datatype Command = Ignore | Start | Stop | Help

  const StartText: string := "/start"
  const StopText: string := "/stop"
  const HelpText: string := "/help"

  /** The action a message's text asks for. Only the exact command texts are
      recognised; the empty text and every other text are ignored. */
  function Route(text: string): (c: Command)
    ensures c == Start <==> text == StartText
    ensures c == Stop <==> text == StopText
    ensures c == Help <==> text == HelpText
  {
    if text == "" then Ignore
    else if text == StartText then Start
    else if text == StopText then Stop
    else if text == HelpText then Help
    else Ignore
  }

  /** A command with anything before or after it is ignored: only the exact
      command texts are recognised. */
  lemma RouteIgnoresNearMisses(command: string, pre: string, post: string)
    requires command == StartText || command == StopText || command == HelpText
    requires |pre| + |post| > 0
    ensures Route(pre + command + post) == Ignore
  {
    var text := pre + command + post;
    assert |text| == |pre| + |command| + |post|;
    if |text| == |StartText| {
      // a one-character extension of "/stop" or "/help" is never "/start"
      if |pre| == 0 {
        assert text[3] == command[3] != StartText[3];
      } else {
        assert text[1] == command[0] != StartText[1];
      }
    }
  }

  /** tryToHandleMessage. `body` is the decoded request body, or the decoding
      error; `name` and `link` are what the board-metadata request returns for
      a start, and `helpDelivery` what sending the help message returns. The
      error each action returns is only logged by the Go code; it is returned
      here so that the contract can speak about it. `blocked` is true when a
      stop blocks for ever on the nil channel of an unregistered board: the
      handler then never returns, and nothing after the send happens. */
  method TryToHandleMessage(registry: Registry, body: Result<Update>, env: Env,
                            name: string, link: string, helpDelivery: Status)
    returns (command: Command, err: Status, blocked: bool)
    requires registry.Valid()
    modifies registry
    ensures registry.Valid()
    ensures command == (if body.Err? then Ignore else Route(body.value.text))
    ensures command in {Ignore, Help} ==>
      && registry.boards == old(registry.boards)
      && registry.spawned == old(registry.spawned)
      && registry.signals == old(registry.signals)
    ensures command != Stop ==> !blocked
    ensures command == Ignore ==> err == Nil
    ensures command == Help ==> err == helpDelivery
    ensures command == Start ==>
      && registry.signals == old(registry.signals)
      && (GetBoardId(env).Err? ==> err == Error(GetBoardId(env).msg))
      && (GetBoardId(env).Ok? && GetTokenMiro(env).Err? ==> err == Error(GetTokenMiro(env).msg))
      && (err == Nil <==> GetBoardId(env).Ok? && GetTokenMiro(env).Ok?)
      && (err == Nil ==>
            && registry.boards == old(registry.boards)[GetBoardId(env).value := Board(name, link, Chan(|old(registry.spawned)|))]
            && registry.spawned == old(registry.spawned) + [Worker(GetBoardId(env).value, GetTokenMiro(env).value, body.value.chatId)])
      && (err != Nil ==> registry.boards == old(registry.boards) && registry.spawned == old(registry.spawned))
    ensures command == Stop ==>
      && registry.boards == old(registry.boards)
      && registry.spawned == old(registry.spawned)
      && (blocked <==> GetBoardId(env).Ok? && GetBoardId(env).value !in old(registry.boards))
      && (blocked ==> registry.signals == old(registry.signals))
      && (GetBoardId(env).Err? ==> err == Error(GetBoardId(env).msg) && registry.signals == old(registry.signals))
      && (GetBoardId(env).Ok? && !blocked ==>
            && registry.signals == old(registry.signals) + [old(registry.boards)[GetBoardId(env).value].stopWorker.id]
            && err == (if GetTokenMiro(env).Err? then Error(GetTokenMiro(env).msg) else Nil))
  {
    if body.Err? {
      return Ignore, Nil, false;
    }
    var update := body.value;
    command := Route(update.text);
    blocked := false;
    match command
    case Ignore =>
      err := Nil;
    case Start =>
      err := registry.StartMonitoringBoard(env, update.chatId, name, link);
    case Stop =>
      err, blocked := registry.StopMonitoringBoard(env, update.chatId);
    case Help =>
      err := helpDelivery;
  }
}
