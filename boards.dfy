/** The board registry: the process-wide table from board id to the board's
    cached name and link and the stop handle of the worker watching it, with
    the start and stop operations that update it and the notification text
    built from it. */
module Boards {
  import opened Config

  /** A worker's stop channel. `NilChan` is Go's nil channel, the handle of the
      zero Board; `Chan(id)` is the channel made for the id-th worker started. */
  datatype Handle = NilChan | Chan(id: nat)

  /** A registry entry: name and link fetched once at start, and the stop handle. */
  datatype Board = Board(name: string, link: string, stopWorker: Handle)

  /** A worker goroutine as it was spawned: the board it polls, the token it
      polls with and the chat it notifies. Its stop handle is its position in
      the registry's log of spawned workers. */
  datatype Worker = Worker(boardId: string, token: string, chatId: int)

  /** A message handed to the messaging transport. */
  datatype Message = Message(chatId: int, text: string)

  /** Go's map index: the entry, or the zero Board when the id is absent. */
  function Lookup(boards: map<string, Board>, id: string): (b: Board)
    ensures id in boards ==> b == boards[id]
    ensures id !in boards ==> b.name == "" && b.link == "" && b.stopWorker == NilChan
  {
    if id in boards then boards[id] else Board("", "", NilChan)
  }

  const NotificationPrefix: string := "On board "
  const NotificationMiddle: string := " changes were made: "

  /** The notification text: the board's name, then its link. */
  function NotificationText(name: string, link: string): (t: string)
    ensures |t| == |NotificationPrefix| + |name| + |NotificationMiddle| + |link|
    ensures t[..|NotificationPrefix|] == NotificationPrefix
    ensures t[|NotificationPrefix|..|NotificationPrefix| + |name|] == name
    ensures t[|NotificationPrefix| + |name|..|t| - |link|] == NotificationMiddle
    ensures t[|t| - |link|..] == link
  {
    NotificationPrefix + name + NotificationMiddle + link
  }

  /** sendNotification's message: the text for the board registered under
      `boardId` at the time of sending, addressed to `chatId`. */
  function Notification(boards: map<string, Board>, boardId: string, chatId: int): (m: Message)
    ensures m.chatId == chatId
    ensures boardId in boards ==> m.text == NotificationText(boards[boardId].name, boards[boardId].link)
    ensures boardId !in boards ==> m.text == NotificationPrefix + NotificationMiddle
  {
    var b := Lookup(boards, boardId);
    Message(chatId, NotificationText(b.name, b.link))
  }

  /** Every entry's stop handle is the channel of a worker spawned for that
      same board. */
  ghost predicate Tracks(boards: map<string, Board>, spawned: seq<Worker>)
  {
    forall id :: id in boards ==>
      && boards[id].stopWorker.Chan?
      && boards[id].stopWorker.id < |spawned|
      && spawned[boards[id].stopWorker.id].boardId == id
  }

  /** Two boards never share a stop handle, so stopping one board can never
      stop the worker of another. */
  lemma HandlesDistinct(boards: map<string, Board>, spawned: seq<Worker>, a: string, b: string)
    requires Tracks(boards, spawned)
    requires a in boards && b in boards && a != b
    ensures boards[a].stopWorker != boards[b].stopWorker
  {
  }

  /** Re-registering a board with a fresh handle keeps the table consistent
      but leaves the earlier worker's handle in no entry at all: no other board
      holds it and the board's new handle differs from it, so nothing can stop
      that worker any more. */
  lemma OverwriteOrphans(boards: map<string, Board>, spawned: seq<Worker>, id: string, w: Worker, b: Board)
    requires Tracks(boards, spawned) && id in boards
    requires w.boardId == id && b.stopWorker == Chan(|spawned|)
    ensures Tracks(boards[id := b], spawned + [w])
    ensures b.stopWorker != boards[id].stopWorker
    ensures forall k :: k in boards && k != id ==> boards[k].stopWorker != boards[id].stopWorker
  {
    forall k | k in boards && k != id
      ensures boards[k].stopWorker != boards[id].stopWorker
    {
      HandlesDistinct(boards, spawned, k, id);
    }
  }

  class Registry {
    /** The `boards` map. */
    var boards: map<string, Board>
    /** Every worker ever spawned; worker h owns the channel Chan(h). */
    var spawned: seq<Worker>
    /** The stop signals sent, in order: the handle ids written to. */
    var signals: seq<nat>

    ghost predicate Valid()
      reads this
    {
      && Tracks(boards, spawned)
      && forall i :: 0 <= i < |signals| ==> signals[i] < |spawned|
    }

    constructor ()
      ensures Valid()
      ensures boards == map[] && spawned == [] && signals == []
    {
      boards := map[];
      spawned := [];
      signals := [];
    }

    /** startMonitoringBoard. `name` and `link` are what getBoardName fetched
        for the board ("" and "" when the request or the decoding of its reply
        failed). A reply without a string name or link, on which getBoardName
        panics, is not modelled. */
    method StartMonitoringBoard(env: Env, chatId: int, name: string, link: string) returns (err: Status)
      requires Valid()
      modifies this
      ensures Valid()
      ensures GetBoardId(env).Err? ==> err == Error(GetBoardId(env).msg)
      ensures GetBoardId(env).Ok? && GetTokenMiro(env).Err? ==> err == Error(GetTokenMiro(env).msg)
      ensures err == Nil <==> GetBoardId(env).Ok? && GetTokenMiro(env).Ok?
      ensures err.Error? ==> boards == old(boards) && spawned == old(spawned)
      ensures err == Nil ==>
        var id := GetBoardId(env).value;
        && boards == old(boards)[id := Board(name, link, Chan(|old(spawned)|))]
        && spawned == old(spawned) + [Worker(id, GetTokenMiro(env).value, chatId)]
      ensures err == Nil ==> forall k :: k in old(boards) && k != GetBoardId(env).value ==>
        k in boards && boards[k] == old(boards)[k]
      ensures signals == old(signals)
    {
      var boardId := GetBoardId(env);
      if boardId.Err? {
        return Error(boardId.msg);
      }
      var token := GetTokenMiro(env);
      if token.Err? {
        return Error(token.msg);
      }
      var stop := Chan(|spawned|);
      boards := boards[boardId.value := Board(name, link, stop)];
      spawned := spawned + [Worker(boardId.value, token.value, chatId)];
      err := Nil;
    }

    /** stopMonitoringBoard: writes to the stop channel of the registered board
        and never removes its entry. The signal is sent before TOKEN_MIRO is
        read, so a missing token still stops the worker. For an id that was
        never registered the send goes to the zero Board's nil channel and
        blocks for ever: `blocked` is then true, and nothing after the send
        happens. */
    method StopMonitoringBoard(env: Env, chatId: int) returns (err: Status, blocked: bool)
      requires Valid()
      modifies this
      ensures Valid()
      ensures boards == old(boards) && spawned == old(spawned)
      ensures blocked <==> GetBoardId(env).Ok? && GetBoardId(env).value !in boards
      ensures blocked ==> signals == old(signals) && err == Nil
      ensures GetBoardId(env).Err? ==> err == Error(GetBoardId(env).msg) && signals == old(signals)
      ensures GetBoardId(env).Ok? && !blocked ==>
        var id := GetBoardId(env).value;
        && signals == old(signals) + [boards[id].stopWorker.id]
        && err == (if GetTokenMiro(env).Err? then Error(GetTokenMiro(env).msg) else Nil)
    {
      var boardId := GetBoardId(env);
      if boardId.Err? {
        return Error(boardId.msg), false;
      }
      var stop := Lookup(boards, boardId.value).stopWorker;
      if stop == NilChan {
        return Nil, true;
      }
      signals := signals + [stop.id];
      var token := GetTokenMiro(env);
      if token.Err? {
        return Error(token.msg), false;
      }
      err, blocked := Nil, false;
    }
  }
}
