/** The conversation of app.js: `doNextAction` decides what to send from the
    two stored answers, `receivedPostback` turns a button press into a write
    (`setTargetMood` / `setTargetLocation`), `receivedMessage` classifies an
    incoming message. The class `Bot` runs these against the store and the
    dispatch queue, one event at a time. */
module Flow {
  import opened Common
  import opened Messages
  import opened Database
  import opened Dispatch

  /** What `doNextAction` sends, in order, and whether it then resets the answers. */
  datatype Action = Action(messages: seq<Msg>, reset: bool)

  /** The decision inside `doNextAction`. The introduction goes out only when
      the mood was never stored (NULL), not after a reset to -1. */
  function NextAction(s: UserState): (a: Action)
    ensures s.targetMood.None? ==> a == Action([Intro, MoodSelection], false)
    ensures s.targetMood == Some(-1) ==> a == Action([MoodSelection], false)
    ensures (s.targetMood.Some? && s.targetMood != Some(-1) &&
             (s.targetLocation.None? || s.targetLocation == Some(-1))) ==> a == Action([LocationSelection], false)
    ensures (s.targetMood.Some? && s.targetMood != Some(-1) &&
             s.targetLocation.Some? && s.targetLocation != Some(-1)) ==>
              a == Action([PleaseWait, AudioLink(AudioIndex(s.targetMood.value, s.targetLocation.value)), Closing], true)
  {
    var intro := if s.targetMood.None? then [Intro] else [];
    if s.targetMood.None? || s.targetMood == Some(-1) then
      Action(intro + [MoodSelection], false)
    else if s.targetLocation.None? || s.targetLocation == Some(-1) then
      Action([LocationSelection], false)
    else
      Action([PleaseWait, AudioLink(AudioIndex(s.targetMood.value, s.targetLocation.value)), Closing], true)
  }

  /** The write a postback asks for. */
  datatype Write = SetMood(option: int) | SetLocation(option: int)

  /** The payload test of `receivedPostback`; any other payload writes nothing. */
  function PostbackWrite(payload: string): (w: Option<Write>)
    ensures w.Some? ==> 1 <= w.value.option <= 3
  {
    if payload == "mood-option-1" then Some(SetMood(1))
    else if payload == "mood-option-2" then Some(SetMood(2))
    else if payload == "mood-option-3" then Some(SetMood(3))
    else if payload == "location-option-1" then Some(SetLocation(1))
    else if payload == "location-option-2" then Some(SetLocation(2))
    else if payload == "location-option-3" then Some(SetLocation(3))
    else None
  }

  /** The buttons of the two selection templates and the postback handler agree:
      button i of the mood template writes mood i + 1, button i of the location
      template writes location i + 1, and no other payload writes anything. */
  lemma PostbackWriteMatchesButtons(payload: string)
    ensures forall i :: 0 <= i < 3 ==> PostbackWrite(Buttons(MoodSelection)[i]) == Some(SetMood(i + 1))
    ensures forall i :: 0 <= i < 3 ==> PostbackWrite(Buttons(LocationSelection)[i]) == Some(SetLocation(i + 1))
    ensures PostbackWrite(payload).Some? <==>
              payload in Buttons(MoodSelection) || payload in Buttons(LocationSelection)
  {
    var moods, locations := Buttons(MoodSelection), Buttons(LocationSelection);
    assert moods == ["mood-option-1", "mood-option-2", "mood-option-3"];
    assert locations == ["location-option-1", "location-option-2", "location-option-3"];
    assert payload in moods <==> payload == moods[0] || payload == moods[1] || payload == moods[2];
    assert payload in locations <==> payload == locations[0] || payload == locations[1] || payload == locations[2];
  }

  /** `setTargetMood`: an existing row gets only the mood; a new row gets the
      mood and location -1. */
  function SetTargetMood(users: Store, fbid: UserId, targetMood: int): Result<Store, DbError>
  {
    Upsert(users, fbid, [("targetmood", targetMood)], [("targetmood", targetMood), ("targetlocation", -1)])
  }

  /** `setTargetLocation`: an existing row gets only the location; a new row
      gets mood -1 and the location. */
  function SetTargetLocation(users: Store, fbid: UserId, targetLocation: int): Result<Store, DbError>
  {
    Upsert(users, fbid, [("targetlocation", targetLocation)], [("targetmood", -1), ("targetlocation", targetLocation)])
  }

  lemma SetTargetMoodEffect(users: Store, fbid: UserId, targetMood: int)
    ensures SetTargetMood(users, fbid, targetMood).Ok?
    ensures var after := RetrieveUserState(SetTargetMood(users, fbid, targetMood).value, fbid);
            && after.targetMood == Some(targetMood)
            && after.targetLocation == (if fbid in users then RetrieveUserState(users, fbid).targetLocation else Some(-1))
    ensures forall u :: u in users && u != fbid ==> SetTargetMood(users, fbid, targetMood).value[u] == users[u]
  {
    var upd: Data := [("targetmood", targetMood)];
    assert upd[..0] == [];
    assert ValidAssignments(upd);
    assert Columns[0] == "targetmood" && Columns[1] == "targetlocation";
    assert Lookup(upd, "targetmood") == Some(targetMood);
    assert Lookup(upd, "targetlocation") == None;
  }

  lemma SetTargetLocationEffect(users: Store, fbid: UserId, targetLocation: int)
    ensures SetTargetLocation(users, fbid, targetLocation).Ok?
    ensures var after := RetrieveUserState(SetTargetLocation(users, fbid, targetLocation).value, fbid);
            && after.targetLocation == Some(targetLocation)
            && after.targetMood == (if fbid in users then RetrieveUserState(users, fbid).targetMood else Some(-1))
    ensures forall u :: u in users && u != fbid ==> SetTargetLocation(users, fbid, targetLocation).value[u] == users[u]
  {
    var upd: Data := [("targetlocation", targetLocation)];
    assert upd[..0] == [];
    assert ValidAssignments(upd);
    assert Columns[0] == "targetmood" && Columns[1] == "targetlocation";
    assert Lookup(upd, "targetlocation") == Some(targetLocation);
    assert Lookup(upd, "targetmood") == None;
  }

  function ApplyWrite(users: Store, fbid: UserId, w: Write): Result<Store, DbError>
  {
    match w
    case SetMood(n) => SetTargetMood(users, fbid, n)
    case SetLocation(n) => SetTargetLocation(users, fbid, n)
  }

  /** The store after a handler and the messages it enqueued, in order. */
  datatype Turn = Turn(users: Store, messages: seq<Msg>)

  /** `doNextAction`: read the answers, decide, and reset after a completed
      flow. A failed reset would throw after the messages were queued. */
  function NextTurn(users: Store, fbid: UserId): Turn
  {
    var a := NextAction(RetrieveUserState(users, fbid));
    Turn(if a.reset then ResetAnswers(users, fbid) else users, a.messages)
  }

  /** The store after `resetUserData`, whose failure nobody observes. */
  function ResetAnswers(users: Store, fbid: UserId): Store
  {
    match ResetUserData(users, fbid)
    case Ok(u) => u
    case Err(_) => users
  }

  /** `receivedPostback`: write the answer, then `doNextAction`; a failed write
      throws and nothing follows; an unknown payload does nothing. */
  function HandlePostback(users: Store, fbid: UserId, payload: string): Result<Turn, DbError>
  {
    match PostbackWrite(payload)
    case None => Ok(Turn(users, []))
    case Some(w) =>
      match ApplyWrite(users, fbid, w)
      case Err(e) => Err(e)
      case Ok(written) => Ok(NextTurn(written, fbid))
  }

  // ---------------------------------------------------------------------
  // Stored answers stay in range, so every audio link names a sound file

  predicate ValidAnswer(v: int)
  {
    v == -1 || 1 <= v <= 3
  }

  predicate WellFormedRow(row: Row)
  {
    forall k :: k in row ==> k in Columns && ValidAnswer(row[k])
  }

  /** Every stored answer is NULL, -1 or one of the three options. */
  predicate WellFormed(users: Store)
  {
    forall u :: u in users ==> WellFormedRow(users[u])
  }

  predicate AudioLinksValid(ms: seq<Msg>)
  {
    forall i :: 0 <= i < |ms| && ms[i].AudioLink? ==> 0 <= ms[i].index < |SoundFilenames|
  }

  lemma RowFromGets(row: Row, other: Row)
    requires WellFormedRow(other)
    requires forall k :: k in row ==> k in Columns
    requires forall k :: Get(row, k).Some? ==> Get(row, k) == Get(other, k) || ValidAnswer(Get(row, k).value)
    ensures WellFormedRow(row)
  {
    forall k | k in row ensures k in Columns && ValidAnswer(row[k]) {
      assert Get(row, k).Some?;
    }
  }

  lemma {:induction false} OverwriteKeepsColumns(row: Row, d: Data)
    requires forall k :: k in row ==> k in Columns
    requires forall i :: 0 <= i < |d| ==> d[i].0 in Columns
    ensures forall k :: k in Overwrite(row, d) ==> k in Columns
    decreases |d|
  {
    if d != [] {
      OverwriteKeepsColumns(row, d[..|d| - 1]);
    }
  }

  /** A write of an option in 1..3 keeps the store well formed. */
  lemma ApplyWriteKeepsWellFormed(users: Store, fbid: UserId, w: Write)
    requires WellFormed(users) && 1 <= w.option <= 3
    ensures ApplyWrite(users, fbid, w).Ok?
    ensures WellFormed(ApplyWrite(users, fbid, w).value)
  {
    var upd: Data := if w.SetMood? then [("targetmood", w.option)] else [("targetlocation", w.option)];
    var ins: Data := if w.SetMood? then [("targetmood", w.option), ("targetlocation", -1)]
                     else [("targetmood", -1), ("targetlocation", w.option)];
    assert ApplyWrite(users, fbid, w) == Upsert(users, fbid, upd, ins);
    assert upd[..0] == [];
    assert ValidAssignments(upd);
    var after := ApplyWrite(users, fbid, w).value;
    forall u | u in after ensures WellFormedRow(after[u]) {
      if u == fbid {
        if fbid in users {
          OverwriteKeepsColumns(users[fbid], upd);
          forall k | Get(after[u], k).Some?
            ensures Get(after[u], k) == Get(users[fbid], k) || ValidAnswer(Get(after[u], k).value)
          {
          }
          RowFromGets(after[u], users[fbid]);
        } else {
          RowFromGets(after[u], map[]);
        }
      }
    }
  }

  /** A reset keeps the store well formed. */
  lemma ResetKeepsWellFormed(users: Store, fbid: UserId)
    requires WellFormed(users)
    ensures ResetUserData(users, fbid).Ok?
    ensures WellFormed(ResetUserData(users, fbid).value)
  {
    ResetUserDataSetsMinusOne(users, fbid);
    assert ValidAssignments(ResetData);
    var after := ResetUserData(users, fbid).value;
    forall u | u in after ensures WellFormedRow(after[u]) {
      if u == fbid {
        if fbid in users {
          OverwriteKeepsColumns(users[fbid], ResetData);
          forall k | Get(after[u], k).Some?
            ensures Get(after[u], k) == Get(users[fbid], k) || ValidAnswer(Get(after[u], k).value)
          {
            ResetDataLookup(k);
          }
          RowFromGets(after[u], users[fbid]);
        } else {
          RowFromGets(after[u], map[]);
        }
      }
    }
  }

  /** From a well-formed store, `doNextAction` keeps it well formed and any
      audio link it sends selects one of the nine sound files. */
  lemma NextTurnKeepsWellFormed(users: Store, fbid: UserId)
    requires WellFormed(users)
    ensures WellFormed(NextTurn(users, fbid).users)
    ensures AudioLinksValid(NextTurn(users, fbid).messages)
  {
    ResetKeepsWellFormed(users, fbid);
    var s := RetrieveUserState(users, fbid);
    if fbid in users {
      var row := users[fbid];
      assert s.targetMood.Some? ==> ValidAnswer(row["targetmood"]);
      assert s.targetLocation.Some? ==> ValidAnswer(row["targetlocation"]);
    }
  }

  /** Every postback, from a well-formed store, succeeds, keeps the store well
      formed and sends only audio links that name a sound file. */
  lemma HandlePostbackKeepsWellFormed(users: Store, fbid: UserId, payload: string)
    requires WellFormed(users)
    ensures HandlePostback(users, fbid, payload).Ok?
    ensures WellFormed(HandlePostback(users, fbid, payload).value.users)
    ensures AudioLinksValid(HandlePostback(users, fbid, payload).value.messages)
  {
    match PostbackWrite(payload)
    case None =>
    case Some(w) =>
      ApplyWriteKeepsWellFormed(users, fbid, w);
      NextTurnKeepsWellFormed(ApplyWrite(users, fbid, w).value, fbid);
  }

  // ---------------------------------------------------------------------
  // Whole conversations

  /** A first conversation: a new user writes, is introduced and asked the
      mood; answers mood i, is asked the location; answers location j, gets
      the sound (mood - 1) * 3 + (location - 1) and is reset to -1/-1; the next
      message asks the mood again without the introduction. */
  lemma FirstConversation(users: Store, fbid: UserId, mood: int, location: int)
    requires fbid !in users && 1 <= mood <= 3 && 1 <= location <= 3
    ensures var t1 := NextTurn(users, fbid);
            && t1 == Turn(users, [Intro, MoodSelection])
            && var p2 := HandlePostback(t1.users, fbid, Buttons(MoodSelection)[mood - 1]);
            && p2.Ok? && p2.value.messages == [LocationSelection]
            && var p3 := HandlePostback(p2.value.users, fbid, Buttons(LocationSelection)[location - 1]);
            && p3.Ok? && p3.value.messages == [PleaseWait, AudioLink((mood - 1) * 3 + (location - 1)), Closing]
            && RetrieveUserState(p3.value.users, fbid) == UserState(Some(-1), Some(-1))
            && NextTurn(p3.value.users, fbid).messages == [MoodSelection]
  {
    assert NextTurn(users, fbid) == Turn(users, [Intro, MoodSelection]);
    MoodAnswerAsksLocation(users, fbid, mood);
    var u2 := SetTargetMood(users, fbid, mood).value;
    LocationAnswerCompletes(u2, fbid, mood, location);
  }

  /** A new user's mood answer creates the row (mood, -1), and the location
      question follows. */
  lemma MoodAnswerAsksLocation(users: Store, fbid: UserId, mood: int)
    requires fbid !in users && 1 <= mood <= 3
    ensures var u := SetTargetMood(users, fbid, mood);
            && u.Ok? && fbid in u.value && RetrieveUserState(u.value, fbid) == UserState(Some(mood), Some(-1))
            && HandlePostback(users, fbid, Buttons(MoodSelection)[mood - 1]) == Ok(Turn(u.value, [LocationSelection]))
  {
    PostbackWriteMatchesButtons(Buttons(MoodSelection)[mood - 1]);
    SetTargetMoodEffect(users, fbid, mood);
  }

  /** Once a mood is stored, the location answer completes the flow: the
      sound for (mood, location) is sent and both answers are reset to -1. */
  lemma LocationAnswerCompletes(users: Store, fbid: UserId, mood: int, location: int)
    requires fbid in users && RetrieveUserState(users, fbid).targetMood == Some(mood)
    requires 1 <= mood <= 3 && 1 <= location <= 3
    ensures var p := HandlePostback(users, fbid, Buttons(LocationSelection)[location - 1]);
            && p.Ok? && p.value.messages == [PleaseWait, AudioLink((mood - 1) * 3 + (location - 1)), Closing]
            && RetrieveUserState(p.value.users, fbid) == UserState(Some(-1), Some(-1))
  {
    PostbackWriteMatchesButtons(Buttons(LocationSelection)[location - 1]);
    var u := SetTargetLocation(users, fbid, location).value;
    SetTargetLocationEffect(users, fbid, location);
    assert RetrieveUserState(u, fbid) == UserState(Some(mood), Some(location));
    ResetUserDataSetsMinusOne(u, fbid);
  }

  /** The mood write on an existing row leaves the location as it was, so a
      location button pressed while the mood was still -1 is kept, and the next
      mood answer completes the flow without asking the location question. */
  lemma StaleLocationAnswerIsKept(users: Store, fbid: UserId)
    requires fbid in users && RetrieveUserState(users, fbid) == UserState(Some(-1), Some(-1))
    ensures var p1 := HandlePostback(users, fbid, "location-option-2");
            && p1.Ok? && p1.value.messages == [MoodSelection]
            && var p2 := HandlePostback(p1.value.users, fbid, "mood-option-1");
            && p2.Ok? && p2.value.messages == [PleaseWait, AudioLink(1), Closing]
  {
    var u1 := SetTargetLocation(users, fbid, 2).value;
    SetTargetLocationEffect(users, fbid, 2);
    SetTargetMoodEffect(u1, fbid, 1);
  }

  // ---------------------------------------------------------------------
  // Incoming messages

  /** The parts of a `message` event that `receivedMessage` looks at. A text
      counts only when it is non-empty (JavaScript truthiness); an
      `attachments` property counts whenever it is present. */
  datatype MessageEvent = MessageEvent(
    sender: UserId, recipient: UserId, isEcho: bool,
    quickReply: Option<string>, text: Option<string>, hasAttachments: bool)

  datatype MessageKind = EchoMessage | QuickReplyMessage | TextMessage | AttachmentMessage | OtherMessage

  /** The order of tests in `receivedMessage`: echo, quick reply, text, attachments. */
  function Classify(e: MessageEvent): (k: MessageKind)
    ensures k == EchoMessage <==> e.isEcho
    ensures k == QuickReplyMessage <==> !e.isEcho && e.quickReply.Some?
    ensures k == TextMessage <==> !e.isEcho && e.quickReply.None? && e.text.Some? && e.text.value != ""
    ensures k == OtherMessage <==>
              !e.isEcho && e.quickReply.None? && (e.text.None? || e.text.value == "") && !e.hasAttachments
  {
    if e.isEcho then EchoMessage
    else if e.quickReply.Some? then QuickReplyMessage
    else if e.text.Some? && e.text.value != "" then TextMessage
    else if e.hasAttachments then AttachmentMessage
    else OtherMessage
  }

  // ---------------------------------------------------------------------
  // The handlers of app.js over the store and the dispatcher

  /** The dispatcher went from `q0` with logs `sent0`, `enqueued0` to `q` with
      logs `sent`, `enqueued` by one `addMessageToQueue` per message of
      `queued` for `fbid`, all at `now`. */
  ghost predicate AfterEnqueueAll(q0: Queues, sent0: seq<Delivery>, enqueued0: seq<Delivery>,
                                  fbid: UserId, queued: seq<Msg>, now: nat,
                                  q: Queues, sent: seq<Delivery>, enqueued: seq<Delivery>)
  {
    var s := EnqueueAll(q0, fbid, queued, now);
    && q == s.next
    && sent == sent0 + Addressed(fbid, s.dispatched)
    && enqueued == enqueued0 + Addressed(fbid, queued)
  }

  /** One `addMessageToQueue(fbid, m)` took the dispatcher from `q` to `q'`. */
  ghost predicate Pushed(q: Queues, sent: seq<Delivery>, enqueued: seq<Delivery>, fbid: UserId, m: Msg, now: nat,
                         q': Queues, sent': seq<Delivery>, enqueued': seq<Delivery>)
  {
    var s := AddToQueue(q, fbid, m, now);
    q' == s.next && sent' == sent + Addressed(fbid, s.dispatched) && enqueued' == enqueued + [Delivery(fbid, m)]
  }

  /** The bot: the answers store and the dispatch queue. */
  class Bot {
    const dispatcher: Dispatcher
    var users: Store

    ghost predicate Valid()
      reads this, dispatcher
    {
      dispatcher.Valid()
    }

    constructor (users: Store)
      ensures Valid() && fresh(dispatcher)
      ensures this.users == users && dispatcher.State() == Idle && dispatcher.sent == [] && dispatcher.enqueued == []
    {
      this.users := users;
      dispatcher := new Dispatcher();
    }

    /** `doNextAction(fbid)` at clock reading `now`: the messages of the turn
        are queued in order, and a completed flow resets the answers. */
    method DoNextAction(fbid: UserId, now: nat)
      requires Valid()
      modifies this, dispatcher
      ensures Valid()
      ensures var t := NextTurn(old(users), fbid);
              && users == t.users
              && AfterEnqueueAll(old(dispatcher.State()), old(dispatcher.sent), old(dispatcher.enqueued), fbid, t.messages, now,
                                 dispatcher.State(), dispatcher.sent, dispatcher.enqueued)
    {
      var obj := RetrieveUserState(users, fbid);
      OnRetrieveComplete(fbid, obj, now);
    }

    /** The callback `onRetrieveComplete(obj)` of `doNextAction`. */
    method OnRetrieveComplete(fbid: UserId, obj: UserState, now: nat)
      requires Valid()
      modifies this, dispatcher
      ensures Valid()
      ensures var a := NextAction(obj);
              && users == (if a.reset then ResetAnswers(old(users), fbid) else old(users))
              && AfterEnqueueAll(old(dispatcher.State()), old(dispatcher.sent), old(dispatcher.enqueued), fbid, a.messages, now,
                                 dispatcher.State(), dispatcher.sent, dispatcher.enqueued)
    {
      ghost var q0, sent0, enq0 := dispatcher.State(), dispatcher.sent, dispatcher.enqueued;
      if obj.targetMood.None? {
        dispatcher.AddMessageToQueue(fbid, Intro, now);
      }
      ghost var q1, sent1, enq1 := dispatcher.State(), dispatcher.sent, dispatcher.enqueued;
      if obj.targetMood.None? || obj.targetMood == Some(-1) {
        dispatcher.AddMessageToQueue(fbid, MoodSelection, now);
        if obj.targetMood.None? {
          QueuedTwo(q0, sent0, enq0, fbid, Intro, MoodSelection, now, q1, sent1, enq1,
                    dispatcher.State(), dispatcher.sent, dispatcher.enqueued);
        } else {
          QueuedOne(q0, sent0, enq0, fbid, MoodSelection, now, dispatcher.State(), dispatcher.sent, dispatcher.enqueued);
        }
      } else if obj.targetLocation.None? || obj.targetLocation == Some(-1) {
        dispatcher.AddMessageToQueue(fbid, LocationSelection, now);
        QueuedOne(q0, sent0, enq0, fbid, LocationSelection, now, dispatcher.State(), dispatcher.sent, dispatcher.enqueued);
      } else {
        dispatcher.AddMessageToQueue(fbid, PleaseWait, now);
        ghost var q2, sent2, enq2 := dispatcher.State(), dispatcher.sent, dispatcher.enqueued;
        SendAudioLinkMessage(fbid, obj.targetMood.value, obj.targetLocation.value, now);
        ghost var q3, sent3, enq3 := dispatcher.State(), dispatcher.sent, dispatcher.enqueued;
        dispatcher.AddMessageToQueue(fbid, Closing, now);
        QueuedThree(q0, sent0, enq0, fbid, PleaseWait, AudioLink(AudioIndex(obj.targetMood.value, obj.targetLocation.value)),
                    Closing, now, q2, sent2, enq2, q3, sent3, enq3, dispatcher.State(), dispatcher.sent, dispatcher.enqueued);
        ResetUserDataCall(fbid);
      }
    }

    /** `sendAudioLinkMessage(recipientId, data)`: the link to the file chosen
        by the two answers. */
    method SendAudioLinkMessage(fbid: UserId, mood: int, location: int, now: nat)
      requires Valid()
      modifies dispatcher
      ensures Valid()
      ensures Pushed(old(dispatcher.State()), old(dispatcher.sent), old(dispatcher.enqueued), fbid,
                     AudioLink(AudioIndex(mood, location)), now, dispatcher.State(), dispatcher.sent, dispatcher.enqueued)
    {
      var index := AudioIndex(mood, location);
      dispatcher.AddMessageToQueue(fbid, AudioLink(index), now);
    }

    /** `database.resetUserData(fbid, function(){})`: the store after the
        reset, unchanged when the upsert failed. */
    method ResetUserDataCall(fbid: UserId)
      modifies this`users
      ensures users == ResetAnswers(old(users), fbid)
    {
      var reset := ResetUserData(users, fbid);
      if reset.Ok? {
        users := reset.value;
      }
    }

    /** `receivedPostback` for a button pressed by `fbid`; `failed` when the
        write threw. */
    method ReceivedPostback(fbid: UserId, payload: string, now: nat) returns (failed: bool)
      requires Valid()
      modifies this, dispatcher
      ensures Valid()
      ensures failed <==> HandlePostback(old(users), fbid, payload).Err?
      ensures failed ==> users == old(users) && dispatcher.State() == old(dispatcher.State())
                         && dispatcher.sent == old(dispatcher.sent) && dispatcher.enqueued == old(dispatcher.enqueued)
      ensures !failed ==>
                var t := HandlePostback(old(users), fbid, payload).value;
                && users == t.users
                && AfterEnqueueAll(old(dispatcher.State()), old(dispatcher.sent), old(dispatcher.enqueued), fbid, t.messages, now,
                                   dispatcher.State(), dispatcher.sent, dispatcher.enqueued)
    {
      failed := false;
      var write := PostbackWrite(payload);
      if write.Some? {
        var written := ApplyWrite(users, fbid, write.value);
        if written.Err? {
          failed := true;
        } else {
          users := written.value;
          DoNextAction(fbid, now);
        }
      } else {
        QueuedNone(dispatcher.State(), dispatcher.sent, dispatcher.enqueued, fbid, now);
      }
    }

    /** `receivedMessage`: an echo releases the gate of the user the echoed
        message went to; a quick reply is only logged; a text or an attachment
        from the user runs `doNextAction`. */
    method ReceivedMessage(e: MessageEvent, now: nat)
      requires Valid()
      modifies this, dispatcher
      ensures Valid()
      ensures Classify(e) == EchoMessage ==>
                var s := ReceiveEcho(old(dispatcher.State()), e.recipient, now);
                && users == old(users) && dispatcher.State() == s.next
                && dispatcher.sent == old(dispatcher.sent) + Addressed(e.recipient, s.dispatched)
                && dispatcher.enqueued == old(dispatcher.enqueued)
      ensures Classify(e) in {TextMessage, AttachmentMessage} ==>
                var t := NextTurn(old(users), e.sender);
                && users == t.users
                && AfterEnqueueAll(old(dispatcher.State()), old(dispatcher.sent), old(dispatcher.enqueued), e.sender, t.messages, now,
                                   dispatcher.State(), dispatcher.sent, dispatcher.enqueued)
      ensures Classify(e) in {QuickReplyMessage, OtherMessage} ==>
                users == old(users) && dispatcher.State() == old(dispatcher.State())
                && dispatcher.sent == old(dispatcher.sent) && dispatcher.enqueued == old(dispatcher.enqueued)
    {
      var kind := Classify(e);
      if kind == EchoMessage {
        dispatcher.ReceivedEcho(e.recipient, now);
      } else if kind == TextMessage || kind == AttachmentMessage {
        DoNextAction(e.sender, now);
      }
    }
  }

  /** Queuing nothing leaves the dispatcher as it was. */
  lemma QueuedNone(q: Queues, sent: seq<Delivery>, enqueued: seq<Delivery>, fbid: UserId, now: nat)
    ensures AfterEnqueueAll(q, sent, enqueued, fbid, [], now, q, sent, enqueued)
  {
    assert sent + [] == sent && enqueued + [] == enqueued;
  }

  /** One more `addMessageToQueue` extends `EnqueueAll` and both logs by one message. */
  lemma EnqueuedStep(q0: Queues, sent0: seq<Delivery>, enqueued0: seq<Delivery>, fbid: UserId, queued: seq<Msg>,
                     m: Msg, now: nat, q: Queues, sent: seq<Delivery>, enqueued: seq<Delivery>,
                     q': Queues, sent': seq<Delivery>, enqueued': seq<Delivery>)
    requires AfterEnqueueAll(q0, sent0, enqueued0, fbid, queued, now, q, sent, enqueued)
    requires Pushed(q, sent, enqueued, fbid, m, now, q', sent', enqueued')
    ensures AfterEnqueueAll(q0, sent0, enqueued0, fbid, queued + [m], now, q', sent', enqueued')
  {
    var s := EnqueueAll(q0, fbid, queued, now);
    var step := AddToQueue(q, fbid, m, now);
    EnqueueAllSnoc(q0, fbid, queued, m, now);
    LogsGrow(fbid, sent0, s.dispatched, step.dispatched);
    LogsGrow(fbid, enqueued0, queued, [m]);
    assert Addressed(fbid, [m]) == [Delivery(fbid, m)];
  }

  lemma QueuedOne(q0: Queues, sent0: seq<Delivery>, enqueued0: seq<Delivery>, fbid: UserId, a: Msg, now: nat,
                  q1: Queues, sent1: seq<Delivery>, enqueued1: seq<Delivery>)
    requires Pushed(q0, sent0, enqueued0, fbid, a, now, q1, sent1, enqueued1)
    ensures AfterEnqueueAll(q0, sent0, enqueued0, fbid, [a], now, q1, sent1, enqueued1)
  {
    assert [] + [a] == [a];
    QueuedNone(q0, sent0, enqueued0, fbid, now);
    EnqueuedStep(q0, sent0, enqueued0, fbid, [], a, now, q0, sent0, enqueued0, q1, sent1, enqueued1);
  }

  lemma QueuedTwo(q0: Queues, sent0: seq<Delivery>, enqueued0: seq<Delivery>, fbid: UserId, a: Msg, b: Msg, now: nat,
                  q1: Queues, sent1: seq<Delivery>, enqueued1: seq<Delivery>,
                  q2: Queues, sent2: seq<Delivery>, enqueued2: seq<Delivery>)
    requires Pushed(q0, sent0, enqueued0, fbid, a, now, q1, sent1, enqueued1)
    requires Pushed(q1, sent1, enqueued1, fbid, b, now, q2, sent2, enqueued2)
    ensures AfterEnqueueAll(q0, sent0, enqueued0, fbid, [a, b], now, q2, sent2, enqueued2)
  {
    assert [a] + [b] == [a, b];
    QueuedOne(q0, sent0, enqueued0, fbid, a, now, q1, sent1, enqueued1);
    EnqueuedStep(q0, sent0, enqueued0, fbid, [a], b, now, q1, sent1, enqueued1, q2, sent2, enqueued2);
  }

  lemma QueuedThree(q0: Queues, sent0: seq<Delivery>, enqueued0: seq<Delivery>, fbid: UserId, a: Msg, b: Msg, c: Msg, now: nat,
                    q1: Queues, sent1: seq<Delivery>, enqueued1: seq<Delivery>,
                    q2: Queues, sent2: seq<Delivery>, enqueued2: seq<Delivery>,
                    q3: Queues, sent3: seq<Delivery>, enqueued3: seq<Delivery>)
    requires Pushed(q0, sent0, enqueued0, fbid, a, now, q1, sent1, enqueued1)
    requires Pushed(q1, sent1, enqueued1, fbid, b, now, q2, sent2, enqueued2)
    requires Pushed(q2, sent2, enqueued2, fbid, c, now, q3, sent3, enqueued3)
    ensures AfterEnqueueAll(q0, sent0, enqueued0, fbid, [a, b, c], now, q3, sent3, enqueued3)
  {
    assert [a, b] + [c] == [a, b, c];
    QueuedTwo(q0, sent0, enqueued0, fbid, a, b, now, q1, sent1, enqueued1, q2, sent2, enqueued2);
    EnqueuedStep(q0, sent0, enqueued0, fbid, [a, b], c, now, q2, sent2, enqueued2, q3, sent3, enqueued3);
  }

  lemma LogsGrow(r: UserId, log0: seq<Delivery>, a: seq<Msg>, b: seq<Msg>)
    ensures (log0 + Addressed(r, a)) + Addressed(r, b) == log0 + Addressed(r, a + b)
  {
    AddressedAppend(r, a, b);
  }

  lemma EnqueueAllSnoc(q: Queues, r: UserId, ms: seq<Msg>, m: Msg, now: nat)
    ensures var s := EnqueueAll(q, r, ms, now);
            var s' := AddToQueue(s.next, r, m, now);
            EnqueueAll(q, r, ms + [m], now) == Step(s'.next, s.dispatched + s'.dispatched)
  {
    assert (ms + [m])[..|ms|] == ms;
  }

  lemma {:induction false} AddressedAppend(r: UserId, a: seq<Msg>, b: seq<Msg>)
    ensures Addressed(r, a + b) == Addressed(r, a) + Addressed(r, b)
    decreases |b|
  {
    if b == [] {
      assert a + b == a;
    } else {
      var b' := b[..|b| - 1];
      assert (a + b)[..|a + b| - 1] == a + b';
      AddressedAppend(r, a, b');
    }
  }
}
