/** Client code for the two models: what a caller can conclude from the
    contracts alone, on concrete runs. */
module Scenarios {
  import opened Wrappers
  import opened Conversation
  import opened Text
  import opened MessageStore
  import opened MessageManagerModel
  import RestController

  /** "alice" and "bob": the key is "alice_bob", creating the chat leaves one
      system message, and sending "hi" is delivered into that conversation. */
  method AliceAndBob() returns (key: string, created: Result<string, ChatError>, historyLength: nat,
                                sent: Result<Message, SendError>)
    ensures key == "alice_bob" && created == Success("alice_bob") && historyLength == 1
    ensures sent.Success? && sent.value.senderId == "alice" && sent.value.text == "hi"
    ensures sent.value.conversationId == "alice_bob" && sent.value.status == Some(Delivered)
  {
    var manager := new MessageManager();
    AliceBobId();
    key := ConversationId("alice", "bob");
    created := manager.CreateNewChat("alice", "bob", 0);
    historyLength := |manager.messages[key]|;
    assert "hi"[0] == 'h' && !IsJsSpace("hi"[0]);
    ValidateTextCases("hi");
    var trace;
    sent, trace := manager.SendMessage("hi", "alice", "bob", 1, true);
  }

  /** Creating a chat that already exists replaces its history by one fresh
      welcome message instead of adding a second one. */
  method CreateTwice(now: int) returns (historyLength: nat, welcomeId: nat)
    ensures historyLength == 1 && welcomeId == 1
  {
    var manager := new MessageManager();
    var first := manager.CreateNewChat("alice", "bob", now);
    var second := manager.CreateNewChat("alice", "bob", now);
    var key := ConversationId("alice", "bob");
    historyLength := |manager.messages[key]|;
    welcomeId := manager.messages[key][0].id;
  }

  /** Loading a chat on a fresh manager installs a mock history for that
      one conversation, as long as the count draw says. */
  method LoadFresh(now: int, fromUser: nat -> bool, pick: nat -> SampleIndex)
    returns (keys: set<string>, loaded: Result<seq<Message>, LoadError>)
    ensures keys == {"alice_bob"}
    ensures loaded.Success? && |loaded.value| == 5 && loaded.value[0].decrypted
  {
    var manager := new MessageManager();
    AliceBobId();
    loaded := manager.LoadChatHistory("alice", "bob", false, now, 3, fromUser, pick);
    keys := manager.messages.Keys;
  }

  /** Two listeners on one conversation: the second overwrites the registry
      entry without clearing the first interval, and the first cleanup then
      deletes the entry that names the second interval, which keeps
      emitting with no entry left. */
  method StaleCleanup(pick: ResponseIndex, now: int)
    returns (registered: bool, firstRunning: bool, secondRunning: bool, emitted: Option<Message>)
    ensures !registered && !firstRunning && secondRunning
    ensures emitted.Some? && emitted.value.senderId == "bob" && emitted.value.receiverId == Some("alice")
  {
    var manager := new MessageManager();
    var first := manager.SetupMessageListener("alice", "bob");
    var second := manager.SetupMessageListener("alice", "bob");
    assert first.timer in manager.running && second.timer in manager.running;
    manager.Cleanup(first);
    registered := ConversationId("alice", "bob") in manager.listeners;
    firstRunning := first.timer in manager.running;
    secondRunning := second.timer in manager.running;
    emitted := manager.ListenerTick(second.timer, true, pick, now);
  }

  /** A cleanup called twice: the second call changes nothing, and the
      cleared interval emits nothing afterwards, whatever the draw. */
  method CleanupTwice(fires: bool, pick: ResponseIndex, now: int)
    returns (afterFirst: map<string, nat>, afterSecond: map<string, nat>, emitted: Option<Message>)
    ensures afterFirst == afterSecond && emitted == None
  {
    var manager := new MessageManager();
    var cleanup := manager.SetupMessageListener("alice", "bob");
    manager.Cleanup(cleanup);
    afterFirst := manager.listeners;
    manager.Cleanup(cleanup);
    afterSecond := manager.listeners;
    emitted := manager.ListenerTick(cleanup.timer, fires, pick, now);
  }

  /** A post whose sender is blank is refused and leaves the log as it was. */
  method RefuseBlankSender() returns (refused: RestController.HttpStatus, log: seq<RestController.ChatMessage>)
    ensures refused == RestController.BadRequest && log == []
  {
    var controller := new RestController.MessageRestController();
    var blank := RestController.ChatMessage(Some("  "), Some("hello"), None);
    assert Blank("  ", IsJavaSpace);
    assert RestController.IsBadRequest(blank);
    var r0 := controller.SendMessage(blank, 1);
    refused := r0.status;
    log := controller.messages;
  }

  /** Three posts stamped 5, 3 and 5 come back ordered by time, the two
      stamped 5 in the order they were posted. */
  method TiedPostsKeepOrder() returns (listed: seq<RestController.ChatMessage>)
    ensures listed == [
      RestController.ChatMessage(Some("bob"), Some("second"), Some(3)),
      RestController.ChatMessage(Some("alice"), Some("first"), Some(5)),
      RestController.ChatMessage(Some("carol"), Some("third"), Some(5))]
  {
    var controller := new RestController.MessageRestController();
    var a := RestController.ChatMessage(Some("alice"), Some("first"), None);
    var b := RestController.ChatMessage(Some("bob"), Some("second"), None);
    var c := RestController.ChatMessage(Some("carol"), Some("third"), None);
    NotBlank(a); NotBlank(b); NotBlank(c);
    var r1 := controller.SendMessage(a, 5);
    var r2 := controller.SendMessage(b, 3);
    var r3 := controller.SendMessage(c, 5);
    var log := controller.messages;
    var response := controller.GetMessages();
    listed := response.body.value;
    assert log == [a.(timestamp := Some(5)), b.(timestamp := Some(3)), c.(timestamp := Some(5))];
    LaterFirstPostedSwaps(listed, log[0], log[1], log[2]);
  }

  /** Posts stamped t, then earlier, then t again come back as the earlier
      one followed by the two stamped t in posting order. */
  lemma LaterFirstPostedSwaps(listed: seq<RestController.ChatMessage>,
                               x: RestController.ChatMessage, y: RestController.ChatMessage,
                               z: RestController.ChatMessage)
    requires RestController.Key(y) < RestController.Key(x) == RestController.Key(z)
    requires RestController.SortedByTime(listed) && RestController.SameOrderPerTime(listed, [x, y, z])
    ensures listed == [y, x, z]
  {
    RestController.SwapNeighboursKeepsOrder([x, y, z], 1);
    assert [x, y, z][0 := y][1 := x] == [y, x, z];
    RestController.StableSortUnique(listed, [y, x, z]);
  }

  lemma NotBlank(m: RestController.ChatMessage)
    requires m.sender.Some? && m.sender.value != []
    requires m.content.Some? && m.content.value != []
    requires !IsJavaSpace(m.sender.value[0]) && !IsJavaSpace(m.content.value[0])
    ensures !RestController.IsBadRequest(m)
  {
  }
}
