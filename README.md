# ParaChat message engine in Dafny

This project models the message engine of ParaChat and proves properties of
that model. The engine has two parts:

- **`MessageManager`** (js/message-manager.js), a browser-side conversation store.
  - It keys every conversation by the sorted pair of participant ids, joined with `_`.
  - It sends messages by callback and by promise. The promise send validates the text and moves the message through the statuses sending → sent → delivered, or → failed.
  - It creates chats with a system welcome message.
  - It loads a history. An absent or empty history is replaced by generated sample messages, and the copy it returns is flagged as decrypted.
  - It polls a conversation with an interval timer that now and then invents a reply.
  - It sends a batch of messages by `Promise.allSettled` and counts the outcomes.
- **`MessageRestController`** (src/main/java/controller/MessageRestController.java), the Spring back end.
  - It holds one in-memory list of `ChatMessage`s.
  - `POST /api/messages` refuses a missing or blank sender or content. Otherwise it stamps the message with the server time and appends it.
  - `GET /api/messages` returns a copy of the list, sorted by timestamp.

## How the model is built

- **Random draws, clocks and timers are parameters.**
  - `networkOk`, `accessDenied` and `fires` stand for the `Math.random()` comparisons.
  - `countDraw`, `fromUser`, `pick` and `ResponseIndex` values stand for the random picks of the mock history and of the listener replies.
  - `now` stands for `new Date()` / `Date.now()` in JavaScript and for `LocalDateTime.now()` in Java.
  - One method call is one operation after all of its timers have run.
- **Message ids.** `generateMessageId` is a counter, `nextId`. The model therefore proves that ids are fresh: every stored id is below the counter (`MessageManager.Valid`).
- **Interval ids.** `setInterval` ids come from a second counter. The `running` map holds the intervals that are started and not yet cleared, with the closure each one runs.
- **The promise send is split in two.**
  - `StartSend` is the synchronous executor: it draws the id and runs both validations.
  - `SettleSend` is the timer part: the message becomes sent, is stored, then becomes delivered.
  - The source stores the very object it later marks delivered, so the stored entry ends up delivered too. The model rewrites the stored entry the same way.
- **The batch.**
  - `batchSendMessages` starts every send in input order, which draws the ids in input order.
  - `order` (any permutation) is the order in which the sends' network timers fire. A successful send is stored when its network timer fires, before its promise settles after the second timer, so `order` also fixes the order of the stored messages.
  - The batch result is independent of that order. The store's final content is `DeliveredInOrder(outcomes, order)` appended in turn.
- **Strings.** A string is a sequence of `char`, each standing for one UTF-16 code unit. `Array.prototype.sort` compares strings code unit by code unit (`CodeUnitLe`).
- **Trimming.** JavaScript `trim` strips the WhiteSpace and LineTerminator characters of ECMA-262. Java `trim` strips every code unit up to U+0020. Both are instances of one `Trim`.
- **Java sort.** `Collections.sort` is stable. The model sorts the copied array in place with a stable insertion sort. Its contract has three parts:
  - the result is sorted by timestamp;
  - it is a permutation of the log;
  - for every instant, the messages with that timestamp keep their log order (`SameOrderPerTime`).
  - `StableSortUnique` shows that this contract determines the answer completely.

### Behaviour of the code worth knowing

- **Conversation keys can collide.** The `_` separator may occur inside an id, so `("a_b", "c")` and `("a", "b_c")` share the key `a_b_c` (`ConversationIdCollides`). The key is therefore not proved injective.
- **`createNewChat` on an existing chat wipes it.** It overwrites the history with an empty list and then stores a fresh welcome message, so any earlier messages are lost (`CreateTwice`).
- **A second listener leaves the first one running.** `setupMessageListener` overwrites the `listeners` entry without clearing the earlier interval. The earlier cleanup then deletes the entry that now names the new interval, which keeps emitting with no entry left (`StaleCleanup`).
- **A message rejected by validation never reaches `failed`.** It keeps status `sending`, is never stored, and still uses up an id (`SendMessage`'s trace is `[Sending]`).
- **The stored message object is mutated after storing.** The same object is stored as `sent` and then marked `delivered`, so the stored entry changes too.
- **`sendMessageWithCallback` does not validate.** It stores any text and gives the message no status field.
- **The mock history has 2 to 9 messages.** The source comment says 2 to 10, but `Math.floor(Math.random() * 8) + 2` is at most 9.

## Model

| member | source | states |
|---|---|---|
| Conversation.CodeUnitLeTotal | js/message-manager.js:234 | the default string order used by `sort()` compares any two ids |
| Conversation.CodeUnitLeAntisymmetric | js/message-manager.js:234 | two ids that sort no later than each other are equal, so the sorted pair is determined |
| Conversation.ConversationId | js/message-manager.js:233-235 | the key is as long as both ids together plus the one separator |
| Conversation.ConversationIdSymmetric | js/message-manager.js:233-235 | both argument orders give the same conversation key |
| Conversation.ConversationIdShape | js/message-manager.js:233-235 | the key is the smaller id in code-unit order, then `_`, then the other id |
| Conversation.ConversationIdCollides | js/message-manager.js:234 | two different id pairs share one key, because `_` may occur inside ids |
| Conversation.ConversationIdNonEmpty | js/message-manager.js:256 | the key is never empty, so the `!conversationId` guard never rejects |
| Conversation.AliceBobId | js/message-manager.js:233-235 | "alice" and "bob" in either order give "alice_bob" |
| Text.TrimStartSpec | js/message-manager.js:52 | leading trim keeps a suffix that does not start with space and drops only space |
| Text.TrimEndSpec | js/message-manager.js:52 | trailing trim keeps a prefix that does not end with space and drops only space |
| Text.Trim | js/message-manager.js:52 | `trim()` never yields text longer than the input (the same function with Java's space test serves MessageRestController.java:30-31) |
| Text.TrimEmptyIffBlank | js/message-manager.js:52 | the trimmed text is empty exactly when every character is space, in both directions; this is the test `!text.trim()` and `trim().isEmpty()` make |
| Text.TrimIsSlice | js/message-manager.js:52 | the trimmed text is a contiguous slice of the input, starting after the space prefix |
| MessageStore.Append | js/message-manager.js:241-246 | storing creates the key if absent, appends at the end, and leaves every other conversation unchanged |
| MessageStore.AppendExtendsEveryHistory | js/message-manager.js:241-246 | storing never removes or reorders a message: every history before is a prefix of the same history after |
| MessageStore.HistoryAfterAppend | js/message-manager.js:97 | `get(conversationId) \|\| []` after a store reads the old history plus the message for the stored key, and the old history for every other key |
| MessageStore.ReplaceLastAppended | js/message-manager.js:67-73 | marking the just-stored object delivered gives the store that storing the delivered message would |
| MessageStore.AppendAllSnoc | js/message-manager.js:208-213 | storing a list of messages one by one ends with the last message appended to what the rest produced |
| MessageStore.AppendKeepsIdsBelow | js/message-manager.js:241-246 | storing a message whose id is below the counter keeps every stored id below it |
| MessageStore.Decrypt | js/message-manager.js:278-286 | the result has one copy of each message, in order, differing only by `decrypted: true` |
| Batch.CountsPartition | js/message-manager.js:215-216 | every settled outcome is counted exactly once, as fulfilled or as rejected |
| Batch.Aggregate | js/message-manager.js:213-224 | successful is the fulfilled count and failed the rejected count, they add up to the batch size, and entry i is the value or reason of promise i |
| Batch.NoFailureIffAllFulfilled | js/message-manager.js:215-216 | the failed count is zero exactly when every outcome fulfilled |
| Batch.SingleFailure | js/message-manager.js:213-224 | one rejection among fulfilled outcomes gives failed 1 and successful n - 1 |
| MessageManagerModel.ValidateText | js/message-manager.js:51-60 | validation only ever rejects as empty or as too long, and only text over 1000 code units is too long |
| MessageManagerModel.ValidateTextCases | js/message-manager.js:51-60 | empty exactly when the text is all JavaScript space; too long exactly when it has content and over 1000 code units; accepted otherwise |
| MessageManagerModel.SendOutcome | js/message-manager.js:36-81 | a send resolves exactly when the text validates and the network succeeds, with a delivered message of the input text, sender, receiver, key and id; otherwise it rejects with the validation error, or the server error when validation passed |
| MessageManagerModel.SendOutcomeSpec | js/message-manager.js:51-81 | the same in terms of the text: a send resolves exactly when the text has a non-space character, is at most 1000 code units and the network succeeds; a rejection names the first failed check, or the server |
| MessageManagerModel.BatchResultShape | js/message-manager.js:205-224 | the counts add up to the batch size and entry i is the outcome of item i with the i-th id, whatever the completion order |
| MessageManagerModel.BatchPartialFailure | js/message-manager.js:205-224 | one blank item among valid items that reach the server gives failed 1, that entry rejected as empty, and every other entry delivered |
| MessageManagerModel.StartSendLeadsTo | js/message-manager.js:39-60 | a started send settles with the outcome of the whole send for the same id and network answer |
| MessageManagerModel.GenerateMockChatHistory | js/message-manager.js:288-322 | draws 2 + countDraw messages; message i has id firstId + i, a sample text, a sender and receiver from the two participants, and timestamp now - (count - i) * 300000, so timestamps strictly increase and lie in the past |
| MessageManagerModel.MockKeepsIdsBelow | js/message-manager.js:97-102 | installing a mock history whose ids were drawn from the counter keeps every stored id below the advanced counter |
| MessageManagerModel.MessageManager.constructor | js/message-manager.js:3-6 | the manager starts with no conversations, no listeners and no running intervals |
| MessageManagerModel.MessageManager.GenerateMessageId | js/message-manager.js:237-239 | returns a fresh id, above every stored id |
| MessageManagerModel.MessageManager.StoreMessage | js/message-manager.js:241-246 | the store becomes `Append` of the old store |
| MessageManagerModel.MessageManager.CheckChatExists | js/message-manager.js:116-132 | true exactly when the pair's key is present, even with an empty history |
| MessageManagerModel.MessageManager.StartSend | js/message-manager.js:39-60 | draws one id; rejects blank text as empty, then text over 1000 code units as too long; otherwise yields the message with status sending |
| MessageManagerModel.MessageManager.SettleSend | js/message-manager.js:62-79 | on network success, stores the message and resolves with it delivered, passing through sent and delivered; on failure, nothing is stored, the result is the server error and the message passes through failed |
| MessageManagerModel.MessageManager.SendMessage | js/message-manager.js:36-81 | the result is `SendOutcome` for the id drawn; only a delivered message is stored, under the pair's key; the statuses passed through are sending, then sent and delivered or failed |
| MessageManagerModel.MessageManager.SendMessageWithCallback | js/message-manager.js:9-33 | without validation, stores the message and passes it, with no status, to the callback on network success; otherwise passes the network error and stores nothing |
| MessageManagerModel.MessageManager.CreateNewChat | js/message-manager.js:134-167 | rejects an id shorter than 3; otherwise returns the key and replaces that conversation by exactly one system welcome message, leaving the others unchanged |
| MessageManagerModel.MessageManager.LoadChatHistory | js/message-manager.js:84-114 | rejects an empty user id, then denied access, changing nothing; otherwise returns the decrypted history; a present non-empty history is left as it is, and an absent or empty one is replaced by the mock history of the draws (countDraw + 2 messages, ids from the counter), with no other conversation added or changed |
| MessageManagerModel.MessageManager.SetupMessageListener | js/message-manager.js:170-202 | starts a fresh interval for the pair's key, registers it in `listeners` over any earlier entry, and leaves earlier intervals running |
| MessageManagerModel.MessageManager.ListenerTick | js/message-manager.js:176-191 | a tick emits exactly when its interval is still running and the draw fires; the emitted reply goes from the partner to the user, is stored, and is the message given to the callback |
| MessageManagerModel.MessageManager.Cleanup | js/message-manager.js:197-201 | clears its own interval and deletes its key's entry, whichever interval that entry names |
| MessageManagerModel.MessageManager.BatchSendMessages | js/message-manager.js:205-230 | the result is `Aggregate` of the per-item outcomes in input order; the ids are drawn in input order; the store receives the delivered messages in completion order |
| MessageManagerModel.MessageManager.StartAll | js/message-manager.js:208-210 | runs every executor in input order, item i drawing the i-th id |
| MessageManagerModel.MessageManager.SettleStarted | js/message-manager.js:63-79 | one started send of a batch settles with its outcome, storing the delivered message exactly when it succeeds |
| MessageManagerModel.MessageManager.SettleAll | js/message-manager.js:213 | settling in any completion order yields the outcomes indexed by input position, and the store grows by the delivered messages in completion order |
| RestController.IsBadRequest | src/main/java/controller/MessageRestController.java:30-33 | a request is refused exactly when the sender or content is null or made only of code units up to U+0020 |
| RestController.SwapNeighboursKeepsOrder | src/main/java/controller/MessageRestController.java:49 | swapping neighbours with different timestamps keeps every per-instant order |
| RestController.StableSortUnique | src/main/java/controller/MessageRestController.java:49 | two sorted sequences with the same per-instant orders are equal, so a stable sort's result is unique |
| RestController.SortByTimestamp | src/main/java/controller/MessageRestController.java:49 | the array ends sorted by timestamp, a permutation of its old content, with equal timestamps in their old order |
| RestController.InsertLast | src/main/java/controller/MessageRestController.java:49 | one insertion step leaves the prefix through i sorted, as a permutation that keeps equal timestamps in order |
| RestController.SwapNeighbours | src/main/java/controller/MessageRestController.java:49 | exchanges two neighbours with different timestamps and nothing else |
| RestController.MessageRestController.constructor | src/main/java/controller/MessageRestController.java:20 | the log starts empty |
| RestController.MessageRestController.SendMessage | src/main/java/controller/MessageRestController.java:29-38 | a bad request is refused and the log is unchanged; otherwise the message is stamped with the server time, appended, and returned as created |
| RestController.MessageRestController.GetMessages | src/main/java/controller/MessageRestController.java:46-51 | returns OK with a permutation of the log, sorted by timestamp, with equal timestamps in log order; the log itself is unchanged |
| Scenarios.AliceAndBob | js/message-manager.js:134-167 | for "alice" and "bob", creating a chat yields "alice_bob" with one message, and sending "hi" yields a delivered message from alice in "alice_bob" |
| Scenarios.CreateTwice | js/message-manager.js:142-158 | creating the same chat twice leaves one welcome message, the second one |
| Scenarios.LoadFresh | js/message-manager.js:97-102 | loading on a fresh manager with count draw 3 installs one conversation, "alice_bob", with 5 messages, returned decrypted |
| Scenarios.StaleCleanup | js/message-manager.js:170-201 | after two listeners on one pair and the first cleanup, no entry is registered, yet the second interval still runs and emits |
| Scenarios.CleanupTwice | js/message-manager.js:197-201 | a second cleanup changes nothing, and the cleared interval emits nothing whatever the draw |
| Scenarios.RefuseBlankSender | src/main/java/controller/MessageRestController.java:30-33 | a blank sender is refused with 400 and not logged |
| Scenarios.TiedPostsKeepOrder | src/main/java/controller/MessageRestController.java:46-51 | posts stamped 5, 3 and 5 are listed as the 3 followed by the two 5s in posting order |
| Scenarios.LaterFirstPostedSwaps | src/main/java/controller/MessageRestController.java:49 | any stable sorted answer for that log is that list |

## Left out

- Timers, delays and `Math.random()`: their outcomes are parameters of each operation. The latencies and the success rates (90 %, 95 %, 20 %, 95 % access) are not modelled as probabilities.
- Interleaving of operations: each operation is modelled after all of its timers have run. A send interleaving with a listener tick on the same conversation is therefore not modelled, except inside a batch, where the settlement order is a parameter.
- MessageManagerModel.MessageManager.SettleSend: does not model the window between the two timers in which the stored message reads `sent`; the state after the call is the state after both timers.
- MessageManagerModel.MessageManager.GenerateMessageId: the id is a counter rather than `'msg_' + Date.now() + '_' + random`. So the model proves ids fresh, which the source only makes likely.
- Message timestamps within one call are a single `now`. The mock loop reads `Date.now()` once per iteration; the model uses one value for all of them, which is what the loop computes when the clock does not advance during it.
- MessageManagerModel.MessageManager.LoadChatHistory: does not model the error message's prefix 'Failed to load chat history: '. The two causes are kept as `InvalidAccess` and `AccessDenied`.
- Inputs that are not strings (`null`, numbers), and the `TypeError`s that `trim()` or `.length` would raise on them, are not represented. Ids and texts are always strings.
- Characters outside the Basic Multilingual Plane: a Dafny `char` is a Unicode scalar value and stands for one UTF-16 code unit here. For text made of Basic Multilingual Plane characters the model's lengths and code-unit order are exactly JavaScript's. A supplementary character counts 2 toward `length` and sorts by its surrogates in JavaScript, which the model does not reproduce, and lone surrogates are not representable.
- MessageManagerModel.ValidateText: the 1000 bound is on the number of `char`s, which equals JavaScript's `length` only for Basic Multilingual Plane text (see above).
- Console logging (`console.log`, `System.out.println`) is left out.
- The thread safety of `CopyOnWriteArrayList` and concurrent requests to the controller are not modelled. Each request is one atomic step.
- `LocalDateTime` is an integer instant; only its order matters to the sort.
- The HTTP and Spring plumbing (`ResponseEntity`, request mapping, JSON binding) is reduced to a status and an optional body.
- `ChatMessage`'s getters, setters and `toString` are not modelled as methods; the record is a datatype.
- RestController.SortByTimestamp: `Collections.sort` is a merge sort; the model uses a stable insertion sort with the same contract. `StableSortUnique` shows the contract admits only one result.
- js/async-demo.js, js/ui-manager.js, js/app.js, js/firebase-manager.js and HomeController.java are not part of this model: they are presentation and demonstration code around the engine.
