# simplechat core, modelled in Dafny

This project models the parts of the simplechat backend that have logic of their own:

- **Presence tracking** (`Presence.dfy`). Websocket clients send heartbeats. Per user id, the tracker keeps the time of the last heartbeat and whether the connection is still open. It classifies a user as online, away (connected, but silent for more than 30 s) or offline. The per-connection receive loop is a `while` loop over a sequence of events on a `PresenceTracker` class. Its `users` dictionary is a `map` field, and reading an unknown id inserts a default record, as Python's `defaultdict` does. The loop is proved against a specification function, `Replay`. The lemmas about `Replay` state what a heartbeat, a close and a malformed message do to the records.
- **Reaction counters and profile-picture names** (`Endpoints.dfy`, from main.py). `add_reaction` and `remove_reaction` change a fetched message's `reactions` dictionary in place. An unknown message id gets a 404 and nothing changes. The map updates are the functions `Added` and `Removed`. Lemmas give their counts, show that only the requested key changes, that every count stays at least 1, and that add and remove undo each other. `register` derives the picture's extension, file name, path and URL. These are proved to be the text after the last dot, `pictures/<username>_profile.<ext>`, and a URL whose query value `get_picture` resolves back to that same file.
- **Record types** (`Models.dfy`). These are the enums with their wire strings (parsing is the inverse of rendering), the `User.create` factory, and the defaults of `Channel` and `Message`.
- **Prompt assembly** (`Rag.dfy`). The first three retrieved chunk texts are labelled `# Result 0..2` in retrieval order. They are joined under a header and wrapped between the question and a fixed instruction. When every line is a single line, splitting the prompt at newlines recovers exactly this layout.
- **Assistant tools** (`Agent.dfy`). The recent-messages transcript is one `username: content` line per message. `roll` is a nondeterministic draw from 1..6.
- **Python string primitives** (`Text.dfy`). These are `str.join`, `str.split` on one character and `f"{n}"`, with the round trips that the lemmas above rely on.

Time is an integer count of microseconds on the server's naive local clock, from 1970-01-01 00:00. The test `(now - ts).total_seconds() > 30` is exactly `now - ts > 30_000_000`. `datetime.now()`, `uuid4()`, bcrypt and the storage answer are parameters of the operations that use them.

## Model

| member | source | states |
|---|---|---|
| Text.Split | main.py:54 | `str.split` always yields at least one piece |
| Text.JoinSplit | main.py:54 | joining the pieces of a split with the separator restores the string |
| Text.SplitJoin | Agent.py:56 | splitting a newline-join of single-line parts (at least one) recovers exactly those parts |
| Text.LastPieceIsFinalSegment | main.py:54 | `s.split(c)[-1]` has no `c`, is a suffix of `s`, is all of `s` when `s` has no `c`, and otherwise follows a `c` |
| Text.LastPieceAfterSeparator | main.py:54-55 | a `c`-free tail after a `c` is the last piece whatever precedes it |
| Text.Decimal | Rag.py:26 | the rendering of a number is non-empty, all decimal digits, and has no leading zero except for 0 itself |
| Text.DecimalRoundTrip | Rag.py:26 | parsing the decimal rendering of `n` gives `n` |
| Text.DecimalInjective | Rag.py:26 | distinct result numbers get distinct labels |
| Models.StatusWireRoundTrip | Models.py:7-12 | parsing a status's wire string gives that status back |
| Models.ParseStatusExact | Models.py:7-12 | a string parses as a status only if it is exactly that status's wire string |
| Models.StatusWireInjective | Models.py:7-12 | the five status wire strings are pairwise distinct |
| Models.ChannelTypeWireRoundTrip | Models.py:14-17 | parsing a channel type's wire string (group is `conversation`) gives it back |
| Models.ParseChannelTypeExact | Models.py:14-17 | a string parses as a channel type only if it is exactly its wire string |
| Models.CreateUser | Models.py:28-30 | a created user has empty token and OFFLINE status, and username, password and picture copied unchanged |
| Models.NewChannel | Models.py:32-38 | `members_count` defaults to 0, other fields as given |
| Models.NewMessage | Models.py:45-56 | a message built without optional fields has no reactions, no thread or image, and both flags false |
| Presence.DefaultRecord | UserPresence.py:20-26 | the default record has the epoch timestamp and is not connected |
| Presence.Classify | UserPresence.py:89-100 | status is only ONLINE, AWAY or OFFLINE; OFFLINE exactly when not connected; AWAY exactly when connected and more than 30 s stale |
| Presence.OnlineWithinWindow | UserPresence.py:96-100 | a connected user is ONLINE up to and including exactly 30 s after the heartbeat |
| Presence.AwayPersists | UserPresence.py:96-98 | without a new heartbeat, an AWAY user stays AWAY as time passes |
| Presence.UnknownUserReadsDefault | UserPresence.py:86-94 | an unknown id reads epoch and OFFLINE, and the read inserts a record with user id `""`, not the queried id |
| Presence.ReplayAfterHeartbeats | UserPresence.py:59-69 | the loop processes a run of heartbeats and then continues with the remembered last sender |
| Presence.ReplayHeartbeats | UserPresence.py:62-68 | after heartbeats, each heard user is connected at their latest heartbeat time; every other user's record, or its absence, is unchanged |
| Presence.LastSenderIsLast | UserPresence.py:63-73 | the user id remembered for the close handler is that of the last heartbeat |
| Presence.CloseAfterHeartbeats | UserPresence.py:70-79 | a close after heartbeats disconnects the last sender and keeps their timestamp; all other records are as the heartbeats left them; later messages are not read |
| Presence.CloseBeforeHeartbeat | UserPresence.py:73-79 | a close before any heartbeat changes nothing |
| Presence.MalformedKeepsConnected | UserPresence.py:80-83 | a malformed message ends the loop with no close handling, so the last sender stays connected |
| Presence.MalformedUserReadsAway | UserPresence.py:80-100 | such a user reads AWAY, never OFFLINE, once 30 s have passed |
| Presence.ClosedUserReadsOffline | UserPresence.py:70-94 | a user whose connection closed after a heartbeat reads OFFLINE at any time |
| Presence.PresenceTracker.constructor | UserPresence.py:35-39 | a new tracker holds no records |
| Presence.PresenceTracker.Lookup | UserPresence.py:39 | a read returns the stored record or the `""` default, and inserts that default |
| Presence.PresenceTracker.HandleConnection | UserPresence.py:55-83 | the receive loop leaves the dictionary equal to `Replay` of the connection's events |
| Presence.PresenceTracker.GetLastHeartbeat | UserPresence.py:86-87 | returns the record's timestamp (epoch for an unknown id) and inserts the default |
| Presence.PresenceTracker.GetUserStatus | UserPresence.py:89-100 | returns `Classify` of the record at `now` and inserts the default for an unknown id |
| Endpoints.AddedCount | main.py:211-215 | add raises a present count by exactly 1 and inserts an absent key at 1 |
| Endpoints.RemovedAbsent | main.py:225 | remove on an absent key leaves the map unchanged |
| Endpoints.RemovedCount | main.py:225-228 | remove decrements a present count, floored at 0; the key survives exactly when the count stays positive, so it never maps to 0 |
| Endpoints.OnlyRequestedKeyChanges | main.py:211-228 | both operations leave every other key's presence and count unchanged |
| Endpoints.ReactionsStayPositive | main.py:211-228 | both operations keep every count at least 1 |
| Endpoints.AddThenRemove | main.py:211-228 | adding an absent reaction and then removing it restores the map |
| Endpoints.AddRemoveInverse | main.py:211-228 | with all counts positive, remove undoes add, and add undoes remove of a present key |
| Endpoints.FetchedMessage.AddReaction | main.py:211-215 | the message's reactions become `Added`; no other field changes |
| Endpoints.FetchedMessage.RemoveReaction | main.py:225-228 | the message's reactions become `Removed`; no other field changes |
| Endpoints.AddReactionHandler | main.py:201-217 | an unknown message gives 404 with nothing changed; otherwise "Reaction added" and one more of the reaction |
| Endpoints.RemoveReactionHandler | main.py:219-230 | an unknown message gives 404 with nothing changed; otherwise "Reaction removed" and one fewer of the reaction |
| Endpoints.ExtensionIsTextAfterLastDot | main.py:54 | the extension is the dot-free text after the last `.`, or the whole name when there is no `.` |
| Endpoints.PicturePathShape | main.py:54-56 | the stored file name `<username>_profile.<ext>` has the upload's extension as its own extension again |
| Endpoints.StoredUrlServesWrittenFile | main.py:179-181 | the stored URL starts with the `get_picture` prefix, and its query value makes `get_picture` resolve the very file `register` wrote |
| Endpoints.Register | main.py:47-79 | the user is built by `User.create` from the hashed password and the picture URL, with empty token and OFFLINE; the file is kept and ok is true exactly when storage accepted the user. The file-path clause only restates the path's definition; what the path means comes from `ExtensionIsTextAfterLastDot` |
| Rag.UsedChunksArePrefix | Rag.py:26 | exactly min(3, n) chunks are used: the first ones, in retrieval order |
| Rag.ResultPartAt | Rag.py:26 | part `i` is `"# Result " + i + "\n" + text_i`, counting from 0 |
| Rag.ResultLineAt | Rag.py:26-28 | the result lines alternate label `i` and text `i` |
| Rag.ContextIsItsLines | Rag.py:26-28 | the context is the title line and the result lines joined by `"\n"` |
| Rag.EmptyContextIsHeader | Rag.py:28 | with zero chunks the context is exactly the header |
| Rag.LaterChunksIgnored | Rag.py:24-26 | chunks after the third have no effect on the context |
| Rag.PromptLines | Rag.py:31-33 | for single-line inputs, the prompt's lines are the question, the context lines and the instruction, in that order |
| Rag.ContextResults | Rag.py:26-28 | for single-line chunks, the context has 1 + 2·min(3, n) lines: the title, then label `i` and chunk text `i` for each used chunk |
| AgentTools.MessageLines | Agent.py:56 | one line per message, in input order, each `username: content` |
| AgentTools.EmptyTranscript | Agent.py:56 | an empty message list gives `""` |
| AgentTools.TranscriptLines | Agent.py:56 | for single-line names and contents, splitting the transcript gives exactly one `username: content` line per message, with no trailing empty line |
| AgentTools.TranscriptIgnoresText | Agent.py:56 | the transcript depends only on usernames and `content`, never on `text` |
| AgentTools.Roll | Agent.py:18-30 | the roll is in 1..6, whatever bounds are passed |
| AgentTools.RollBelowRequestedRange | Agent.py:18-30 | asked for a roll in 10..20, `roll` answers below 10 |
| AgentTools.RollBetween | Agent.py:18-26 | the documented roll: a value in `min_value..max_value`, and none when the bounds are crossed |

## Left out

- DataLayer.py is not part of this model. It is SQL over psycopg: storage, ordering and filtering all happen inside the database.
- Chunking, vector similarity search and message substring search are not modelled. No code implements them.
- Rag.py imports `Chunk` from Models.py (Rag.py:7), but Models.py defines no `Chunk`. So Rag.py as written fails at that import and never reaches retrieval. Rag.py:24 also calls `similarity_search`, which DataLayer.py does not define. The model takes the retrieved chunk texts as an input sequence. It assembles them as Rag.py:26-33 does: ten chunks are requested (`top_k=10`) and the first three are used.
- `add_chunks` appears only in a commented-out line (Rag.py:43). It is not modelled.
- The recent-messages tool calls `self.dl.get_recent_messages` (Agent.py:54), which DataLayer.py does not define. So that tool raises as written. The model takes the messages as an input sequence and formats them as Agent.py:56 does.
- The embedding service and the language model (`embed_query`, `llm.invoke`, the pydantic_ai agent) are foreign network services and are not modelled. Only the text handed to them is.
- `get_messages` in Agent.py is not modelled. It is a pair of storage lookups.
- Most of main.py is not modelled, because these handlers only forward to storage: `login`, `create_channel`, `join_channel`, `my_channels`, `get_channel_messages` and `send_message`. CORS and routing are not modelled either.
- bcrypt hashing and checking are not modelled. The hash is a parameter.
- File writes, file deletion and file serving are not modelled. `Register` only reports whether the written file is kept.
- Reaction changes are never written back to storage in the source. The model updates the fetched message object and nothing else.
- Endpoints.StoredUrlServesWrittenFile: assumes the query value reaches `get_picture` exactly as stored. URL encoding and decoding of characters such as `&`, `#`, `%` or `+` in a username happen in the HTTP layer, which is not modelled.
- Endpoints.Register: takes the upload's file name to be a string. A missing file name would fail at `split` and is not modelled.
- The websocket server's startup, its origin check and the concurrent interleaving of connections are not modelled. `HandleConnection` runs one connection's events in sequence against the shared dictionary. A sequence that ends without a close or an error stands for a connection that is still open.
- Presence.Classify: timestamps are exact integer microseconds rather than `datetime` and float seconds. This is exact for the 30 s comparison.
- pydantic validation and coercion (for example a non-string `user_id`) are not modelled. A message whose record cannot be built ends the loop like any other error, so it is an `Event.Malformed`.
- `uuid4()` and `datetime.now().isoformat()` in `User.create` are not modelled. They are parameters of `CreateUser`.
- `ChannelMembership` is only declared. `Channel` has only its `members_count` default, which `NewChannel` models.
- LoadTest.py (a threaded HTTP client) and WebSocketX1.py (an echo stub) are not part of this model.

## Findings

| source | as written | input that shows it | evidently intended | confidence | as-written member | corrected member |
|---|---|---|---|---|---|---|
| Agent.py:18-30 | `roll` draws `random.randint(1, 6)` and ignores both of its bounds | `min_value=10, max_value=20` gives a value in 1..6, outside the requested range | a value between `min_value` and `max_value`, as the docstring (Agent.py:20-25) says | medium: the docstring and the code disagree; not executed | AgentTools.RollBelowRequestedRange | AgentTools.RollBetween |
