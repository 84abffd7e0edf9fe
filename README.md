# sdl conversation engine, modelled in Dafny

`sdl` runs synthetic discussions between language-model personas and annotates them afterwards.

A **conversation** works like this:
- A round-robin **turn manager** names the next speaker.
- That user's model is prompted with a bounded window of the latest formatted messages (a `collections.deque(maxlen=h)`).
- The formatted reply is archived into an append-only transcript and pushed into the window.
- When a **moderator** is configured, it answers every such turn.

**Annotation** replays a finished transcript through a fresh bounded window: each message enters the window before the annotator is prompted.

Around these two loops sit the pieces that build them:
- the configuration records and the generators that turn them into conversations;
- the persona-to-attribute-list builders;
- the generators of conversation and annotator configs;
- the older `lib` conversation engine;
- the Distance-From-Unimodality score (`ndfu`) used to analyse annotations.

The language model is an oracle: each actor carries a function from the request (the system and message prompts plus the stop list) to the reply. `textwrap.fill` is an uninterpreted `Wrapper` function. The random draws of the config generator are parameters: the sampled indices (required to be distinct) and the chosen topic index.

Where the Python raises, the model returns a `Result`, an `Option` or an error flag instead of requiring the case away:
- a re-run of a finished conversation;
- an exhausted cycle over an empty roster;
- a speaker missing from the users dictionary;
- an unknown turn-manager tag;
- the generator assertions;
- a negative deque length;
- the sampling errors;
- an empty histogram in `ndfu` (`max` of an empty sequence).

The normalised `ndfu` divides by the maximum (`src/tasks/stats.py:153`). With a zero maximum numpy does not raise there: it yields nan or inf. The model reports that case as a failure of its own.

One fact about the source is proved rather than assumed:
- In `src/sdl/conversation.py` the "nothing was said" test (line 75) is applied to the *formatted* reply. `format_chat_message` never returns a blank string, so the test always passes and every turn is archived. The model keeps the test exactly as written and proves that a run from a fresh conversation has exactly `conv_len` entries, or `2 * conv_len` with a moderator (`Conversation.TranscriptLength`).

One observation is not proved but read off the source:
- `src/generate_annotation_configs.py` names `annotation_io.LlmAnnotationData` both in its return annotation (line 12) and in the call at line 26, but `src/sdl/annotation_io.py:10` defines `LLMAnnotatorData`. The package needs Python 3.12 or later (the nested quotes in the f-string at `src/sdl/actors.py:43`), and the script has no `from __future__ import annotations`. On 3.12 and 3.13 the annotation is evaluated when the `def` runs, so importing the script fails with an AttributeError. From 3.14 annotations are deferred and the call at line 26 fails instead. The model builds the record the function evidently means: its three fields.

Files:
- `wrappers.dfy`: `Option`, `Result`.
- `text.dfy`: strip, lower, join, `str(int)`.
- `window.dfy`: the bounded deque.
- `turn_manager.dfy`, `util.dfy`, `actors.dfy`, `persona.dfy`, `conversation.dfy`, `annotation.dfy`, `conversation_io.dfy`: the `sdl` package.
- `legacy_conversation.dfy`: `src/lib/conversation.py`.
- `conv_configs.dfy`, `annotation_configs.dfy`: the two generator scripts.
- `stats.dfy`: `ndfu`.

## Model

| member | source | states |
|---|---|---|
| TurnManager.CycleAt | src/sdl/turn_manager.py:41-45 | every name the endless cycle yields is a member of the roster |
| TurnManager.RoundRobin.constructor | src/sdl/turn_manager.py:39-42 | the roster is stored as given and the cycle starts at its first name |
| TurnManager.RoundRobin.NextTurnUsername | src/sdl/turn_manager.py:44-45 | the k-th call (0-based) returns `usernames[k mod n]` and advances the count by one; the roster never changes; on an empty roster the call fails (StopIteration) and nothing advances |
| TurnManager.CyclePeriodic | src/sdl/turn_manager.py:41 | calls k and k + n return the same name: the rotation is periodic with the roster's length |
| TurnManager.RoundRobinTagCharwise | src/sdl/turn_manager.py:61-62 | the factory's tag test accepts exactly the strings of length 12 that lower-case letter by letter to "round_robbin" |
| TurnManager.TurnManagerFactory | src/sdl/turn_manager.py:48-66 | success exactly for a tag whose lower-case form is "round_robbin", giving a fresh round-robin over the given names at its start; any other tag fails with the ValueError message, missing space included |
| Util.FormatChatMessage | src/sdl/util.py:44-64 | a blank message gives exactly `<name said nothing>`; a non-blank one is the "User name posted:" header, a newline, and then exactly the wrapped message; the result starts with "User " iff the message is non-blank, starts with 'U' or '<', and never strips to nothing |
| Actors.SystemPrompt | src/sdl/actors.py:42-44 | role "system"; the content opens with "You are " and the name, and closes with ". Your instructions: " and the instructions and "." |
| Actors.Describe | src/sdl/actors.py:66-73 | the description is the system prompt's content, so it opens with "You are " and the actor's name |
| Actors.MessagePrompt | src/sdl/actors.py:90-107 | role "user"; a user's prompt is the newline-joined history followed by a newline and its own "User name posted:" cue; an annotator's prompt is "Conversation so far:" and a blank line, the newline-joined history, then a newline and "Output:" |
| Actors.SpeakRequest | src/sdl/actors.py:61-63 | the model receives exactly two messages, the system prompt (equal to `describe()`) and then the message prompt, with stop list ["User"] |
| Actors.Speak | src/sdl/actors.py:50-64 | definition: the reply is the actor's model applied to `SpeakRequest` (system prompt, message prompt, stop list ["User"]) and is returned unchanged |
| Actors.UserPromptAppendsCue | src/sdl/actors.py:90-94 | with a non-empty history, a user's prompt is the history with the user's own cue joined on as one more line |
| Actors.AnnotatorPromptIgnoresIdentity | src/sdl/actors.py:101-107 | two annotators shown the same history get the same message prompt: name and persona play no part in it |
| Window.Last | src/sdl/conversation.py:55 | a deque of capacity h over a sequence holds `min(h, n)` entries, and they are the sequence's latest ones in order |
| Window.PushLast | src/sdl/conversation.py:97 | appending x to the deque of s gives the deque of s + [x]: a bounded deque always holds the latest entries |
| Window.PushBounded | src/sdl/conversation.py:55 | a deque never exceeds its capacity, and with non-zero capacity the appended entry comes last |
| Conversation.UsersByName | src/sdl/conversation.py:45 | every user is reachable by its name, every key is some user's name, and every key files an actor of that name |
| Conversation.UsersByNameLastWins | src/sdl/conversation.py:45 | of several users sharing a name, the dictionary keeps the last |
| Conversation.Respond | src/sdl/conversation.py:83-94 | the formatted reply `_actor_turn` returns never strips to nothing |
| Conversation.WindowOfIsLast | src/sdl/conversation.py:96-98 | after any transcript has been archived, the deque holds its latest `min(h, n)` messages in order |
| Conversation.SpokeToLast | src/sdl/conversation.py:92 | an entry answers the window of the entries before it exactly when it answers their latest `min(h, i)` messages |
| Conversation.ArchiveKeepsSuffix | src/sdl/conversation.py:96-98 | archiving a response keeps the window equal to the deque of the transcript |
| Conversation.UserTurnShape | src/sdl/conversation.py:70-81 | one turn appends the speaker's reply to the current window and, with a moderator, the moderator's reply to the updated window; earlier entries are untouched and the window stays the deque of the transcript |
| Conversation.UserTurn | src/sdl/conversation.py:73-81 | definition: the named user's `Respond` reply to the current window is archived; with a moderator, the moderator's reply to the updated window is archived after it |
| Conversation.Play | src/sdl/conversation.py:70-81 | definition: `n` iterations of the loop; an empty roster stops with `RosterExhausted`; a name missing from the dictionary stops with `UnknownSpeaker` after the turn counter advanced; otherwise `UserTurn` is taken and the loop goes on |
| Conversation.PlayStep | src/sdl/conversation.py:70-72 | one iteration either fails on an empty roster, fails on a name the dictionary lacks after advancing the turn manager, or takes the turn and continues with one iteration fewer |
| Conversation.PlayNeverConcluded | src/sdl/conversation.py:65-81 | the loop itself never reports the re-run error: only the guard before it does |
| Conversation.PlayKeepsSuffix | src/sdl/conversation.py:96-98 | however a run ends, the window is the deque of its transcript |
| Conversation.PlayUnknownSpeaker | src/sdl/conversation.py:71-72 | a run fails on a name only if the roster proposed it and the users dictionary lacks it (the KeyError) |
| Conversation.PlayCompletes | src/sdl/conversation.py:70-72 | when every roster name resolves, a run takes all its turns without error and advances the turn manager once per turn |
| Conversation.PlayLength | src/sdl/conversation.py:70-81 | a completed run appends one entry per turn, two with a moderator, and leaves the earlier entries untouched |
| Conversation.PlayTurnsAt | src/sdl/conversation.py:70-81 | in a completed run, turn k is the cycle's k-th name answering the window of the entries before it, followed by the moderator's answer when there is one |
| Conversation.PlayTranscript | src/sdl/conversation.py:70-98 | a completed run's transcript: its exact length, the old entries untouched, and every turn in cycle order with the moderator after each |
| Conversation.Conversation.constructor | src/sdl/conversation.py:19-55 | users keyed by name, the moderator, `conv_len` and the deque capacity as given; an empty transcript and an empty window |
| Conversation.Conversation.ActorTurn | src/sdl/conversation.py:83-94 | the actor's model is shown the current window, and the reply comes back formatted under the actor's name |
| Conversation.Conversation.ArchiveResponse | src/sdl/conversation.py:96-98 | the response is appended to the transcript under the username and pushed into the bounded window |
| Conversation.Conversation.NextSpeaker | src/sdl/conversation.py:71-72 | the turn manager's next name if the dictionary has it; StopIteration on an empty roster with no advance; KeyError for a name the dictionary lacks |
| Conversation.Conversation.TakeTurn | src/sdl/conversation.py:72-81 | the new transcript and window are those `UserTurn` gives, keeping the class invariant |
| Conversation.Conversation.Turn | src/sdl/conversation.py:70-81 | one loop iteration: the remaining run from the new state equals the whole remaining run, or the run ends here with the returned error |
| Conversation.Conversation.PlayTurns | src/sdl/conversation.py:70-81 | the `for` loop leaves exactly the transcript, window, turn count and error of a `conv_len`-turn run from the state it started in |
| Conversation.Conversation.BeginConversation | src/sdl/conversation.py:57-81 | RuntimeError exactly when the transcript is non-empty on entry, changing nothing; otherwise the state is that of a `conv_len`-turn run from empty |
| Conversation.Conversation.ToDict | src/sdl/conversation.py:127-128 | `logs` is the transcript and `ctx_length` is `min(h, |logs|)`, never above the capacity |
| Conversation.TranscriptLength | src/sdl/conversation.py:70-94 | from a fresh conversation whose roster names all resolve (or with no turns), the run completes with exactly `conv_len` entries, or `2 * conv_len` with a moderator: the blank test never drops a turn |
| Conversation.ModeratedSpeakers | src/sdl/conversation.py:71-81 | with a moderator, entry 2k is the cycle's k-th name and entry 2k + 1 is the moderator |
| Conversation.UnmoderatedSpeakers | src/sdl/conversation.py:70-72 | without a moderator, entry k is `roster[(t + k) mod n]` for a turn manager that had made t calls |
| Annotation.WindowAfterIsLast | src/sdl/annotation.py:38-42 | after k appends the replay's deque holds the latest `min(h, k)` formatted inputs in order |
| Annotation.Annotated | src/sdl/annotation.py:40-44 | k loop passes append exactly k entries |
| Annotation.Annotations | src/sdl/annotation.py:40-44 | one replay appends exactly one entry per input message |
| Annotation.AnnotationAt | src/sdl/annotation.py:43-44 | entry k pairs the k-th raw input message with the annotator's reply to the window shown at step k |
| Annotation.ShownWindow | src/sdl/annotation.py:41-43 | the window shown at step k holds formatted inputs `k + 1 - min(h, k + 1)` to k in order, the current one last, never more than h |
| Annotation.AnnotationConv.constructor | src/sdl/annotation.py:23-29 | annotator, input transcript and `history_ctx_len` stored as given; no annotations yet |
| Annotation.AnnotationConv.BeginAnnotation | src/sdl/annotation.py:31-44 | a negative `history_ctx_len` fails before anything is appended; otherwise one replay is appended to the existing annotations (no re-run guard) |
| Annotation.AnnotationConv.Replay | src/sdl/annotation.py:38-44 | the loop appends exactly the replay of the input transcript through a fresh window, in input order |
| Annotation.AnnotationConv.ReplayStep | src/sdl/annotation.py:41-44 | one pass: input i enters the window, and the annotator's reply to that window is appended next to the raw message |
| Annotation.AnnotationConv.ToDict | src/sdl/annotation.py:63-65 | `ctx_length` is the configured length (not a window size), `logs` the annotations, `annotator_prompt` the annotator's system prompt |
| AnnotationConfigs.GenerateAnnotatorFile | src/generate_annotation_configs.py:10-31 | one entry per persona, in persona order, entry i the space-join of persona i's attribute list; instructions and `history_ctx_len` pass through; no personas give no entries |
| AnnotationConfigs.FlattenShape | src/generate_annotation_configs.py:22-24 | a flattened entry opens with the persona's "N years old" phrase and closes with its "and I intent" phrase |
| AnnotationConfigs.GeneratedEntries | src/generate_annotation_configs.py:22-24 | every entry of a generated file has that shape for the persona at the same position |
| ConvConfigs.AsPersona | src/generate_conv_configs.py:79-91 | a persona dictionary is read as the persona it describes, its username as the name |
| ConvConfigs.SexParse | src/generate_conv_configs.py:96-103 | the script's copy of `sex_parse` agrees with the persona's on every input |
| ConvConfigs.FormatPersonaAttributes | src/generate_conv_configs.py:79-93 | the list built append by append is the persona's `to_attribute_list` for the same fields, with `7 + |characteristics|` entries |
| ConvConfigs.GenerateConvConfig | src/generate_conv_configs.py:45-76 | success exactly when `0 <= num_users <= |personas|` and there is a topic; otherwise the assertion, sample or choice error; user names and attributes from the same sampled personas in the same order; all fields as configured |
| ConvConfigs.GeneratedModerator | src/generate_conv_configs.py:63-76 | a generated record passes the length check, and a conversation produced from it has a moderator exactly when one was asked for and a moderator model is given |
| ConversationIO.MakeConvData | src/sdl/conversation_io.py:28-31 | the record is accepted exactly when there is one attribute list per user name, and is otherwise refused with the AssertionError message |
| ConversationIO.UserActor | src/sdl/conversation_io.py:104-113 | user i has the user model, the i-th name and attribute list, the shared context and the user instructions |
| ConversationIO.UserActors | src/sdl/conversation_io.py:104-113 | one user per name, in name order |
| ConversationIO.ModeratorFor | src/sdl/conversation_io.py:114-128 | a moderator exists exactly when its name, model, attributes and instructions are all present, built from those and the shared context |
| ConversationIO.RosterResolves | src/sdl/conversation_io.py:91-113 | every name the turn manager can propose is a key of the users dictionary and files the user of that name |
| ConversationIO.ProducedTranscriptLength | src/sdl/conversation_io.py:95-137 | a conversation produced from well-formed data with a non-empty roster runs without error to `conv_len` entries, or twice that with a moderator |
| ConversationIO.ConvGenerator.constructor | src/sdl/conversation_io.py:88-93 | the data, models and turn manager are stored as given |
| ConversationIO.ConvGenerator.BuildUserList | src/sdl/conversation_io.py:102-113 | the append loop yields one user per name, in order |
| ConversationIO.ConvGenerator.ProduceConversation | src/sdl/conversation_io.py:95-137 | a fresh conversation with those users, that moderator, the shared turn manager, and `history_ctx_len` and `conv_len` unchanged, empty at the start; a negative `history_ctx_len` is the deque's ValueError |
| ConversationIO.NewGenerator | src/sdl/conversation_io.py:68-93 | fails without a user model, then if a named moderator has no model, then if the tag is unknown; otherwise a generator over a fresh round-robin turn manager for the user names |
| LegacyConversation.WindowOfIsLast | src/lib/conversation.py:84-91 | the deque holds the latest `min(h, n)` formatted entries of the raw transcript in order |
| LegacyConversation.Step | src/lib/conversation.py:75-91 | definition: the actor's raw reply to the current window is appended to the transcript under its name, and its formatted form is pushed into the bounded window |
| LegacyConversation.UsersFrom | src/lib/conversation.py:64-73 | definition: the users from index `j` on each take a `Step`; a reply that strips to nothing stops the run before the moderator answers; otherwise the moderator, if any, takes a `Step` after each user |
| LegacyConversation.Rounds | src/lib/conversation.py:63-73 | definition: `n` rounds of `UsersFrom` from the first user, ending early at the first round that stopped |
| LegacyConversation.StepWindow | src/lib/conversation.py:84-91 | a turn keeps the window equal to the deque of the formatted transcript |
| LegacyConversation.StepFollows | src/lib/conversation.py:84-91 | a turn by the scheduled actor appends one entry and keeps the schedule and the window invariant |
| LegacyConversation.SlotActors | src/lib/conversation.py:63-73 | the entry that opens user turn t belongs to user `t mod |users|`; with a moderator, the next one belongs to the moderator |
| LegacyConversation.UsersFromScheduled | src/lib/conversation.py:64-73 | the inner loop from any user of a round keeps the schedule and the window, and on completion has taken the round's remaining turns |
| LegacyConversation.UsersFromCounted | src/lib/conversation.py:64-73 | the inner loop either takes every remaining turn with no blank user reply, or stops with a blank user reply as the last entry |
| LegacyConversation.RoundsScheduled | src/lib/conversation.py:63-73 | any number of rounds keeps the schedule and the window |
| LegacyConversation.RoundsCounted | src/lib/conversation.py:63-73 | m rounds either take all `m * |users|` user turns or stop at the first blank user reply |
| LegacyConversation.NoUsersNoRun | src/lib/conversation.py:63-64 | with no users the loops change nothing |
| LegacyConversation.LegacySchedule | src/lib/conversation.py:63-91 | every entry of a run is the scheduled actor's raw reply (users in list order, each followed by the moderator) to the window before it; the window is the latest formatted entries, never above capacity |
| LegacyConversation.SpokeToLast | src/lib/conversation.py:84 | an entry answers the window of the entries before it exactly when it answers their latest `min(h, i)` formatted forms |
| LegacyConversation.LegacyCount | src/lib/conversation.py:63-73 | entries at most `conv_len * |users| * (1 + [moderator])`, exactly that unless the run stopped; it stopped exactly when its last entry is a blank user reply, and no earlier user reply is blank |
| LegacyConversation.LegacyConv.constructor | src/lib/conversation.py:19-48 | users, moderator, `conv_len` and capacity as given; empty transcript and window |
| LegacyConversation.LegacyConv.ActorTurn | src/lib/conversation.py:75-91 | the raw reply to the current window joins the transcript and its formatted form the window |
| LegacyConversation.LegacyConv.UserTurn | src/lib/conversation.py:64-73 | the user speaks; the pass stops exactly when that raw reply is blank, with no moderator reply; otherwise the moderator answers |
| LegacyConversation.LegacyConv.UsersRound | src/lib/conversation.py:64-73 | the inner loop leaves exactly the state and stop flag that `UsersFrom` gives from the first user |
| LegacyConversation.LegacyConv.BeginConversation | src/lib/conversation.py:50-73 | RuntimeError exactly when the transcript is non-empty on entry, changing nothing; otherwise the state is that of `conv_len` rounds from empty, cut short at the first blank user reply |
| LegacyConversation.MakeLegacyConvData | src/lib/conversation.py:153-156 | accepted exactly when there is one attribute list per user name, otherwise the AssertionError message |
| LegacyConversation.LegacyUser | src/lib/conversation.py:224-230 | user i has role "chat user", the i-th name and attributes, the shared context and the user instructions |
| LegacyConversation.LegacyUsers | src/lib/conversation.py:222-230 | one user per name, in order |
| LegacyConversation.LegacyModerator | src/lib/conversation.py:231-239 | a moderator exists exactly when a name is configured, with role "chat moderator" and the configured attributes and instructions passed through even when None |
| LegacyConversation.LegacyGenerator.constructor | src/lib/conversation.py:211-213 | data and models stored as given |
| LegacyConversation.LegacyGenerator.BuildUserList | src/lib/conversation.py:222-230 | the append loop yields one user per name, in order |
| LegacyConversation.LegacyGenerator.ProduceConversation | src/lib/conversation.py:215-245 | a fresh conversation with those users and that moderator, `history_ctx_len` and `conv_len` unchanged, empty at the start; a negative `history_ctx_len` is the deque's ValueError |
| LegacyConversation.NewLegacyGenerator | src/lib/conversation.py:193-213 | fails without a user model, then if a named moderator has no model; otherwise a generator over the data |
| Persona.SexParse | src/sdl/persona.py:60-69 | "man" exactly for a sex that lower-cases to "male", "woman" exactly for "female", "non-binary" for everything else |
| Persona.SexParseCharwise | src/sdl/persona.py:63-67 | the inputs mapped to "man" or "woman" are exactly the 4- and 6-letter strings that lower-case letter by letter to "male" and "female" |
| Persona.Attributes | src/sdl/persona.py:39-58 | the attribute list has `7 + |characteristics|` entries |
| Persona.AttributesLayout | src/sdl/persona.py:45-58 | entry by entry: age phrase, orientation, demographic group, employment, the characteristics in order, then the parsed sex (one of the three values), the education phrase and the intent phrase |
| Persona.AttributesIgnoreName | src/sdl/persona.py:39-58 | the persona's name plays no part in its attribute list |
| Persona.ToAttributeList | src/sdl/persona.py:39-58 | the list built append by append is the attribute list above |
| Stats.MaxOf | src/tasks/stats.py:140 | the maximum is an element of the histogram and no element exceeds it |
| Stats.FirstIndex | src/tasks/stats.py:141 | the first index holding the value |
| Stats.PeakOf | src/tasks/stats.py:140-141 | `pos_max` holds the maximum and every bin before it is strictly smaller |
| Stats.RightDipBounds | src/tasks/stats.py:143-147 | the right search ends at least 0 and at least every rise it compared, and equal to 0 or to one of them |
| Stats.DescendBounds | src/tasks/stats.py:148-151 | the left search ends at least its start and every difference it compared, and equal to its start or to one of them |
| Stats.Dfu | src/tasks/stats.py:139-151 | definition: the right search from the first peak to the end, then the left search from the peak down to index 1 starting from the right search's result |
| Stats.DfuIsMaxRise | src/tasks/stats.py:143-151 | the score is at least 0, at least every rise right of the peak and every rise towards the peak from its left, and equal to 0 or one of them: their exact maximum, floored at 0 |
| Stats.DfuZeroIffUnimodal | src/tasks/stats.py:133-151 | the score is 0 exactly when the histogram is non-decreasing up to its first peak and non-increasing after it |
| Stats.RightDipAtMost | src/tasks/stats.py:144-147 | with bins in [0, m] the right search stays at most m |
| Stats.DescendAtMost | src/tasks/stats.py:148-151 | with bins in [0, m] the left search, started at most m, stays at most m |
| Stats.NormalisedInUnit | src/tasks/stats.py:152-153 | with non-negative bins and a positive maximum, the normalised score lies in [0, 1] |
| Stats.Ndfu | src/tasks/stats.py:133-154 | the two loops compute the score above; normalised, it is divided by the maximum; an empty histogram and a zero maximum are the two failures |
| Text.StripEmptyIffBlank | src/sdl/util.py:56 | `len(s.strip()) == 0` exactly when every character of s is white space |
| Text.LowerMatches | src/sdl/turn_manager.py:61 | `s.lower() == t` exactly when s has t's length and lower-cases to it letter by letter |
| Text.JoinSnoc | src/sdl/actors.py:93 | joining one more part appends the separator and that part |
| Text.JoinEnds | src/generate_annotation_configs.py:23 | a non-empty join starts with its first part and ends with its last |

## Left out

- Timestamps, `uuid` ids, `verbose` printing, JSON and file I/O are not modelled: they are side observers or persistence. This covers every `from_json_file`/`to_json_file`/`__str__`, the file read in `AnnotationConv.__init__` (the transcript is a constructor argument instead), `read_files_from_directory`, `read_file`, `ensure_parent_directories_exist`, `save_plot` and the command-line `main()` functions.
- The language-model backends (`src/sdl/models.py` and `src/sdl/backend/`) are not modelled: each actor's model is an uninterpreted function of the request.
- `textwrap.fill` is not modelled: it is an uninterpreted `Wrapper`.
- `str.lower` is not modelled in full: the model folds ASCII letters only. `str.strip` is modelled by the white-space code points Python strips.
- `random.sample` and `random.choice` are not modelled: their outcomes are parameters. The sampled indices must be distinct and in range, and the topic index must be in range.
- `user_types`, `moderator_type`, `id`, `timestamp`, `users`, `user_prompts` and `moderator_prompt` in the two `to_dict` methods are not modelled: they are export metadata. Only `ctx_length`, `logs` and the annotator's prompt are modelled.
- The legacy `to_dict` is export metadata and is not modelled.
- `get_name()` is not a member of its own: it is the actor's `name` field, which never changes once built.
- `turn_manager_config` is carried through the records unchanged, as in the source: nothing reads it.
- `DEFAULT_MODERATOR_ATTRIBUTES` is not modelled: the source never uses it.
- The dataclass field defaults (`conv_len = 4` and so on) are not modelled: callers pass every field explicitly.
- Missing dictionary keys in the persona and `config` dictionaries (KeyError) are not modelled: the dictionaries are typed records.
- src/lib/actors.py and src/lib/util.py are not part of this model. The legacy actor's reply is a supplied function of the actor and the window. `lib.util.format_chat_message` is taken to be the same as `sdl.util.format_chat_message`.
- `annotation_io` (the `LLMAnnotatorData` file I/O and its generator) is not modelled. The annotator-config function builds the record by its three fields, not through the misspelled class name.
- The rest of src/tasks/stats.py (`_to_hist`, the statistical tests, the pandas helpers) is not modelled, nor is `ndfu` with `histogram_input=False`. Those functions wrap numpy, scipy and pandas.
- `Stats.Ndfu` uses exact reals instead of floating point, so NaN bins and rounding are not modelled. The model assumes the histogram is a numpy array, as the `hist == max_value` lookup at line 141 requires; a plain list is not modelled. A zero maximum gives nan or inf under numpy; the model reports it as the `ZeroMaximum` failure.
- `Actors.SystemPrompt`: the contract states the opening and closing of the content. The middle (the attributes joined by ", ", then ". Context: " and the context) is given only by the definition.
- The abstract `TurnManager` base class is not modelled on its own: `next_turn_manager` has type `RoundRobin`, the base's only implementation.
