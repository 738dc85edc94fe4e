# Discord agent: intent extraction and action validation

This project models, in Dafny, the layer of a Discord bot that turns a language
model's free-text reply into a Discord action, and the argument checks each
action makes before it touches the platform.

- `Intent` (agent.py): the reply is searched for the command name
  `create_group_chat`. It is then searched for the pattern `user_mentions=\[(.*)\]`,
  with Python's `re.search` semantics: the leftmost match, a greedy `.*` and no
  crossing of a newline. The capture is split on `,` and every piece is
  stripped. The reply then either dispatches `create_group_chat` once, or it is
  returned unchanged.
- `Mentions` (discord_agent.py): a mention token is reduced to its digits, read
  as an id and looked up in the platform's directory. Lists of tokens are
  resolved in order, and tokens that do not resolve are dropped.
- `Actions` (discord_agent.py): the `DiscordAgent` class. Every platform effect
  is an `Event` appended to the agent's `trace`: a thread is created, a thread
  member is added, a message is sent or replied, the avatar image is fetched,
  an avatar or a nickname is edited. For each handler, a pure function gives
  the events it produces. The handler method appends them step by step, and
  its `ensures` ties the new trace to that function.
- `Text`: the Python string operations the core uses (`strip`, `strip(chars)`,
  `split`, `join`, `startswith`, `in`), with Python's semantics.

What the platform answers is an input to the model:
- the user and channel directories behind the id lookups;
- a `Fault` naming which platform call of `create_group_chat` raises
  `Forbidden` or `HTTPException`;
- the result of the HTTP fetch (client error, or status, content type and a
  possible read error);
- whether an edit succeeds.

Pieces of the mention list are only whitespace-stripped: quote characters and
`@` are kept (agent.py:67). Classification tests the one literal name
`create_group_chat` (agent.py:63); `POSSIBLE_COMMANDS` (agent.py:9-15) only
feeds the prompt.

## Model

| member | source | states |
|---|---|---|
| `Text.TrimStart` | discord_agent.py:155 | the result is no longer than the input and does not start with a stripped character |
| `Text.TrimStartSuffix` | discord_agent.py:155 | `lstrip` leaves a suffix of the input, and every removed character is in the strip set |
| `Text.TrimEnd` | discord_agent.py:155 | `rstrip` leaves a prefix of the input that does not end with a stripped character |
| `Text.TrimEndPrefix` | discord_agent.py:155 | every character `rstrip` removes is in the strip set |
| `Text.StripChars` | discord_agent.py:155 | neither end of `s.strip(chars)` is in the strip set |
| `Text.StripCharsSlice` | discord_agent.py:155 | `s.strip(chars)` is one contiguous slice of `s`, and everything outside it is in the strip set |
| `Text.Contains` | agent.py:63 | `t in s` needs `t` to be no longer than `s`, and the empty string is in every string |
| `Text.ContainsInfix` | agent.py:63 | a string occurs in anything written around it |
| `Text.StartsWith` | discord_agent.py:158 | `s.startswith(p)` holds exactly when `p` occurs at index 0, and then `p in s` |
| `Text.Strip` | agent.py:67 | `str.strip()` leaves no leading or trailing whitespace (Python's `isspace` set) |
| `Text.StripTrimmed` | agent.py:67 | stripping an already-trimmed string changes nothing |
| `Text.StripSpaced` | agent.py:67 | stripping `" " + x` gives back a trimmed `x` |
| `Text.Split` | agent.py:66 | `split(",")` yields at least one piece, and no piece contains the separator |
| `Text.SplitCount` | agent.py:66 | `split(",")` yields exactly one more piece than there are commas |
| `Text.Join` | discord_agent.py:87 | `sep.join(xs)`: the elements in order with one separator between neighbours. `JoinLength`, `JoinSplit` and `SplitJoin` state its properties |
| `Text.JoinLength` | discord_agent.py:87 | `sep.join(xs)` is as long as all elements together plus `len(xs) - 1` separators, and empty for an empty list |
| `Text.JoinSplit` | agent.py:66 | joining the pieces of a split with the separator restores the string |
| `Text.SplitJoin` | agent.py:66 | splitting a join of separator-free pieces gives the pieces back |
| `Mentions.DigitsOf` | discord_agent.py:12 | `"".join(filter(str.isdigit, token))`, with `IsDigit` standing for `str.isdigit` on ASCII digits: the clean id is made only of digits and is no longer than the token |
| `Mentions.DigitsOfConcat` | discord_agent.py:12 | digit filtering distributes over concatenation, so it keeps exactly the digits, in order |
| `Mentions.DigitsOfEmpty` | discord_agent.py:12 | nothing is left exactly when the token holds no digit |
| `Mentions.DecimalValue` | discord_agent.py:13 | `int(ds)` on a digit string: its last digit is the value's last decimal digit, and leading zeros do not change the value |
| `Mentions.ShowNat` | discord_agent.py:182 | `str(n)` is a non-empty digit string with no leading zero (except `"0"`) |
| `Mentions.DecimalValueShowNat` | discord_agent.py:13 | `int` of the decimal form of an id is that id |
| `Mentions.ParseId` | discord_agent.py:10-17 | the id is absent (the `ValueError` path, so None and no exception) exactly when the token has no digit |
| `Mentions.ParseIdOfMention` | discord_agent.py:19-26 | a digit-free prefix and suffix around the decimal form of an id (as in `<@id>`, `<#id>`, `@id`) parse to that id |
| `Mentions.Lookup` | discord_agent.py:10-17 | a lookup hits exactly when the token has an id and the directory holds that id, and a hit is the entry filed under that id |
| `Mentions.Resolved` | discord_agent.py:57-63 | the resolved list is no longer than the token list, holds only directory entries, and is empty exactly when no token resolves |
| `Mentions.ResolvedSingle` | discord_agent.py:59-62 | one token resolves to exactly what its own lookup finds: that entry, or nothing. With `ResolvedConcat` this fixes the resolution of every list |
| `Mentions.ResolvedConcat` | discord_agent.py:66-72 | resolution preserves token order: resolving `a + b` is resolving `a`, then `b` |
| `Mentions.ResolveTokens` | discord_agent.py:57-72 | the for-append loop of `get_user_mentions` and `get_channel_mentions` computes exactly the resolved list |
| `Actions.UserMention` | discord_agent.py:102 | `user.mention` is `<@...>` markup; `ResolveOwnMention` reads the user back from it |
| `Actions.ResolveOwnMention` | discord_agent.py:102 | the mention the agent writes for a user resolves back to that user |
| `Actions.ResolveOwnMentions` | discord_agent.py:57-63 | resolving the agent's mentions (`UserMentions`) of users filed under their own ids gives back exactly those users, in order |
| `Actions.ThreadName` | discord_agent.py:86-87 | the thread name is "Private Chat with " followed by the display names (`DisplayNames`, the comprehension of line 86) joined by ", ", in resolution order |
| `Actions.WelcomeTextParts` | discord_agent.py:102-103 | the welcome message is the greeting, then the users' mentions (`UserMentions`, the comprehension of line 102) joined by ", ", then `!` |
| `Actions.MemberStepsInOrder` | discord_agent.py:98-99 | the member-adding calls add each resolved user once, in resolution order |
| `Actions.GroupChatSteps` | discord_agent.py:89-103 | a successful run creates one thread, then makes exactly the member-adding calls, then sends one welcome message. Only the first call creates a thread |
| `Actions.ThreadFailureReply` | discord_agent.py:107-110 | `Forbidden` maps to the permission message, any other `HTTPException` to the retry message |
| `Actions.DiscordAgent.GroupChatEffects` | discord_agent.py:79-105 | with no resolved user nothing happens on the platform. Otherwise the events are a prefix of the successful steps, and all of them when no call raises. At most one thread is created, always first |
| `Actions.DiscordAgent.GroupChatReply` | discord_agent.py:79-110 | the reply is the no-users message exactly when nothing resolves, and the success message exactly when no platform call raises. Otherwise it is the message matching the error |
| `Actions.DiscordAgent.GroupChatInterrupted` | discord_agent.py:107-110 | when a call raises, the steps before it are what happened and the reply names the error |
| `Actions.DiscordAgent.GroupChatCompleted` | discord_agent.py:98-105 | when no call raises, every step happens and "Private thread created!" is returned |
| `Actions.DiscordAgent.PerformGroupChat` | discord_agent.py:89-105 | the try block stops at the first call that raises, and the trace grows by exactly the steps that ran |
| `Actions.DiscordAgent.AddMembers` | discord_agent.py:98-99 | the `add_user` loop adds the users in order and stops at the first call that raises. The trace grows by exactly the adds made before it |
| `Actions.DiscordAgent.CreateGroupChat` | discord_agent.py:74-110 | the trace grows by `GroupChatEffects` and the reply is `GroupChatReply` |
| `Actions.InviteRejection` | discord_agent.py:118-126 | users are checked before channels: with no valid user the users message is returned, whatever the channels |
| `Actions.DiscordAgent.InviteMemberToChannel` | discord_agent.py:112-131 | a rejection leaves the trace unchanged. So does a reply that raises, and the error is passed on. Otherwise the only event is the "Adding <users> to Channel <channels>" reply |
| `Actions.AddingText` | discord_agent.py:129-131 | the reply is "Adding ", the display names (`DisplayNames`, line 129) joined by ", ", " to Channel ", then the channel names (`ChannelNames`, line 130) joined by ", " |
| `Actions.CleanUrl` | discord_agent.py:155 | the cleaned URL neither starts nor ends with a quote and is no longer than the input |
| `Actions.HasWebScheme` | discord_agent.py:158 | an accepted URL starts with `http` and is at least 7 characters long |
| `Actions.QuotedUrlAccepted` | discord_agent.py:155-158 | a web URL written between quotes has them removed and passes the scheme check |
| `Actions.AccessError` | discord_agent.py:184 | the message is "❌ Error accessing URL: " followed by exactly `str(e)` |
| `Actions.StatusFailure` | discord_agent.py:182 | the message is "❌ Failed to fetch image. Status code: " followed by exactly `str(status)`, which reads back as that number |
| `Actions.AvatarEditError` | discord_agent.py:180 | the message is "❌ Error changing avatar: " followed by exactly `str(e)` |
| `Actions.FetchOutcome` | discord_agent.py:167-184 | each branch's message is stated: a client error or a failed read gives the access-error message with its text. A non-200 status gives the status-code message. A 200 whose content type does not start with `image/` gives the invalid-image message. A failed edit gives the avatar-error message with its text. A successful edit gives the edit, then "✅ Bot avatar changed successfully!". The avatar is edited exactly on 200, an image type, a readable body and a successful edit. Exactly one message is sent, last |
| `Actions.AvatarEffects` | discord_agent.py:149-184 | a non-bot is rejected whatever the URL. A cleaned URL without an `http://` or `https://` scheme is rejected before any fetch. The fetch happens, once and first, exactly when both checks pass. Exactly one message is sent, last |
| `Actions.HandleAvatarEffects` | discord_agent.py:189-194 | with the bot or the URL missing (None or empty), only the prompt is sent and nothing is fetched |
| `Actions.Absent` | discord_agent.py:190 | Python's falsiness of an optional string: false exactly when a string with at least one character is given |
| `Actions.NameChanged` | discord_agent.py:207 | the message puts the new name between "✅ Successfully changed bot's name to **" and "**!" |
| `Actions.RenameFailed` | discord_agent.py:211 | the message is "❌ Failed to change name: " followed by exactly `str(e)` |
| `Actions.RenameEffects` | discord_agent.py:196-211 | the nickname is edited exactly when the target is a bot, a non-empty name is given and the edit succeeds; then the success message names the new name. A non-bot or a missing name gives its message. A `Forbidden` edit gives the permission message, any other `HTTPException` the failure message with its text. Exactly one message is sent, last |
| `Actions.HandleRenameEffects` | discord_agent.py:216-230 | with an argument missing, no rename happens and exactly two messages are sent. The first is one of three errors, chosen by which argument is missing. The format prompt comes last |
| `Actions.DiscordAgent.Send` | discord_agent.py:151 | sending a channel message appends exactly that message to the trace |
| `Actions.DiscordAgent.ChangeBotAvatar` | discord_agent.py:149-184 | the trace grows by exactly `AvatarEffects` |
| `Actions.DiscordAgent.ReportFetch` | discord_agent.py:167-184 | the trace grows by exactly `FetchOutcome` |
| `Actions.DiscordAgent.PromptChangeAvatar` | discord_agent.py:186-187 | the avatar prompt is sent |
| `Actions.DiscordAgent.HandleChangeAvatar` | discord_agent.py:189-194 | the trace grows by exactly `HandleAvatarEffects` |
| `Actions.DiscordAgent.ChangeBotName` | discord_agent.py:196-211 | the trace grows by exactly `RenameEffects` |
| `Actions.DiscordAgent.PromptChangeName` | discord_agent.py:213-214 | the format prompt is sent |
| `Actions.DiscordAgent.HandleChangeName` | discord_agent.py:216-230 | the trace grows by exactly `HandleRenameEffects` |
| `Actions.DiscordAgent.constructor` | discord_agent.py:6-8 | a new agent has an empty trace over the given directories |
| `Intent.LastClose` | agent.py:64 | the result is the last `]` at or after a position, with no newline between it and the capture's start, or none when no such `]` exists |
| `Intent.SearchFrom` | agent.py:64 | `re.search` finds the leftmost start at which the pattern matches and, there, the last `]` on the line. It finds nothing exactly when no start matches |
| `Intent.IsMatch` | agent.py:64 | the pattern's declarative reading: `user_mentions=[` at `i`, a `]` at `j`, no newline between. A match lies on one line |
| `Intent.ExtractMentions` | agent.py:65-67 | the list has (number of commas in the capture) + 1 elements, and element `k` is the stripped `k`-th comma-separated piece, so it has no leading or trailing whitespace |
| `Intent.Classify` | agent.py:63-71 | the reply dispatches exactly when it contains `create_group_chat` and the pattern matches. Otherwise it is returned unchanged. A dispatched list is the extraction of the leftmost-greedy capture, so it is non-empty and its elements are stripped |
| `Intent.JoinCommaSpace` | agent.py:26 | `", ".join(xs)` is the `","`-join of the first element followed by the others, each with one leading space |
| `Intent.SplitJoinedList` | agent.py:66 | splitting `", ".join(xs)` on `,` gives each element, all but the first with the one leading space of the separator |
| `Intent.ExtractPadded` | agent.py:65-67 | a capture that splits into the space-padded elements extracts to the elements |
| `Intent.ExtractJoined` | agent.py:65-67 | extraction undoes `", ".join` for comma-free, already-stripped elements |
| `Intent.WrittenListMatches` | agent.py:64 | at a written list the pattern matches, and its greedy end is the `]` written right after the list |
| `Intent.NoOpeningBefore` | agent.py:64 | no occurrence of `user_mentions=[` can start before one written after a prefix that holds none |
| `Intent.ClassifyRoundTrip` | agent.py:63-67 | writing a non-empty list as `user_mentions=[` + `", ".join(xs)` + `]` dispatches exactly that list. This needs newline- and comma-free stripped elements, no earlier opening and no later `]` on the line |
| `Intent.DocumentedExample` | agent.py:26 | the documented reply `create_group_chat(user_mentions=[@user1, @user2])` dispatches `["@user1", "@user2"]` |
| `Intent.Run` | agent.py:63-71 | a verbatim reply leaves the trace unchanged. A dispatch calls `create_group_chat` once with the extracted list, and its reply and trace effects are the result |

## Left out

- The Mistral client, the prompt it is sent (agent.py:17-30, 45-61) and the `print` calls: the reply is an input string. `get_users_in_message` (discord_agent.py:28-40) only feeds that prompt (agent.py:45). `get_channel_mentions_in_message` (discord_agent.py:42-54) is not called anywhere. Neither is modelled.
- `discord.Client.get_user` / `get_channel` (discord_agent.py:13, 22) are called on the class `discord.Client`, not on a client instance. As written, every token that holds a digit would raise an uncaught `TypeError`. The model assumes a working lookup instead: a map from id to entry, in which a `NotFound` behaves like a missing entry.
- Only ASCII digits count as digits. Python's `str.isdigit` also accepts other Unicode digits, and `int` rejects a string of more than 4300 digits; neither is modelled.
- The per-channel loop of `invite_member_to_channel` (discord_agent.py:133-146) and the final edit of the reply are not modelled. As written, the loop iterates over channel names (strings), so the first `channel.add_user(user)` (line 137) raises `AttributeError`. Only `Forbidden` and `HTTPException` are caught (lines 143-146), so that exception escapes right after the "Adding ..." reply. `InviteMemberToChannel` ending with `Announced` therefore stands for "reply sent, then an uncaught exception".
- The aiohttp session, request headers and `ssl=False` (discord_agent.py:162-169): the fetch result is an input. A missing `content-type` header is given as the empty string.
- Messages sent to the command's channel with `channel.send` are assumed to succeed. The model does not cover a send that raises (in the source such an exception escapes. Inside the avatar edit's `try` (discord_agent.py:176-180) a failing success message is reported as an avatar error. Inside `change_bot_name`'s `try` (discord_agent.py:205-211) it is reported as a rename failure).
- `str(e)` of a platform or client error is an input string. Exceptions other than `discord.Forbidden`, `discord.HTTPException` and `aiohttp.ClientError` are not modelled.
- The avatar bytes passed to `edit` are not modelled: `OwnAvatarEdited` records that the agent's own member (`message.guild.me`) was edited.
- `async`/`await` scheduling and concurrency between messages are not modelled: each call runs to completion on one agent.
- cogs/avatar_changer.py is not part of this model (a fetch and an edit with one size check). oauth_server.py is not part of this model either (an unrelated HTTP route).
