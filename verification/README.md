# YouTube-to-MP3 chat bot: dialogue and job slot

This project models the core of a Telegram bot that turns a YouTube link into an MP3. A user walks through a short
dialogue: `/ytmp3`, then the link, then an output name ("No" means "use the video title"), then a button
choosing where the file goes ("dm" for a private chat or "group" for the chat of origin). The bot then starts one
background download job. Only one job may hold the process-wide slot. The slot is three globals: the current task,
its owner and the chat it came from. Only the owner can `/cancel` the job. An admin sub-dialogue (`/sethelp`)
stores help commands. Any plain-text message that equals a stored trigger gets the stored reply.

The model follows `bot.py`. `server.py` holds the same handlers and is not modelled separately.

Modules:

- `Text`: Python's `str.strip()` with Python's exact whitespace set, plus `lower()` on ASCII, `startswith`, `endswith` and `in`.
- `Naming`: the output-naming helpers inside the job. These are the `.webm`/`.m4a` to `.mp3` rewrite, the
  case-insensitive "no" sentinel and the name the document is sent under.
- `Supervisor`: the job slot.
  - The writes made by `start_download`, by the job's `finally` and by `cancel` are pure step functions.
  - The class `JobSlot` holds the three globals. Its methods are proved against those step functions.
  - Lemmas over event traces prove mutual exclusion where the steps run one at a time and without `/cancel`.
  - Concrete traces exhibit where the code would not keep the slot exclusive. Had another handler run at the
    `await` between the busy test and the asyncio task creation, both callers would be granted (bot.py as written
    does not run one there, see below). `cancel` clears the slot before the cancelled job's `finally` runs, and that
    `finally` clears whatever job the slot describes by then.
- `Help`: the help-command registry (`HELP_COMMANDS`), the admin gate of `/sethelp`, the guarded upsert and the
  exact-match lookup.
- `Dialogue`: the states `ASK_LINK` … `ASK_ADMIN_CMD + 1`, the per-user record `ctx.user_data`, the handlers that
  do not touch the slot, and the declared transition table with path lemmas.
- `Bot`: `ask_sendto_callback`, `start_download`, the job's effects, `cancel`, the routing table of `main`, and one
  user's conversation (`Conversation`) driven update by update. `Conversation` keeps an invariant: in every state,
  the fields the later steps read have already been validated.

What the code does, set against what a single-slot job supervisor should guarantee:

- `start_download` tests `CURRENT_TASK` at line 144 and sets it at line 206, with `await send_text(...)` in between;
  the test and the set are not one atomic step. On the only path that reaches them (`ask_sendto_callback`),
  `send_text` fails on the callback update and returns None without suspending, so no other handler runs between
  them in bot.py as written. `InterleavedClaimsBothGranted`, `RacingClaimsAllGranted` and
  `RaceRedirectsPrivateDelivery` state what would follow if they were interleaved.
- `cancel` clears `CURRENT_TASK` and `CURRENT_OWNER_ID` itself, right after `task.cancel()`, and leaves
  `CURRENT_ORIGIN_CHAT_ID` set; the cancelled job's `finally` clears all three later, whatever job they describe
  by then. When the cancelled job is still unwinding as the next download starts, two jobs run and the old
  `finally` clears the new job's slot (`CancelThenRestartRunsTwo`, `StaleFinishClearsNewerJob`). `cancel` awaits
  its own reply after `task.cancel()`, which usually lets the cancelled job finish first.
- `cancel` returns None, so a `/cancel` inside the dialogue keeps the conversation state instead of ending it
  (`Bot.OnCancel`).
- `cancel` sends one reply both when no job runs and when the caller does not own the job.
- No job started from the delivery button ever reports a status, whether it succeeds, fails or is cancelled.
  `status_msg` comes from `send_text` on the callback update, which has no `message`, so it is None and both
  `if status_msg:` edits (lines 195 and 199) are skipped (`Bot.OnSendTo` creates every job without a status
  message; `Bot.JobWithoutStatusIsSilent`). Even with a status message, a cancelled job would report nothing:
  `asyncio.CancelledError` is not an `Exception`, so the `except` branch does not run (`Bot.JobEffectsFacts`).
- `sethelp` admits members with `can_manage_chat` as well as administrators and creators, and admits everyone when
  the member lookup raises (`Dialogue.OnSethelp`).

## Model

| member | source | states |
|---|---|---|
| Text.Strip | bot.py:113 | The stripped text is no longer than the input and neither starts nor ends with Python whitespace |
| Text.TrimStart | bot.py:113 | `lstrip`: the result is empty or starts with a non-space (with `TrimStartSplit`: a suffix of the input, with only whitespace dropped) |
| Text.TrimEnd | bot.py:113 | `rstrip`: the result is empty or ends with a non-space (with `TrimEndSplit`: a prefix of the input, with only whitespace dropped) |
| Text.TrimStartSplit | bot.py:113 | `lstrip` returns a suffix of its input and what it drops is all whitespace |
| Text.TrimEndSplit | bot.py:113 | `rstrip` returns a prefix of its input and what it drops is all whitespace |
| Text.StripIdempotent | bot.py:221 | Stripping an already stripped text changes nothing |
| Text.StripIsSlice | bot.py:113 | The stripped text is a contiguous slice of the input, and everything outside it is whitespace |
| Text.StripPadded | bot.py:113 | Whitespace added at either end does not change what strip returns |
| Text.StripKeepsInner | bot.py:113 | A substring whose first and last characters are not whitespace survives strip |
| Text.ContainsAt | bot.py:80 | `sub in s` holds whenever `sub` occurs at any position of `s` |
| Text.Contains | bot.py:80 | `sub in s`, defined by recursion over the positions of `s` |
| Text.ContainsOccurs | bot.py:80 | `sub in s` holds only where `sub` occurs at some position; with `ContainsAt`, both directions |
| Text.LowerAscii | bot.py:191 | Lower-casing keeps the length and maps every character through the ASCII lower-case map |
| Naming.Mp3Name | bot.py:186-189 | A `.webm` or `.m4a` name becomes the same stem ending in `.mp3`; `.webm` is tried first; any other name is kept |
| Naming.Mp3NameOfStem | bot.py:186-189 | For every stem, `stem.webm` and `stem.m4a` both become `stem.mp3` |
| Naming.Mp3NameIdempotent | bot.py:186-189 | Rewriting the rewritten name changes nothing, because an `.mp3` name ends in neither download suffix |
| Naming.NoSentinelSpellings | bot.py:191 | `filename.lower() == "no"` holds exactly for "no", "No", "nO" and "NO" |
| Naming.DisplayNameChoice | bot.py:191 | The sentinel picks the title, or "Audio" when there is none; any other name is used as typed |
| Naming.SentName | bot.py:194 | The document name is the display name followed by `.mp3` |
| Naming.IsNoSentinel | bot.py:191 | `filename.lower() == "no"` (its spellings are fixed by `NoSentinelSpellings`) |
| Naming.DisplayName | bot.py:191 | The title (or "Audio") for the sentinel, the typed name otherwise (stated by `DisplayNameChoice`) |
| Supervisor.ClaimStep | bot.py:144-149 | The busy test and the writes of owner and origin, without the task |
| Supervisor.LaunchStep | bot.py:206 | The creation of the task with a fresh identity |
| Supervisor.AcquireStep | bot.py:142-206 | The busy test, the writes and the creation of the task taken as one step |
| Supervisor.FinishStep | bot.py:201-204 | The job's `finally`: all three globals cleared |
| Supervisor.CancelStep | bot.py:237-240 | The owner-gated clearing of task and owner |
| Supervisor.StepKeepsExclusive | bot.py:142-206 | One download start or one job end keeps the slot either empty with no job running, or describing its one running job |
| Supervisor.ExclusiveWithoutCancel | bot.py:142-206 | Without `/cancel`, any sequence of complete starts and job ends leaves at most one job running, and the slot describes it |
| Supervisor.LiveJobsBoundedByCancels | bot.py:235-243 | With `/cancel`, each cancel can add at most one running job beyond the one the slot describes |
| Supervisor.RunningJobsFromIdle | bot.py:51-53 | From start-up, at most one plus the number of cancels jobs are ever running at once |
| Supervisor.CancelThenRestartRunsTwo | bot.py:237-240 | After the owner cancels, the origin chat is still set and a new start is granted while the cancelled job still runs |
| Supervisor.StaleFinishClearsNewerJob | bot.py:201-204 | The cancelled job's `finally` clears the newer job's slot; its owner can no longer cancel it, and a third job is granted beside it |
| Supervisor.InterleavedClaimsBothGranted | bot.py:144-149 | If two callers passed the busy test before either created its task, both would be granted and the second would own both tasks; bot.py as written does not interleave them |
| Supervisor.RacingClaimsAllGranted | bot.py:144-149 | On a free slot, every one of any number of callers whose busy tests all come before any task creation passes the test |
| Supervisor.BusyGrantsNone | bot.py:144-146 | While a task is set, complete starts grant nothing and change nothing |
| Supervisor.AtomicAcquiresGrantOne | bot.py:142-206 | When each start runs to its end before the next, exactly one of one or more callers on a free slot is granted |
| Supervisor.JobSlot.constructor | bot.py:51-53 | The slot starts with task, owner and origin all None and no job running |
| Supervisor.JobSlot.Claim | bot.py:144-149 | The caller is granted exactly when no task is set; it then becomes owner and its chat the origin, and the asyncio task is not yet set |
| Supervisor.JobSlot.Launch | bot.py:206 | A task with a new identity becomes the current task and joins the running jobs; owner and origin are unchanged |
| Supervisor.JobSlot.Acquire | bot.py:142-206 | A start run without interruption: granted exactly when free; then a new task owned by the caller is set; otherwise nothing changes |
| Supervisor.JobSlot.Finish | bot.py:201-204 | The job's `finally` clears task, owner and origin unconditionally, and only that job stops running |
| Supervisor.JobSlot.Cancel | bot.py:235-243 | Cancelling succeeds exactly for the owner of a set task; it clears task and owner and keeps the origin; otherwise nothing changes |
| Help.MayEditHelp | bot.py:211-216 | The admin gate: refused only for a member found with neither `can_manage_chat` nor administrator or creator status |
| Help.Upsert | bot.py:227-231 | The registry after a save: a missing or empty pending trigger writes nothing, otherwise the stripped reply is stored under it |
| Help.Find | bot.py:246-248 | The reply to a free-text message: the entry under its stripped text, if any |
| Help.UpsertKeepsOtherKeys | bot.py:231 | Saving one trigger neither adds, removes nor changes any other trigger |
| Help.SavedTriggerAnswers | bot.py:220-248 | A trigger typed at the trigger step and saved with a reply is answered, with the stripped reply, to a message equal to the trigger |
| Help.EntrySurvivesOtherSaves | bot.py:226-233 | A stored trigger keeps its reply across any sequence of saves of other triggers |
| Help.HelpRegistry.constructor | bot.py:54 | The registry starts empty |
| Help.HelpRegistry.Save | bot.py:226-233 | A missing or empty pending trigger saves nothing; otherwise the stripped reply is stored under it, replacing any earlier one |
| Help.HelpRegistry.Answer | bot.py:245-248 | The answer is `Find` on the registry (so `SavedTriggerAnswers` applies to it): a message is answered exactly when its stripped text is a stored trigger, with that trigger's reply; the registry is unchanged |
| Dialogue.Number | bot.py:50 | Each state stands for an integer from 0 to 4 |
| Dialogue.NumberInjective | bot.py:50 | Distinct states stand for distinct integers |
| Dialogue.IsSingleVideo | bot.py:79-80 | Neither "playlist" nor "list=" occurs in the link |
| Dialogue.LinkOf | bot.py:113 | The stripped message text, or the empty text when there is none |
| Dialogue.LinkAccepted | bot.py:114-119 | The link starts with "http" and is a single video |
| Dialogue.PaddingIgnored | bot.py:113 | Whitespace around a link changes neither the stored link nor whether it is accepted |
| Dialogue.CollectionMarkerRejected | bot.py:79-80 | A message containing "list=" or "playlist" anywhere is rejected |
| Dialogue.BareLinkAccepted | bot.py:112-122 | A link that starts with "http", ends in a non-space and has no collection marker is accepted and stored exactly as sent |
| Dialogue.OnYtmp3 | bot.py:108-110 | `/ytmp3` asks for the link and moves to the link step |
| Dialogue.OnLink | bot.py:112-122 | Non-"http" and collection links end the dialogue with their own reply and store nothing; an accepted link is stored stripped and leads to the name step, and only an accepted one does |
| Dialogue.ChosenName | bot.py:125 | The stored name is never empty and already stripped; it is the stripped text when that is non-empty, and "No" when the answer is missing, empty or only whitespace |
| Dialogue.OnFilename | bot.py:124-132 | The chosen name is stored, the link is kept, and the two targets "dm" and "group" are offered |
| Dialogue.OnSethelp | bot.py:209-218 | The admin dialogue starts unless a member was found without admin rights; a failed lookup lets everyone in; a refusal keeps the state |
| Dialogue.OnAdminCmd | bot.py:220-224 | The stripped text becomes the pending trigger and the dialogue asks for its reply |
| Dialogue.OnAdminReply | bot.py:226-233 | The registry gets the guarded upsert; a missing or empty pending trigger fails and changes nothing; the dialogue ends either way |
| Dialogue.Declared | bot.py:257-266 | The moves the handlers of the table can make, including keeping the state |
| Dialogue.NameStepFollowsLinkStep | bot.py:257-265 | On any run of the declared table, the name step is preceded by the link step |
| Dialogue.TargetStepFollowsNameStep | bot.py:257-265 | On any run of the declared table, the delivery choice is preceded by the link step and then the name step |
| Bot.JobFilename | bot.py:151 | The stored name, "No" when it is missing or empty, stripped |
| Bot.TargetChat | bot.py:192 | "dm" goes to the slot owner at delivery time, any other choice to the chat of origin |
| Bot.DeliveryTargetAfterAcquire | bot.py:192 | When nothing runs between the start and the delivery, a "dm" file goes to the user who started the job and any other choice to the chat it started from |
| Bot.GroupTargetIgnoresOwner | bot.py:192 | A choice other than "dm" goes to the chat of origin whoever owns the slot by delivery time |
| Bot.JobEffects | bot.py:183-200 | What a job sends and which status edit it makes, for each way the fetch, the open of the file and the send end (stated by `JobEffectsFacts`) |
| Bot.SendStatus | bot.py:195-200 | Success after the send, failure with the reason when it raised, nothing when it was cancelled |
| Bot.JobFilenameKeepsChosen | bot.py:151 | The job uses exactly the name the name step stored |
| Bot.NoAnswerIsSentinel | bot.py:125 | Answering the name step with "No" stores the title sentinel |
| Bot.JobEffectsFacts | bot.py:183-200 | Success is reported exactly for a completed send with a status message; a raised fetch, open or send with a status message reports a failure with that reason; a cancelled send reports nothing; `send_document` is called exactly when neither the fetch nor the open of the file raised: the rewritten `.mp3` file, under the title (sentinel) or the chosen name with `.mp3`, to the slot owner for "dm" and to the chat of origin otherwise |
| Bot.TitleNames | bot.py:186-194 | With the sentinel, a `title.webm` download is converted to and sent as `title.mp3` |
| Bot.PrivateDeliveryUnderTitle | bot.py:183-196 | A sentinel "dm" job whose fetch and send succeed delivers `title.mp3` to the slot owner under that name; it reports success only if it has a status message |
| Bot.JobWithoutStatusIsSilent | bot.py:194-199 | A job without a status message reports no status, whatever the outcome of the fetch and the send |
| Bot.RaceRedirectsPrivateDelivery | bot.py:192 | Had two starts been interleaved, the first caller's "dm" file would go to the second caller, because the target is read from the slot at delivery time; bot.py as written does not interleave them |
| Bot.StartDownload | bot.py:142-207 | Busy means no job, the busy reply and an unchanged slot; otherwise the caller owns a new task for the stored link and name; the dialogue ends either way |
| Bot.OnSendTo | bot.py:134-152 | The slot is acquired as `AcquireStep` says; the reply is the busy message or the downloading message; a granted job is the slot's current task, newly live, and carries the stored link and name, the button's data as target, the caller's chat as origin and no status message (the callback update has no `message`) |
| Bot.RunJob | bot.py:154-205 | The job reports as the job effects say, with the target read from the slot owner at that time, and then clears the slot |
| Bot.OnCancel | bot.py:235-243 | Cancelling changes the slot as the cancel step says; the reply is the same for "no job" and "not the owner"; the dialogue state is kept |
| Bot.Route | bot.py:257-268 | The handler the declared table names for an update in a state: entry commands outside, one handler per state, `/cancel` inside |
| Bot.Conversation.EntryStep | bot.py:258 | `/ytmp3` moves to the link step; `/sethelp` moves to the trigger step when the gate admits the caller and otherwise stays outside; the invariant is kept |
| Bot.Conversation.LinkStep | bot.py:260 | The name step is entered exactly when the stripped link is accepted, and then with that link stored; otherwise the dialogue ends and the stored link is kept; the reply names the rejection (not http, or not a single video) or asks for the name; name and trigger are untouched |
| Bot.Conversation.NameStep | bot.py:261 | The delivery choice is entered with the chosen name stored and the validated link kept, and the two targets are offered |
| Bot.Conversation.TriggerStep | bot.py:263 | The stripped text becomes the pending trigger, the reply prompt names it and the reply step follows; link and name are untouched |
| Bot.Conversation.SaveStep | bot.py:264 | The registry gets the guarded upsert of the reply under the pending trigger and the dialogue ends; the reply is the failure message without a trigger and the saved trigger otherwise |
| Bot.Conversation.SlotStep | bot.py:262-266 | The delivery choice ends the dialogue and acquires the slot as `AcquireStep` says, with the button's target and the busy or downloading reply; `/cancel` keeps the state, changes the slot as `CancelStep` says and gives one of its two replies; a job comes only from the delivery choice: the slot's current task, newly live, with the validated link and name, the button's target, this chat as origin and no status message |
| Bot.Conversation.Deliver | bot.py:257-268 | The handler `Route` names runs with its effect on the state, the record, the registry and the slot, and its reply (which rejection, which prompt, which save message, busy or downloading, one of the two cancel replies); whatever that route's handler does not write is kept, so an update no handler takes changes nothing; the invariant is kept and a job is created only from the delivery choice: the slot's current task, newly live (so `RunJob` applies to it), with the validated link and name, the button's target, this chat as origin and no status message |

## Left out

- Telegram transport: reply texts, inline keyboards, `query.answer` and the edit of the button message are abstracted to the `Reply` values.
- The `/start` text (bot.py:97-106) only sends a fixed message and is not modelled.
- The Flask health endpoint and its thread (bot.py:20-37) are left out, and so are logging and configuration.
- yt-dlp options, cookies from the environment, ffmpeg discovery and the download itself are left out. A job's run is a parameter (`JobRun`): the fetch raised; or it produced a title and a file name but opening that file (line 193) raised; or the file was opened and the send ended in one of three ways.
- Event-loop scheduling is left out. Interleavings are modelled as explicit sequences of slot steps, not as tasks.
- A job's `finally` is a separate event (`Finished`) that a trace may or may not contain. A job cancelled before its first step never runs its `finally` in Python; in the model it simply stays among the running jobs (`live`), which counts jobs whose `finally` has not run.
- `start_download` gets the status message from `send_text` on the callback `Update`. That update has no `message`, so `send_text` swallows the error and returns None. Whether a status message exists is a parameter (`hasStatus`) of `Bot.StartDownload`, which models `start_download` for any caller; `Bot.OnSendTo`, its only caller in bot.py, passes false.
- The busy reply (line 145) and the "downloading" message (line 152) go through the same `send_text` on the callback update, so neither reaches the user. `Bot.StartDownload` still returns them as `Busy` and `Downloading`; they stand for sends that do not happen.
- A button press whose message is gone is not modelled. On the callback `Update`, `get_chat_id` (called at line 148) reads `u.effective_chat.id` (line 65); with no chat this raises AttributeError after the busy test and before any global is written, and the handler fails. In the model the chat of origin is always an integer.
- Library dispatch is simplified to the table declared at bot.py:257-268, as `Bot.Route`. The conversation is built with `per_message=True`; python-telegram-bot's `ConversationHandler.check_update` ignores every update without a callback query under that flag. Read that way, `/ytmp3` and `/sethelp` never start the conversation and the dialogue as declared is never entered. The model follows the declared table.
- Handler-group order and the top-level `/cancel` and free-text handlers (bot.py:269-272) are not composed into `Bot.Conversation.Deliver`. Both `/cancel` handlers run the same `cancel` (`Bot.OnCancel`), and the free-text handler is `Help.HelpRegistry.Answer`.
- Text.LowerAscii: case mapping is ASCII only; Python's `lower()` also maps non-ASCII letters, which only matters for the "no" sentinel on non-ASCII input.
- Turn timeouts and the conversation's per-chat keying are left out; one `Conversation` is one user's dialogue.
- `server.py` repeats the handlers of `bot.py` and is not modelled on its own.
