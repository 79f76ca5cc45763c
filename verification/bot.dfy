/**
 * The handlers of bot.py that use the job slot (`ask_sendto_callback`,
 * `start_download`, its `task`, and `cancel`), and one user's conversation
 * driven through the state table declared in `main`.
 */
module Bot {
  import opened Wrappers
  import opened Text
  import opened Naming
  import opened Help
  import opened Dialogue
  import opened Supervisor

  /** What `start_download` hands to the asyncio task it creates (`hasStatus`: whether `status_msg` is not None). */
  datatype Job = Job(id: JobId, url: string, filename: string, sendto: string, originChat: ChatId, hasStatus: bool)

  /** Line 151: `(ctx.user_data.get("filename") or "No").strip()`. */
  function JobFilename(stored: Option<string>): string
  {
    Strip(if stored.None? || stored.value == "" then "No" else stored.value)
  }

  /** The name the job uses is the one the name step stored, unchanged. */
  lemma JobFilenameKeepsChosen(text: Option<string>)
    ensures JobFilename(Some(ChosenName(text))) == ChosenName(text)
  {
  }

  /** Line 192: "dm" goes to whoever owns the slot when the job gets there, anything else to the origin chat. */
  function TargetChat(sendto: string, ownerNow: Option<UserId>, originChat: ChatId): Option<ChatId>
  {
    if sendto == "dm" then ownerNow else Some(originChat)
  }

  /** How `send_document` ended: it returned, raised an Exception, or was interrupted by `task.cancel()`. */
  datatype Send = SendOk | SendRaised(reason: string) | SendCancelled

  /**
   * How the job ran up to the send: `extract_info` raised; or it gave a title
   * and a file name but `open(out_file, "rb")` raised (line 193, e.g. no file
   * exists under the rewritten name); or the file was opened and the send
   * ended as `send` says.
   */
  datatype JobRun =
    | FetchRaised(reason: string)
    | OpenRaised(reason: string)
    | Fetched(title: Option<string>, prepared: string, send: Send)

  datatype Delivery = Delivery(chat: Option<ChatId>, file: string, name: string)
  datatype StatusEdit = Done | Failed(reason: string)
  datatype JobReport = JobReport(delivery: Option<Delivery>, status: Option<StatusEdit>)

  /**
   * Lines 183-200: what the job sends. A cancellation is not an Exception,
   * so it is not reported; every status edit needs a status message.
   */
  function JobEffects(job: Job, ownerNow: Option<UserId>, run: JobRun): JobReport
  {
    match run
    case FetchRaised(reason) =>
      JobReport(None, if job.hasStatus then Some(Failed(reason)) else None)
    case OpenRaised(reason) =>
      JobReport(None, if job.hasStatus then Some(Failed(reason)) else None)
    case Fetched(title, prepared, send) =>
      var delivery := Delivery(TargetChat(job.sendto, ownerNow, job.originChat), Mp3Name(prepared),
                               SentName(DisplayName(job.filename, title)));
      JobReport(Some(delivery), if job.hasStatus then SendStatus(send) else None)
  }

  /** The status edit after the send: a cancellation skips the `except Exception` branch. */
  function SendStatus(send: Send): Option<StatusEdit>
  {
    match send
    case SendOk => Some(Done)
    case SendRaised(reason) => Some(Failed(reason))
    case SendCancelled => None
  }

  /** What a finished job reports, in terms of how it ran. */
  lemma JobEffectsFacts(job: Job, ownerNow: Option<UserId>, run: JobRun)
    ensures var r := JobEffects(job, ownerNow, run);
      (r.status.Some? ==> job.hasStatus) &&
      (r.status == Some(Done) <==> job.hasStatus && run.Fetched? && run.send.SendOk?) &&
      (run.Fetched? && run.send.SendCancelled? ==> r.status.None?) &&
      (r.delivery.Some? <==> run.Fetched?) &&
      (run.Fetched? ==> EndsWith(r.delivery.value.name, ".mp3")) &&
      (run.Fetched? && job.filename in {"no", "No", "nO", "NO"} ==>
         r.delivery.value.name == run.title.GetOr("Audio") + ".mp3") &&
      (run.Fetched? && job.filename !in {"no", "No", "nO", "NO"} ==>
         r.delivery.value.name == job.filename + ".mp3") &&
      (job.hasStatus && (run.FetchRaised? || run.OpenRaised?) ==> r.status == Some(Failed(run.reason))) &&
      (job.hasStatus && run.Fetched? && run.send.SendRaised? ==> r.status == Some(Failed(run.send.reason))) &&
      (run.Fetched? ==> r.delivery.value.file == Mp3Name(run.prepared)) &&
      (run.Fetched? && job.sendto == "dm" ==> r.delivery.value.chat == ownerNow) &&
      (run.Fetched? && job.sendto != "dm" ==> r.delivery.value.chat == Some(job.originChat))
  {
    if run.Fetched? {
      DisplayNameChoice(job.filename, run.title);
    }
  }

  /**
   * Without anything run between its start and its delivery, a job sends a
   * "dm" file to the user who started it and any other choice to the chat it
   * was started from.
   */
  lemma DeliveryTargetAfterAcquire(s: Slot, user: UserId, chat: ChatId, sendto: string)
    requires s.task.None?
    ensures AcquireStep(s, user, chat).0
    ensures TargetChat(sendto, AcquireStep(s, user, chat).1.owner, chat) == Some(if sendto == "dm" then user else chat)
  {
  }

  /** A choice other than "dm" goes to the chat of origin whoever owns the slot by then. */
  lemma GroupTargetIgnoresOwner(sendto: string, owner1: Option<UserId>, owner2: Option<UserId>, originChat: ChatId)
    requires sendto != "dm"
    ensures TargetChat(sendto, owner1, originChat) == TargetChat(sendto, owner2, originChat) == Some(originChat)
  {
  }

  /** Answering the name step with "No" gives a job whose name is the sentinel. */
  lemma NoAnswerIsSentinel()
    ensures JobFilename(Some(ChosenName(Some("No")))) == "No" && IsNoSentinel("No")
  {
    StripUnpadded("No");
    assert ChosenName(Some("No")) == "No";
    NoSentinelSpellings("No");
  }

  /**
   * The user answered the name step with the sentinel (see
   * `NoAnswerIsSentinel`) and picked "dm": the fetched `.webm` is delivered
   * to the slot owner's private chat under the video title with `.mp3`. The
   * status shows success only for a job with a status message, which no job
   * started from the button has (see `OnSendTo` and `JobWithoutStatusIsSilent`).
   */
  lemma PrivateDeliveryUnderTitle(job: Job, user: UserId, title: string)
    requires IsNoSentinel(job.filename) && job.sendto == "dm"
    ensures JobEffects(job, Some(user), Fetched(Some(title), title + ".webm", SendOk))
        == JobReport(Some(Delivery(Some(user), title + ".mp3", title + ".mp3")),
                     if job.hasStatus then Some(Done) else None)
  {
    TitleNames(job.filename, title);
  }

  /** A job without a status message reports nothing, whether it succeeds, fails or is cancelled. */
  lemma JobWithoutStatusIsSilent(job: Job, ownerNow: Option<UserId>, run: JobRun)
    requires !job.hasStatus
    ensures JobEffects(job, ownerNow, run).status.None?
  {
  }

  /** With the "No" sentinel, both the converted file and the sent name are the title with `.mp3`. */
  lemma TitleNames(filename: string, title: string)
    requires IsNoSentinel(filename)
    ensures Mp3Name(title + ".webm") == title + ".mp3"
    ensures SentName(DisplayName(filename, Some(title))) == title + ".mp3"
  {
    Mp3NameOfStem(title);
  }

  /**
   * Had two callers both passed the busy test before either created its
   * task, the first caller's "dm" delivery would go to the second caller: the
   * target is read from the slot at delivery time. As with
   * `InterleavedClaimsBothGranted`, bot.py as written does not interleave
   * these steps.
   */
  lemma RaceRedirectsPrivateDelivery()
    ensures var s := LaunchStep(LaunchStep(ClaimStep(ClaimStep(Idle, 1, 10).1, 2, 20).1).1).1;
      0 in s.live && TargetChat("dm", s.owner, 10) == Some(2)
  {
    InterleavedClaimsBothGranted();
  }

  /**
   * `start_download` run to its end: busy means nothing changes; otherwise
   * the caller owns the slot and a job for the stored link and name is created.
   */
  method StartDownload(slot: JobSlot, data: UserData, user: UserId, chat: ChatId, sendto: string, hasStatus: bool)
    returns (next: Next, reply: Reply, job: Option<Job>)
    requires slot.Valid() && data.url.Some?
    modifies slot
    ensures slot.Valid() && (job.Some?, slot.State()) == AcquireStep(old(slot.State()), user, chat)
    ensures next == End
    ensures job.None? <==> old(slot.task).Some?
    ensures job.None? ==> reply == Busy && slot.State() == old(slot.State())
    ensures job.Some? ==> reply == Downloading && slot.task == Some(job.value.id)
                          && job.value.id in slot.live && job.value.id !in old(slot.live)
                          && slot.owner == Some(user) && slot.origin == Some(chat)
                          && job.value == Job(job.value.id, data.url.value, JobFilename(data.filename), sendto, chat, hasStatus)
  {
    next := End;
    var granted := slot.Claim(user, chat);
    if !granted {
      return next, Busy, None;
    }
    var url := data.url.value;
    var filename := JobFilename(data.filename);
    var id := slot.Launch();
    job := Some(Job(id, url, filename, sendto, chat, hasStatus));
    reply := Downloading;
  }

  /**
   * `ask_sendto_callback`: the choice is the button's data, passed on to
   * `start_download` with the callback's `Update`. That update carries no
   * message, so `send_text` ends in its `except` branch and returns None:
   * the job never has a status message.
   */
  method OnSendTo(slot: JobSlot, data: UserData, user: UserId, chat: ChatId, choice: string)
    returns (next: Next, reply: Reply, job: Option<Job>)
    requires slot.Valid() && data.url.Some?
    modifies slot
    ensures slot.Valid() && (job.Some?, slot.State()) == AcquireStep(old(slot.State()), user, chat)
    ensures next == End && reply == (if job.Some? then Downloading else Busy)
    ensures job.Some? ==> slot.task == Some(job.value.id) && job.value.id in slot.live && job.value.id !in old(slot.live)
                          && job.value == Job(job.value.id, data.url.value, JobFilename(data.filename), choice, chat, false)
  {
    next, reply, job := StartDownload(slot, data, user, chat, choice, false);
  }

  /** The job's `task`: it reports as `JobEffects` says and always clears the slot in `finally`. */
  method RunJob(slot: JobSlot, job: Job, run: JobRun) returns (report: JobReport)
    requires slot.Valid() && job.id in slot.live
    modifies slot
    ensures report == JobEffects(job, old(slot.owner), run)
    ensures slot.Valid() && slot.State() == FinishStep(old(slot.State()), job.id)
    ensures slot.task.None? && slot.owner.None? && slot.origin.None?
  {
    report := JobEffects(job, slot.owner, run);
    slot.Finish(job.id);
  }

  /** `cancel`: one reply for "no job" and "not the owner"; it returns None, so no conversation state changes. */
  method OnCancel(slot: JobSlot, user: UserId) returns (next: Next, reply: Reply)
    requires slot.Valid()
    modifies slot
    ensures slot.Valid() && (reply == CancelDone, slot.State()) == CancelStep(old(slot.State()), user)
    ensures next == Keep
    ensures reply == CancelDone || reply == NoJob
  {
    var cancelled := slot.Cancel(user);
    next := Keep;
    reply := if cancelled then CancelDone else NoJob;
  }

  // ---------------------------------------------------------------------
  // One user's conversation

  /** The updates the table reacts to: a command, a text message that is not a command, a button press. */
  datatype Update = Command(name: string) | Message(text: string) | Choice(data: string)

  datatype Handler = Ytmp3 | Sethelp | TakeLink | TakeFilename | TakeSendTo | TakeAdminCmd | TakeAdminReply | CancelJob

  /** Lines 257-268: entry points outside the conversation, one handler per state, and /cancel as fallback. */
  function Route(state: Option<State>, u: Update): Option<Handler>
  {
    match state
    case None =>
      if u == Command("ytmp3") then Some(Ytmp3)
      else if u == Command("sethelp") then Some(Sethelp)
      else None
    case Some(s) =>
      if u == Command("cancel") then Some(CancelJob)
      else match (s, u)
        case (AskLink, Message(_)) => Some(TakeLink)
        case (AskFilename, Message(_)) => Some(TakeFilename)
        case (AskSendTo, Choice(_)) => Some(TakeSendTo)
        case (AskAdminCmd, Message(_)) => Some(TakeAdminCmd)
        case (AskAdminReply, Message(_)) => Some(TakeAdminReply)
        case _ => None
  }

  class Conversation {
    var state: Option<State>
    const user: UserId
    const chat: ChatId
    const data: UserData
    const slot: JobSlot
    const registry: HelpRegistry

    /** Whatever state the dialogue is in, the fields its later steps read have been validated. */
    ghost predicate Valid()
      reads this, data, slot
    {
      slot.Valid() &&
      (state == Some(AskFilename) ==> data.url.Some? && LinkAccepted(data.url.value)) &&
      (state == Some(AskSendTo) ==> data.url.Some? && LinkAccepted(data.url.value) && data.filename.Some?)
    }

    constructor(user: UserId, chat: ChatId, slot: JobSlot, registry: HelpRegistry)
      requires slot.Valid()
      ensures Valid() && state.None? && fresh(data)
      ensures this.user == user && this.chat == chat && this.slot == slot && this.registry == registry
    {
      this.user, this.chat := user, chat;
      this.slot, this.registry := slot, registry;
      data := new UserData();
      state := None;
    }

    /** An entry command outside the conversation: /ytmp3 or /sethelp. */
    method EntryStep(h: Handler, member: MemberLookup) returns (r: Reply)
      requires Valid() && state.None? && (h.Ytmp3? || h.Sethelp?)
      modifies this
      ensures Valid() && Declared(old(state), state)
      ensures h.Ytmp3? ==> state == Some(AskLink) && r == LinkPrompt
      ensures h.Sethelp? ==> state == (if MayEditHelp(member) then Some(AskAdminCmd) else None)
                             && r == (if MayEditHelp(member) then TriggerPrompt else AdminOnly)
    {
      var next: Next;
      if h.Ytmp3? {
        next, r := OnYtmp3();
      } else {
        next, r := OnSethelp(member);
      }
      state := After(state, next);
    }

    /** The link step: only an accepted link leads on, and it is what the record then holds. */
    method LinkStep(text: string) returns (r: Reply)
      requires Valid() && state == Some(AskLink)
      modifies this, data
      ensures Valid() && Declared(old(state), state)
      ensures state == Some(AskFilename) <==> LinkAccepted(LinkOf(Some(text)))
      ensures state == Some(AskFilename) ==> data.url == Some(LinkOf(Some(text)))
      ensures state != Some(AskFilename) ==> state.None? && data.url == old(data.url)
      ensures data.filename == old(data.filename) && data.pendingCmd == old(data.pendingCmd)
      ensures var url := LinkOf(Some(text));
        r == (if !StartsWith(url, "http") then NotHttp else if !IsSingleVideo(url) then NotSingleVideo else NamePrompt)
    {
      var next: Next;
      next, r := OnLink(data, Some(text));
      state := After(state, next);
    }

    /** The name step: the record keeps the validated link and gains a name. */
    method NameStep(text: string) returns (r: Reply)
      requires Valid() && state == Some(AskFilename)
      modifies this, data
      ensures Valid() && Declared(old(state), state)
      ensures state == Some(AskSendTo) && data.filename == Some(ChosenName(Some(text)))
      ensures data.url == old(data.url) && data.pendingCmd == old(data.pendingCmd)
      ensures r == TargetPrompt(["dm", "group"])
    {
      var next: Next;
      next, r := OnFilename(data, Some(text));
      state := After(state, next);
    }

    /** The first step of the help sub-dialogue: the trigger. */
    method TriggerStep(text: string) returns (r: Reply)
      requires Valid() && state == Some(AskAdminCmd)
      modifies this, data
      ensures Valid() && Declared(old(state), state)
      ensures state == Some(AskAdminReply) && data.pendingCmd == Some(Strip(text))
      ensures data.url == old(data.url) && data.filename == old(data.filename)
      ensures r == ReplyPrompt(Strip(text))
    {
      var next: Next;
      next, r := OnAdminCmd(data, text);
      assert next == Goto(AskAdminReply);
      state := After(state, next);
      assert state == Some(AskAdminReply);
    }

    /** The second step of the help sub-dialogue: the reply is saved under the pending trigger. */
    method SaveStep(text: string) returns (r: Reply)
      requires Valid() && state == Some(AskAdminReply)
      modifies this, registry
      ensures Valid() && Declared(old(state), state)
      ensures state.None? && registry.commands == Upsert(old(registry.commands), data.pendingCmd, text)
      ensures r == (if data.pendingCmd.None? || data.pendingCmd.value == "" then SaveFailed
                    else SaveDone(data.pendingCmd.value))
    {
      var next: Next;
      next, r := OnAdminReply(data, registry, text);
      state := After(state, next);
    }

    /** A routed update whose handler works on the job slot: the delivery choice or /cancel. */
    method SlotStep(h: Handler, u: Update) returns (r: Reply, job: Option<Job>)
      requires Valid() && Route(state, u) == Some(h) && (h.TakeSendTo? || h.CancelJob?)
      modifies this, slot
      ensures Valid() && Declared(old(state), state)
      ensures h.TakeSendTo? ==> state.None? && (job.Some?, slot.State()) == AcquireStep(old(slot.State()), user, chat)
                                && (job.Some? ==> job.value.sendto == u.data)
                                && r == (if job.Some? then Downloading else Busy)
      ensures h.CancelJob? ==> state == old(state) && job.None? && (r == CancelDone || r == NoJob)
                               && (r == CancelDone, slot.State()) == CancelStep(old(slot.State()), user)
      ensures job.Some? ==> old(state) == Some(AskSendTo) && state.None?
                            && data.url == Some(job.value.url) && LinkAccepted(job.value.url)
                            && data.filename.Some?
                            && job.value == Job(job.value.id, job.value.url, JobFilename(data.filename), u.data, chat, false)
                            && slot.task == Some(job.value.id) && job.value.id in slot.live
                            && job.value.id !in old(slot.live)
    {
      var next: Next;
      if h.TakeSendTo? {
        next, r, job := OnSendTo(slot, data, user, chat, u.data);
      } else {
        next, r := OnCancel(slot, user);
        job := None;
      }
      state := After(state, next);
    }

    /**
     * Delivers one update: the handler the table names runs, with its effect
     * on the state, the record, the registry and the slot; every part no
     * handler of this route writes is kept, and an update no handler takes
     * changes nothing.
     */
    method Deliver(u: Update, member: MemberLookup)
      returns (handled: bool, reply: Option<Reply>, job: Option<Job>)
      requires Valid()
      modifies this, data, slot, registry
      ensures Valid()
      ensures handled <==> Route(old(state), u).Some?
      ensures !handled ==> state == old(state) && reply.None? && job.None?
      ensures handled ==> reply.Some? && Declared(old(state), state)
      // what each route does
      ensures Route(old(state), u) == Some(Ytmp3) ==> state == Some(AskLink) && reply == Some(LinkPrompt)
      ensures Route(old(state), u) == Some(Sethelp) ==>
                state == (if MayEditHelp(member) then Some(AskAdminCmd) else None)
                && reply == Some(if MayEditHelp(member) then TriggerPrompt else AdminOnly)
      ensures Route(old(state), u) == Some(TakeLink) ==>
                (state == Some(AskFilename) <==> LinkAccepted(LinkOf(Some(u.text)))) &&
                (state == Some(AskFilename) ==> data.url == Some(LinkOf(Some(u.text)))) &&
                (state != Some(AskFilename) ==> state.None?) &&
                reply == Some(if !StartsWith(LinkOf(Some(u.text)), "http") then NotHttp
                              else if !IsSingleVideo(LinkOf(Some(u.text))) then NotSingleVideo
                              else NamePrompt)
      ensures Route(old(state), u) == Some(TakeFilename) ==>
                state == Some(AskSendTo) && data.filename == Some(ChosenName(Some(u.text)))
                && reply == Some(TargetPrompt(["dm", "group"]))
      ensures Route(old(state), u) == Some(TakeAdminCmd) ==>
                state == Some(AskAdminReply) && data.pendingCmd == Some(Strip(u.text))
                && reply == Some(ReplyPrompt(Strip(u.text)))
      ensures Route(old(state), u) == Some(TakeAdminReply) ==>
                state.None? && registry.commands == Upsert(old(registry.commands), old(data.pendingCmd), u.text)
                && reply == Some(if old(data.pendingCmd).None? || old(data.pendingCmd).value == "" then SaveFailed
                                 else SaveDone(old(data.pendingCmd).value))
      ensures Route(old(state), u) == Some(TakeSendTo) ==>
                state.None? && (job.Some?, slot.State()) == AcquireStep(old(slot.State()), user, chat)
                && (job.Some? ==> job.value.sendto == u.data)
                && reply == Some(if job.Some? then Downloading else Busy)
      ensures Route(old(state), u) == Some(CancelJob) ==>
                state == old(state) && job.None? && (reply == Some(CancelDone) || reply == Some(NoJob))
                && (reply == Some(CancelDone), slot.State()) == CancelStep(old(slot.State()), user)
      // what each route leaves alone
      ensures Route(old(state), u) != Some(TakeLink) || state.None? ==> data.url == old(data.url)
      ensures Route(old(state), u) != Some(TakeFilename) ==> data.filename == old(data.filename)
      ensures Route(old(state), u) != Some(TakeAdminCmd) ==> data.pendingCmd == old(data.pendingCmd)
      ensures Route(old(state), u) != Some(TakeAdminReply) ==> registry.commands == old(registry.commands)
      ensures Route(old(state), u) != Some(TakeSendTo) && Route(old(state), u) != Some(CancelJob) ==>
                slot.State() == old(slot.State())
      ensures job.Some? ==> old(state) == Some(AskSendTo) && state.None?
                            && old(data.url) == Some(job.value.url) && LinkAccepted(job.value.url)
                            && old(data.filename).Some?
                            && job.value == Job(job.value.id, job.value.url, JobFilename(old(data.filename)), u.data, chat, false)
                            && slot.task == Some(job.value.id) && job.value.id in slot.live
                            && job.value.id !in old(slot.live)
    {
      var route := Route(state, u);
      if route.None? {
        return false, None, None;
      }
      var r: Reply;
      job := None;
      match route.value {
        case Ytmp3 =>
          r := EntryStep(route.value, member);
        case Sethelp =>
          r := EntryStep(route.value, member);
        case TakeLink =>
          r := LinkStep(u.text);
        case TakeFilename =>
          r := NameStep(u.text);
        case TakeAdminCmd =>
          r := TriggerStep(u.text);
        case TakeAdminReply =>
          r := SaveStep(u.text);
        case TakeSendTo =>
          r, job := SlotStep(route.value, u);
        case CancelJob =>
          r, job := SlotStep(route.value, u);
      }
      handled, reply := true, Some(r);
    }
  }
}
