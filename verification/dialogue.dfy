/**
 * The dialogue of bot.py: the conversation states, the per-user record
 * `ctx.user_data` (keys "url", "filename" and "pending_cmd"), and the
 * handlers that read one message each, write into that record and return
 * the next state. The handlers that touch the job slot are in module Bot.
 */
module Dialogue {
  import opened Wrappers
  import opened Text
  import opened Help

  /** ASK_LINK, ASK_FILENAME, ASK_SENDTO, ASK_ADMIN_CMD and ASK_ADMIN_CMD + 1. */
  datatype State = AskLink | AskFilename | AskSendTo | AskAdminCmd | AskAdminReply

  /** The integer each state stands for in the program (line 50). */
  function Number(s: State): (n: nat)
    ensures n <= 4
  {
    match s
    case AskLink => 0
    case AskFilename => 1
    case AskSendTo => 2
    case AskAdminCmd => 3
    case AskAdminReply => 4
  }

  /** Distinct states stand for distinct integers, so the five states are exactly 0 to 4. */
  lemma NumberInjective(a: State, b: State)
    ensures Number(a) == Number(b) ==> a == b
  {
  }

  /** What a handler returns: a state, ConversationHandler.END, or None (the state stays as it was). */
  datatype Next = Goto(state: State) | End | Keep

  /** The messages the handlers send, with the texts abstracted to their meaning. */
  datatype Reply =
    | LinkPrompt | NotHttp | NotSingleVideo | NamePrompt | TargetPrompt(choices: seq<string>)
    | Busy | Downloading | AdminOnly | TriggerPrompt | ReplyPrompt(trigger: string)
    | SaveFailed | SaveDone(trigger: string) | CancelDone | NoJob

  /** `ctx.user_data`; a key that was never written is None. */
  class UserData {
    var url: Option<string>
    var filename: Option<string>
    var pendingCmd: Option<string>

    constructor()
      ensures url.None? && filename.None? && pendingCmd.None?
    {
      url, filename, pendingCmd := None, None, None;
    }
  }

  // ---------------------------------------------------------------------
  // The link step

  /** `is_single_video`: neither "playlist" nor "list=" occurs in the link. */
  predicate IsSingleVideo(url: string)
  {
    !(Contains(url, "playlist") || Contains(url, "list="))
  }

  /** `(update.message.text or "").strip()` */
  function LinkOf(text: Option<string>): string
  {
    Strip(text.GetOr(""))
  }

  /** The link `ask_filename` keeps: it starts with "http" and is a single video. */
  predicate LinkAccepted(url: string)
  {
    StartsWith(url, "http") && IsSingleVideo(url)
  }

  /** Whitespace around a link changes neither what is stored nor whether it is accepted. */
  lemma PaddingIgnored(pre: string, url: string, post: string)
    requires AllSpace(pre) && AllSpace(post)
    ensures LinkOf(Some(pre + url + post)) == LinkOf(Some(url))
  {
    StripPadded(pre, url, post);
  }

  /** A collection marker anywhere in the message makes the link rejected. */
  lemma CollectionMarkerRejected(pre: string, marker: string, post: string)
    requires marker == "list=" || marker == "playlist"
    ensures !LinkAccepted(LinkOf(Some(pre + marker + post)))
  {
    var s := pre + marker + post;
    assert s[|pre|..|pre| + |marker|] == marker;
    StripKeepsInner(s, marker, |pre|);
  }

  /** A bare single-video "http" link is accepted and stored exactly as sent. */
  lemma BareLinkAccepted(url: string)
    requires StartsWith(url, "http") && !IsSpace(url[|url| - 1])
    requires !Contains(url, "playlist") && !Contains(url, "list=")
    ensures LinkOf(Some(url)) == url && LinkAccepted(LinkOf(Some(url)))
  {
    assert url[0] == 'h' by {
      assert url[..4][0] == url[0];
    }
    assert !IsSpace(url[0]);
    StripUnpadded(url);
    assert LinkOf(Some(url)) == url;
  }

  method OnYtmp3() returns (next: Next, reply: Reply)
    ensures next == Goto(AskLink) && reply == LinkPrompt
  {
    next, reply := Goto(AskLink), LinkPrompt;
  }

  /** `ask_filename`: checks the link, stores it and asks for a name; a rejected link ends the dialogue. */
  method OnLink(data: UserData, text: Option<string>) returns (next: Next, reply: Reply)
    modifies data
    ensures var url := LinkOf(text);
      if !StartsWith(url, "http") then next == End && reply == NotHttp && data.url == old(data.url)
      else if !IsSingleVideo(url) then next == End && reply == NotSingleVideo && data.url == old(data.url)
      else next == Goto(AskFilename) && reply == NamePrompt && data.url == Some(url)
    ensures next == Goto(AskFilename) <==> LinkAccepted(LinkOf(text))
    ensures data.filename == old(data.filename) && data.pendingCmd == old(data.pendingCmd)
  {
    var url := LinkOf(text);
    if !StartsWith(url, "http") {
      return End, NotHttp;
    }
    if !IsSingleVideo(url) {
      return End, NotSingleVideo;
    }
    data.url := Some(url);
    next, reply := Goto(AskFilename), NamePrompt;
  }

  // ---------------------------------------------------------------------
  // The name step

  /** `(update.message.text or "").strip() or "No"`: never empty and already stripped. */
  function ChosenName(text: Option<string>): (name: string)
    ensures name != [] && Strip(name) == name
    ensures Strip(text.GetOr("")) != [] ==> name == Strip(text.GetOr(""))
    ensures Strip(text.GetOr("")) == [] ==> name == "No"
  {
    var t := Strip(text.GetOr(""));
    StripIdempotent(text.GetOr(""));
    if t == [] then
      StripUnpadded("No");
      "No"
    else t
  }

  /** `ask_sendto`: stores the name and offers the two delivery targets. */
  method OnFilename(data: UserData, text: Option<string>) returns (next: Next, reply: Reply)
    modifies data
    ensures next == Goto(AskSendTo) && reply == TargetPrompt(["dm", "group"])
    ensures data.filename == Some(ChosenName(text))
    ensures data.url == old(data.url) && data.pendingCmd == old(data.pendingCmd)
  {
    data.filename := Some(ChosenName(text));
    next, reply := Goto(AskSendTo), TargetPrompt(["dm", "group"]);
  }

  // ---------------------------------------------------------------------
  // The help sub-dialogue

  /** `sethelp`: refused (no dialogue starts) only for a member found without admin rights. */
  method OnSethelp(member: MemberLookup) returns (next: Next, reply: Reply)
    ensures MayEditHelp(member) ==> next == Goto(AskAdminCmd) && reply == TriggerPrompt
    ensures !MayEditHelp(member) ==> next == Keep && reply == AdminOnly
    ensures member.LookupRaised? ==> next == Goto(AskAdminCmd)
  {
    if MayEditHelp(member) {
      next, reply := Goto(AskAdminCmd), TriggerPrompt;
    } else {
      next, reply := Keep, AdminOnly;
    }
  }

  /** `ask_admin_cmd`: the stripped text becomes the pending trigger. */
  method OnAdminCmd(data: UserData, text: string) returns (next: Next, reply: Reply)
    modifies data
    ensures next == Goto(AskAdminReply) && reply == ReplyPrompt(Strip(text))
    ensures data.pendingCmd == Some(Strip(text))
    ensures data.url == old(data.url) && data.filename == old(data.filename)
  {
    var cmd := Strip(text);
    next, reply := Goto(AskAdminReply), ReplyPrompt(cmd);
    data.pendingCmd := Some(cmd);
  }

  /** `save_admin_cmd`: stores the stripped reply under the pending trigger, if there is a non-empty one. */
  method OnAdminReply(data: UserData, registry: HelpRegistry, text: string) returns (next: Next, reply: Reply)
    modifies registry
    ensures next == End
    ensures registry.commands == Upsert(old(registry.commands), data.pendingCmd, text)
    ensures data.pendingCmd.None? || data.pendingCmd.value == "" ==>
              reply == SaveFailed && registry.commands == old(registry.commands)
    ensures data.pendingCmd.Some? && data.pendingCmd.value != "" ==> reply == SaveDone(data.pendingCmd.value)
  {
    var saved := registry.Save(data.pendingCmd, text);
    next := End;
    reply := if saved then SaveDone(data.pendingCmd.value) else SaveFailed;
  }

  // ---------------------------------------------------------------------
  // The declared state table

  /** The state after a handler returned `next` in state `from` (END leaves the conversation). */
  function After(from: Option<State>, next: Next): Option<State>
  {
    match next
    case Goto(s) => Some(s)
    case End => None
    case Keep => from
  }

  /** The moves the handlers of the table can make; a handler returning None keeps the state. */
  predicate Declared(from: Option<State>, to: Option<State>)
  {
    to == from ||
    match from
    case None => to == Some(AskLink) || to == Some(AskAdminCmd)
    case Some(AskLink) => to == Some(AskFilename) || to.None?
    case Some(AskFilename) => to == Some(AskSendTo)
    case Some(AskSendTo) => to.None?
    case Some(AskAdminCmd) => to == Some(AskAdminReply)
    case Some(AskAdminReply) => to.None?
  }

  /** A run of the conversation from outside it, one declared move at a time. */
  predicate IsPath(states: seq<Option<State>>)
  {
    |states| >= 1 && states[0].None? &&
    forall i :: 0 <= i < |states| - 1 ==> Declared(states[i], states[i + 1])
  }

  /** The name step is reached only through the link step. */
  lemma {:induction false} NameStepFollowsLinkStep(states: seq<Option<State>>, k: nat) returns (i: nat)
    requires IsPath(states) && k < |states| && states[k] == Some(AskFilename)
    ensures i < k && states[i] == Some(AskLink)
    decreases k
  {
    assert k > 0;
    assert Declared(states[k - 1], states[k]);
    if states[k - 1] == Some(AskFilename) {
      i := NameStepFollowsLinkStep(states, k - 1);
    } else {
      i := k - 1;
    }
  }

  /** The delivery choice is reached only after the link step and then the name step. */
  lemma {:induction false} TargetStepFollowsNameStep(states: seq<Option<State>>, k: nat) returns (i: nat, j: nat)
    requires IsPath(states) && k < |states| && states[k] == Some(AskSendTo)
    ensures i < j < k && states[i] == Some(AskLink) && states[j] == Some(AskFilename)
    decreases k
  {
    assert k > 0;
    assert Declared(states[k - 1], states[k]);
    if states[k - 1] == Some(AskSendTo) {
      i, j := TargetStepFollowsNameStep(states, k - 1);
    } else {
      j := k - 1;
      i := NameStepFollowsLinkStep(states, j);
    }
  }
}
