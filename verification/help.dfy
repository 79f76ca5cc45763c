/**
 * The help-command registry of bot.py: HELP_COMMANDS, the admin gate of
 * `sethelp`, the write made by `save_admin_cmd` and the exact-match read
 * made by `custom_command`.
 */
module Help {
  import opened Wrappers
  import opened Text

  /**
   * What `get_member` gave for the invoker: it raised, or a member with its
   * status and `can_manage_chat` (false when the member kind has no such field).
   */
  datatype MemberLookup = LookupRaised | Member(status: string, canManageChat: bool)

  /** The gate of `sethelp`: it refuses only a member that was found and has neither right. */
  predicate MayEditHelp(m: MemberLookup)
  {
    match m
    case LookupRaised => true
    case Member(status, canManage) => canManage || status == "administrator" || status == "creator"
  }

  /** The registry after `save_admin_cmd`: a missing or empty pending trigger writes nothing. */
  function Upsert(commands: map<string, string>, pending: Option<string>, reply: string): map<string, string>
  {
    if pending.Some? && pending.value != "" then commands[pending.value := Strip(reply)] else commands
  }

  /** What `custom_command` answers to a free-text message: the entry under its stripped text, if any. */
  function Find(commands: map<string, string>, text: string): Option<string>
  {
    var key := Strip(text);
    if key in commands then Some(commands[key]) else None
  }

  /** An upsert touches no trigger but its own. */
  lemma UpsertKeepsOtherKeys(commands: map<string, string>, pending: Option<string>, reply: string, key: string)
    requires pending != Some(key)
    ensures key in Upsert(commands, pending, reply) <==> key in commands
    ensures key in commands ==> Upsert(commands, pending, reply)[key] == commands[key]
  {
  }

  /**
   * Round trip: a trigger typed at `ask_admin_cmd` (which stores it stripped)
   * and saved with a reply is then answered, with the stripped reply, to a
   * message that is exactly the trigger.
   */
  lemma SavedTriggerAnswers(commands: map<string, string>, trigger: string, reply: string)
    requires Strip(trigger) != ""
    ensures Find(Upsert(commands, Some(Strip(trigger)), reply), Strip(trigger)) == Some(Strip(reply))
  {
    StripIdempotent(trigger);
  }

  /** A sequence of saves, each with its pending trigger and reply text. */
  function SaveAll(commands: map<string, string>, saves: seq<(Option<string>, string)>): map<string, string>
    decreases |saves|
  {
    if saves == [] then commands else SaveAll(Upsert(commands, saves[0].0, saves[0].1), saves[1..])
  }

  /** An entry is unaffected by any number of saves of other triggers. */
  lemma {:induction false} EntrySurvivesOtherSaves(commands: map<string, string>, key: string,
                                                   saves: seq<(Option<string>, string)>)
    requires key in commands
    requires forall i :: 0 <= i < |saves| ==> saves[i].0 != Some(key)
    ensures key in SaveAll(commands, saves) && SaveAll(commands, saves)[key] == commands[key]
    decreases |saves|
  {
    if saves != [] {
      UpsertKeepsOtherKeys(commands, saves[0].0, saves[0].1, key);
      EntrySurvivesOtherSaves(Upsert(commands, saves[0].0, saves[0].1), key, saves[1..]);
    }
  }

  class HelpRegistry {
    var commands: map<string, string>

    constructor()
      ensures commands == map[]
    {
      commands := map[];
    }

    /** Line 231: `HELP_COMMANDS[cmd] = text.strip()`, guarded by line 228. */
    method Save(pending: Option<string>, reply: string) returns (saved: bool)
      modifies this
      ensures saved <==> pending.Some? && pending.value != ""
      ensures commands == Upsert(old(commands), pending, reply)
      ensures saved ==> commands == old(commands)[pending.value := Strip(reply)]
      ensures !saved ==> commands == old(commands)
    {
      saved := pending.Some? && pending.value != "";
      if saved {
        commands := commands[pending.value := Strip(reply)];
      }
    }

    /** Lines 246-248: the reply stored under the stripped message, or silence on a miss. */
    method Answer(text: string) returns (reply: Option<string>)
      ensures reply == Find(commands, text)
      ensures reply.Some? <==> Strip(text) in commands
      ensures reply.Some? ==> reply.value == commands[Strip(text)]
    {
      var key := Strip(text);
      if key in commands {
        reply := Some(commands[key]);
      } else {
        reply := None;
      }
    }
  }
}
