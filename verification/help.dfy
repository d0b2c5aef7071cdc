/**
 The `help` command (src/commands/help.ts): one of three fixed help texts,
 chosen by who asks.
 */
module Help {
  import opened Wrappers
  import opened Effects

  /** The full list, for the bot's author. */
  const FullHelp :=
    "Available commands:\n"
    + "> > *hi*     - Say hello\n"
    + "> > *time*   - Show current time\n"
    + "> > *image*  - Send an image\n"
    + "> > *poll*   - Create a poll\n"
    + "> > *ping*   - Check bot response time\n"
    + "> > *groups* - List all groups you are in\n"
    + "> > *ask*    - Posez une question au chatbot ou naviguez sur le web\n"

  /** The short list for private chats. */
  const InboxHelp :=
    "\nAvailable commands:\n"
    + "> > *hi*     - Say hello\n"
    + "> > *ask*    - Posez une question au chatbot ou naviguez sur le web\n"

  /** The community commands, for the target group. */
  const GroupHelp :=
    "\ncommands GNDC :\n"
    + "> > *hi*     - salutation\n"
    + "> > *ask*    - demander une information\n"
    + "> > *news*   - 5 dernieres publications \n"
    + "> > *forums* - consultez les questions sur la plateformes\n"
    + "> > *events* - la liste des prochaines évènement\n"
    + "> > *leaderboard* - Top 5 utilisateurs GNDC\n"

  /** `execute(sock, from, args)`: only `from` is read, so the dispatcher
      passing the message object where `args` is declared changes nothing.
      The group check comes first, then the author check. */
  function Execute(groupTarget: Option<string>, authorJid: Option<string>, from: string): (r: Action)
    ensures r.Send? && r.to == from && !r.quoted
    ensures r.payload == Text(GroupHelp, []) <==> groupTarget == Some(from)
    ensures r.payload == Text(FullHelp, []) <==> groupTarget != Some(from) && authorJid == Some(from)
    ensures r.payload == Text(InboxHelp, []) <==> groupTarget != Some(from) && authorJid != Some(from)
  {
    TextsDiffer();
    if groupTarget == Some(from) then Send(from, Text(GroupHelp, []), false)
    else if authorJid == Some(from) then Send(from, Text(FullHelp, []), false)
    else Send(from, Text(InboxHelp, []), false)
  }

  /** The three texts are pairwise different, so the reply tells who was recognised. */
  lemma TextsDiffer()
    ensures FullHelp != InboxHelp && FullHelp != GroupHelp && InboxHelp != GroupHelp
  {
    assert FullHelp[0] == 'A' && InboxHelp[0] == '\n' && GroupHelp[0] == '\n';
    assert InboxHelp[1] == 'A' && GroupHelp[1] == 'c';
  }

  /** When the author's chat is also the target group, the group text wins. */
  lemma GroupBeforeAuthor(jid: string)
    ensures Execute(Some(jid), Some(jid), jid).payload == Text(GroupHelp, [])
  {
  }
}
