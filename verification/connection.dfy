/**
 The `connection.update` handler (src/events/connection.update.ts): pair
 an unregistered device, restart after a disconnection unless the device
 was logged out, and greet the bot's own chat when the connection opens.
 The pairing request, the restart and the clock are reported rather than
 performed.
 */
module Connection {
  import opened Wrappers
  import opened Effects
  import Strings

  /** `DisconnectReason.loggedOut` in the WhatsApp library. */
  const LoggedOut := 401

  /** The status a disconnection error carries when it is not an HTTP
      error of its own (`new Boom(error)` gives 500). */
  const DefaultStatus := 500

  /** The restart waits this many milliseconds. */
  const RestartDelayMs: nat := 3000

  datatype ConnectionState = Close | Open

  /** The fields of the update the handler reads; `disconnectStatus` is the
      status carried by `lastDisconnect.error`, if it carries one. */
  datatype Update = Update(connection: Option<ConnectionState>, disconnectStatus: Option<int>)

  /** `sock.user`: the bot's own identifiers, when known. */
  datatype Me = Me(id: Option<string>, jid: Option<string>)

  /** What one update leads to: the number a pairing code is requested for,
      the delay before a restart, the messages sent and the lines logged. */
  datatype Reaction = Reaction(pairingFor: Option<string>, restartAfterMs: Option<nat>,
                               sends: seq<Action>, logs: seq<LogLine>)

  const Idle := Reaction(None, None, [], [])

  /** `new Boom(lastDisconnect?.error)?.output?.statusCode`. */
  function ReasonCode(u: Update): int
  {
    if u.disconnectStatus.Some? then u.disconnectStatus.value else DefaultStatus
  }

  /** Whether `sock.user?.id` is truthy. */
  predicate HasId(me: Option<Me>)
  {
    me.Some? && me.value.id.Some? && me.value.id.value != ""
  }

  /** Whether `sock.user?.jid` is truthy. */
  predicate HasJid(me: Option<Me>)
  {
    me.Some? && me.value.jid.Some? && me.value.jid.value != ""
  }

  /** `sock.user?.id || sock.user?.jid`: the first truthy of the two. */
  function SelfId(me: Option<Me>): (r: Option<string>)
    ensures r.Some? ==> r.value != ""
    ensures HasId(me) ==> r == me.value.id
    ensures !HasId(me) && HasJid(me) ==> r == me.value.jid
    ensures r.None? <==> !HasId(me) && !HasJid(me)
  {
    if HasId(me) then me.value.id
    else if HasJid(me) then me.value.jid
    else None
  }

  function BoolText(b: bool): string
  {
    if b then "true" else "false"
  }

  const GreetingOpening := "*Thank you for Using Nexos Bot!* \n\n - *Official Discord Server:* https://discord.com/invite/A3euTAVqHv \n - *Server Time:* "
  const GreetingClosing := " \n\n We \U{2764}\U{FE0F} contributions!"

  /** The self-DM; `serverTime` is `new Date().toLocaleString()`. */
  function Greeting(serverTime: string): string
  {
    GreetingOpening + serverTime + GreetingClosing
  }

  const LoggedOutLine := LogLine(Error, "Logged out. Please delete auth_info and re-authenticate.")
  const ConnectedLine := LogLine(Info, "Connected to WhatsApp")
  const NoSelfIdLine := LogLine(Warn, "Could not determine bot's own WhatsApp ID for self-DM.")
  const SendFailedLine := LogLine(Error, "Failed to send self-DM:")

  /** The "close" branch: restart after the delay unless logged out. */
  function OnClose(u: Update): (r: Reaction)
    ensures r.pairingFor.None? && r.sends == []
    ensures r.restartAfterMs.Some? <==> ReasonCode(u) != LoggedOut
    ensures r.restartAfterMs.Some? ==> r.restartAfterMs.value == RestartDelayMs
    ensures ReasonCode(u) == LoggedOut ==> LoggedOutLine in r.logs
  {
    var reasonCode := ReasonCode(u);
    var shouldReconnect := reasonCode != LoggedOut;
    var warn := LogLine(Warn, "Connection closed. Code: " + Strings.IntToString(reasonCode)
      + ". Reconnecting? " + BoolText(shouldReconnect));
    if shouldReconnect then Reaction(None, Some(RestartDelayMs), [], [warn])
    else Reaction(None, None, [], [warn, LoggedOutLine])
  }

  /** The "open" branch: one self-DM when the bot's own id is known; a
      rejected send is caught and logged. */
  function OnOpen(me: Option<Me>, serverTime: string, sendFails: bool): (r: Reaction)
    ensures r.pairingFor.None? && r.restartAfterMs.None?
    ensures SelfId(me).Some? ==> r.sends == [Send(SelfId(me).value, Text(Greeting(serverTime), []), false)]
    ensures SelfId(me).None? ==> r.sends == [] && NoSelfIdLine in r.logs
    ensures SendFailedLine in r.logs <==> SelfId(me).Some? && sendFails
  {
    match SelfId(me)
    case None => Reaction(None, None, [], [ConnectedLine, NoSelfIdLine])
    case Some(selfId) =>
      var sends := [Send(selfId, Text(Greeting(serverTime), []), false)];
      if sendFails then Reaction(None, None, sends, [ConnectedLine, SendFailedLine])
      else Reaction(None, None, sends, [ConnectedLine])
  }

  /** `handler(sock, logger, saveCreds, startBot)(update)`: `registered` is
      `sock.authState.creds.registered`, `botNumber` the configured
      `bot_number`, and `sendFails` whether the self-DM's send rejects. */
  function Handle(registered: bool, botNumber: Option<string>, u: Update, me: Option<Me>,
                  serverTime: string, sendFails: bool): (r: Reaction)
    ensures !registered && (botNumber.None? || botNumber.value == "") ==> r == Idle
    ensures !registered && botNumber.Some? && botNumber.value != "" ==> r == Reaction(botNumber, None, [], [])
    ensures r.pairingFor.Some? <==> !registered && botNumber.Some? && botNumber.value != ""
    ensures r.restartAfterMs.Some? <==> registered && u.connection == Some(Close) && ReasonCode(u) != LoggedOut
    ensures r.restartAfterMs.Some? ==> r.restartAfterMs.value == RestartDelayMs
    ensures registered && u.connection == Some(Close) && ReasonCode(u) == LoggedOut ==> LoggedOutLine in r.logs
    ensures |r.sends| > 0 ==> registered && u.connection == Some(Open)
    ensures registered && u.connection == Some(Open) ==> r == OnOpen(me, serverTime, sendFails)
    ensures registered && u.connection.None? ==> r == Idle
  {
    if !registered then
      if botNumber.None? || botNumber.value == "" then Idle
      else Reaction(botNumber, None, [], [])
    else
      match u.connection
      case None => Idle
      case Some(Close) => OnClose(u)
      case Some(Open) => OnOpen(me, serverTime, sendFails)
  }

  /** An unregistered device only ever asks for a pairing code, whatever
      the update says. */
  lemma UnregisteredIgnoresUpdate(botNumber: Option<string>, u: Update, u': Update, me: Option<Me>, me': Option<Me>,
                                  serverTime: string, serverTime': string, fails: bool, fails': bool)
    ensures Handle(false, botNumber, u, me, serverTime, fails) == Handle(false, botNumber, u', me', serverTime', fails')
  {
  }

  /** At most one message goes out per update, and a failed send changes
      only the log. */
  lemma {:induction false} AtMostOneSelfMessage(registered: bool, botNumber: Option<string>, u: Update, me: Option<Me>, serverTime: string)
    ensures CountSends(Handle(registered, botNumber, u, me, serverTime, false).sends) <= 1
    ensures Handle(registered, botNumber, u, me, serverTime, true).sends
         == Handle(registered, botNumber, u, me, serverTime, false).sends
    ensures Handle(registered, botNumber, u, me, serverTime, true).restartAfterMs
         == Handle(registered, botNumber, u, me, serverTime, false).restartAfterMs
  {
    var ok := Handle(registered, botNumber, u, me, serverTime, false);
    var failed := Handle(registered, botNumber, u, me, serverTime, true);
    if registered && u.connection == Some(Open) && SelfId(me).Some? {
      var greeting := Send(SelfId(me).value, Text(Greeting(serverTime), []), false);
      assert ok.sends == [greeting] && failed.sends == [greeting];
      assert CountSends([greeting]) == 1;
    } else {
      assert ok.sends == [] && failed.sends == [];
    }
  }

  /** A disconnection without a status of its own counts as a server error
      and is retried. */
  lemma UnknownReasonRestarts(botNumber: Option<string>, me: Option<Me>, serverTime: string, fails: bool)
    ensures Handle(true, botNumber, Update(Some(Close), None), me, serverTime, fails).restartAfterMs == Some(RestartDelayMs)
  {
  }
}
