/** What the bot asks the WhatsApp socket to do: the observable output of
    every command, job and event handler in the model. */
module Effects {
  import opened Wrappers

  /** The key of a message the socket has sent (`msg.key`). */
  datatype MessageKey = MessageKey(remoteJid: string, id: string, fromMe: bool)

  /** A sent message as `sendMessage` resolves it; the reveal job pins and
      unpins it through its key. */
  datatype SentMessage = SentMessage(key: MessageKey)

  /** The content of one `sendMessage` call. */
  datatype Payload =
    | Text(text: string, mentions: seq<string>)
    | Poll(name: string, values: seq<string>, selectableCount: Option<nat>, toAnnouncementGroup: Option<bool>)
    | Image(url: Option<string>, caption: string)
      /** `{ pin: key, type, time }`: type 1 pins for `time` seconds, type 0
          unpins; the key is absent when the record read back has none. */
    | Pin(key: Option<MessageKey>, pinType: nat, time: Option<nat>)

  datatype Action =
      /** `sendMessage(to, payload)`, quoting the triggering message when `quoted`. */
    | Send(to: string, payload: Payload, quoted: bool)
    | PresenceSubscribe(to: string)
      /** `sendPresenceUpdate(state, to)`: "composing" or "paused". */
    | PresenceUpdate(state: string, to: string)

  /** How many `sendMessage` calls a run of actions performs. */
  function CountSends(actions: seq<Action>): nat
  {
    if |actions| == 0 then 0
    else (if actions[0].Send? then 1 else 0) + CountSends(actions[1..])
  }

  lemma {:induction false} CountSendsAppend(a: seq<Action>, b: seq<Action>)
    ensures CountSends(a + b) == CountSends(a) + CountSends(b)
  {
    if |a| > 0 {
      assert (a + b)[0] == a[0];
      assert (a + b)[1..] == a[1..] + b;
      CountSendsAppend(a[1..], b);
    } else {
      assert a + b == b;
    }
  }

  /** How a command's `execute` promise settles: normally, or by throwing
      the given error (as `${err}` renders it). */
  datatype Outcome = Completed | Threw(error: string)

  /** The log lines handlers write through pino. */
  datatype LogLevel = Info | Warn | Error
  datatype LogLine = LogLine(level: LogLevel, text: string)
}
