/**
 Start-up wiring of the bot (src/index.ts): the command map built from the
 files of the commands directory, the event-handler list built from the
 events directory, and the dependencies each event handler is given.
 */
module Registry {
  import opened Wrappers
  import opened Strings

  /** A file of the commands directory and the `name`/`description` it exports. */
  datatype CommandModule = CommandModule(fileName: string, name: string, description: string)

  /** The command map: exported `name` to module. */
  type Commands = map<string, CommandModule>

  /** Only TypeScript or JavaScript files are loaded. */
  predicate IsScript(fileName: string)
  {
    EndsWith(fileName, ".ts") || EndsWith(fileName, ".js")
  }

  /** Some loaded file at index `i` registers under `name`. */
  predicate Registers(files: seq<CommandModule>, i: int, name: string)
  {
    0 <= i < |files| && IsScript(files[i].fileName) && files[i].name == name
  }

  /** `commands.set(cmd.name, cmd)` for every script, in directory order. */
  function LoadCommands(files: seq<CommandModule>): (r: Commands)
    ensures forall k :: k in r ==> IsScript(r[k].fileName) && r[k].name == k
  {
    if |files| == 0 then map[]
    else
      var prev := LoadCommands(files[..|files| - 1]);
      var f := files[|files| - 1];
      if IsScript(f.fileName) then prev[f.name := f] else prev
  }

  /** Every name some loaded script exports is registered, nothing else is,
      and a name exported twice maps to the LAST module exporting it. */
  lemma LoadCommandsLastWins(files: seq<CommandModule>)
    ensures forall k :: k in LoadCommands(files) <==> exists i :: Registers(files, i, k)
    ensures forall k :: k in LoadCommands(files) ==>
      exists i :: Registers(files, i, k) && LoadCommands(files)[k] == files[i]
        && forall j :: i < j < |files| ==> !Registers(files, j, k)
  {
    forall k
      ensures k in LoadCommands(files) <==> exists i :: Registers(files, i, k)
      ensures k in LoadCommands(files) ==>
        exists i :: Registers(files, i, k) && LoadCommands(files)[k] == files[i]
          && forall j :: i < j < |files| ==> !Registers(files, j, k)
    {
      LastWinsAt(files, k);
    }
  }

  /** The same fact for one name `k`: `files[i]` is its last registration. */
  predicate LastRegistration(files: seq<CommandModule>, i: int, k: string)
  {
    Registers(files, i, k) && forall j :: i < j < |files| ==> !Registers(files, j, k)
  }

  lemma {:induction false} LastWinsAt(files: seq<CommandModule>, k: string)
    ensures k in LoadCommands(files) <==> exists i :: Registers(files, i, k)
    ensures k in LoadCommands(files) ==>
      exists i :: LastRegistration(files, i, k) && LoadCommands(files)[k] == files[i]
    decreases |files|
  {
    if |files| > 0 {
      var n := |files| - 1;
      var init := files[..n];
      var f := files[n];
      var r := LoadCommands(files);
      assert r == if IsScript(f.fileName) then LoadCommands(init)[f.name := f] else LoadCommands(init);
      LastWinsAt(init, k);
      if exists i :: Registers(files, i, k) {
        var i :| Registers(files, i, k);
        if i < n {
          assert Registers(init, i, k);
        }
      }
      if k in r {
        if IsScript(f.fileName) && k == f.name {
          assert LastRegistration(files, n, k);
        } else {
          var i :| LastRegistration(init, i, k) && LoadCommands(init)[k] == init[i];
          assert Registers(files, i, k);
          forall j | i < j < |files|
            ensures !Registers(files, j, k)
          {
            if j < n {
              assert !Registers(init, j, k);
            }
          }
          assert LastRegistration(files, i, k);
        }
      }
    }
  }

  /** `commands.get(cmdName.toLowerCase())`. */
  function Lookup(commands: Commands, token: string): Option<CommandModule>
  {
    var key := ToLower(token);
    if key in commands then Some(commands[key]) else None
  }

  /** Lookup ignores the case of the typed token: "!ASK" and "!ask" reach the same command. */
  lemma LookupIgnoresCase(commands: Commands, a: string, b: string)
    requires ToLower(a) == ToLower(b)
    ensures Lookup(commands, a) == Lookup(commands, b)
  {
  }

  /** Names are registered as exported, not lowered, so a command whose name
      holds an upper-case letter is never reached by any typed token. */
  lemma UpperCaseNameUnreachable(commands: Commands, name: string, token: string)
    requires name in commands && HasUpper(name)
    ensures Lookup(commands, token) != Some(commands[name]) || ToLower(token) != name
    ensures ToLower(token) != name
  {
    ToLowerHasNoUpper(token);
  }

  // ---------------------------------------------------------------------
  // event handlers
  // ---------------------------------------------------------------------

  /** A file of the events directory: its exported `eventName` (absent or
      empty counts as falsy) and whether its `handler` export is a function. */
  datatype EventModule = EventModule(fileName: string, eventName: Option<string>, handlerIsFunction: bool)

  /** A loaded event module is a script with a truthy `eventName` and a function `handler`. */
  predicate Keeps(m: EventModule)
  {
    IsScript(m.fileName) && m.eventName.Some? && m.eventName.value != "" && m.handlerIsFunction
  }

  /** The event-handler list, in directory order. */
  function LoadEvents(files: seq<EventModule>): (r: seq<EventModule>)
    ensures |r| <= |files|
    ensures forall m :: m in r <==> m in files && Keeps(m)
  {
    if |files| == 0 then []
    else (if Keeps(files[0]) then [files[0]] else []) + LoadEvents(files[1..])
  }

  /** What a handler factory is given besides the socket and the logger. */
  datatype Deps =
    | SaveCredsAndStartBot
    | CommandMap(commands: Commands)
    | SocketAndLoggerOnly

  /** The dependency routing applied to each loaded handler when the bot starts. */
  function Route(eventName: string, commands: Commands): Deps
  {
    if eventName == "connection.update" then SaveCredsAndStartBot
    else if eventName == "messages.upsert" then CommandMap(commands)
    else SocketAndLoggerOnly
  }

  /** `sock.ev.on(eventName, handler(sock, logger, ...deps))` for every loaded module. */
  datatype Subscription = Subscription(eventName: string, deps: Deps)

  function Subscribe(handlers: seq<EventModule>, commands: Commands): (r: seq<Subscription>)
    requires forall i :: 0 <= i < |handlers| ==> handlers[i].eventName.Some?
    ensures |r| == |handlers|
    ensures forall i :: 0 <= i < |r| ==> r[i].eventName == handlers[i].eventName.value
    ensures forall i :: 0 <= i < |r| ==>
      && (r[i].deps.SaveCredsAndStartBot? <==> r[i].eventName == "connection.update")
      && (r[i].deps.CommandMap? <==> r[i].eventName == "messages.upsert")
      && (r[i].deps.CommandMap? ==> r[i].deps.commands == commands)
  {
    if |handlers| == 0 then []
    else
      var name := handlers[0].eventName.value;
      [Subscription(name, Route(name, commands))] + Subscribe(handlers[1..], commands)
  }
}
