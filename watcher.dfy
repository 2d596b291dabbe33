/** The FileSystemWatcher object of src/model/fileSystemWatcher.ts: its
    client and subscription fields, the flag snapshot taken when it starts
    listening, the subscribe callback that classifies each batch, and its
    disposal.

    The four emitters become one log, `fired`, that every `fire` appends to;
    the calls the watcher makes on the Watchman client become a second log,
    `sent`. Promise resolution is not modelled: each step the promise chain
    would run later is a method of its own, called when that step happens.
 */
module FileSystemWatcher {
  import opened Classifier

  datatype Option<T> = None | Some(value: T)

  /** A handle on a connected Watchman client. */
  datatype Client = Client(id: nat)

  /** A call made on the Watchman client. */
  datatype Request = Subscribe(pattern: string) | Unsubscribe(subscription: string)

  class Watcher {
    const globPattern: string
    var ignoreCreateEvents: bool
    var ignoreChangeEvents: bool
    var ignoreDeleteEvents: bool

    var watchmanClient: Option<Client>
    var subscription: Option<string>
    /** The flags `listen` copied when it started; the callback reads only these. */
    var listening: Option<IgnoreFlags>

    /** Every event fired, in firing order, whichever emitter fired it. */
    var fired: seq<Event>
    /** Every call made on the client, in order. */
    var sent: seq<(Client, Request)>

    /** A subscription exists only for a client, and the flags are copied
        exactly when a client has been handed over. */
    ghost predicate Valid()
      reads this
    {
      && (listening.Some? <==> watchmanClient.Some?)
      && (subscription.Some? ==> watchmanClient.Some?)
    }

    /** The guard of `dispose`: both fields set, and the subscription name is
        not the empty string (which JavaScript treats as false). */
    predicate CanUnsubscribe()
      reads this
    {
      watchmanClient.Some? && subscription.Some? && subscription.value != ""
    }

    /** A watcher that has not (yet) got a client: it fires nothing and its
        disposal does nothing until OnClientResolved hands it one. A watcher
        built without a client promise, or whose promise fails or yields no
        client, stays in this state. */
    constructor (globPattern: string, ignoreCreateEvents: bool, ignoreChangeEvents: bool, ignoreDeleteEvents: bool)
      ensures Valid()
      ensures this.globPattern == globPattern
      ensures this.ignoreCreateEvents == ignoreCreateEvents
      ensures this.ignoreChangeEvents == ignoreChangeEvents
      ensures this.ignoreDeleteEvents == ignoreDeleteEvents
      ensures watchmanClient == None && subscription == None && listening == None
      ensures fired == [] && sent == []
    {
      this.globPattern := globPattern;
      this.ignoreCreateEvents := ignoreCreateEvents;
      this.ignoreChangeEvents := ignoreChangeEvents;
      this.ignoreDeleteEvents := ignoreDeleteEvents;
      watchmanClient, subscription, listening := None, None, None;
      fired, sent := [], [];
    }

    /** The client promise resolved, before any client is held. With no
        client nothing happens; with a client the watcher keeps it, copies its
        three flags as they are now and asks the client to subscribe to its
        glob pattern. */
    method OnClientResolved(client: Option<Client>)
      requires Valid() && watchmanClient.None?
      modifies this`watchmanClient, this`listening, this`sent
      ensures Valid()
      ensures client == None ==> unchanged(this)
      ensures client.Some? ==>
        && watchmanClient == client
        && listening == Some(IgnoreFlags(ignoreCreateEvents, ignoreChangeEvents, ignoreDeleteEvents))
        && sent == old(sent) + [(client.value, Subscribe(globPattern))]
    {
      if client.Some? {
        watchmanClient := client;
        Listen(client.value);
      }
    }

    /** The synchronous part of `listen`, up to the awaited subscribe; it runs
        once, with the client just stored, before any flags were copied. */
    method Listen(client: Client)
      requires watchmanClient == Some(client) && listening.None?
      modifies this`listening, this`sent
      ensures Valid()
      ensures listening == Some(IgnoreFlags(ignoreCreateEvents, ignoreChangeEvents, ignoreDeleteEvents))
      ensures sent == old(sent) + [(client, Subscribe(globPattern))]
    {
      listening := Some(IgnoreFlags(ignoreCreateEvents, ignoreChangeEvents, ignoreDeleteEvents));
      sent := sent + [(client, Subscribe(globPattern))];
    }

    /** The awaited subscribe returned the subscription name `name`; this
        happens once, after `listen` started. */
    method OnSubscribed(name: string)
      requires Valid() && listening.Some? && subscription.None?
      modifies this`subscription
      ensures Valid()
      ensures subscription == Some(name)
    {
      subscription := Some(name);
    }

    /** The subscribe callback, run once per batch: fire the classified
        events of `change` under the copied flags, appending them in order. */
    method OnChange(change: FileChange)
      requires listening.Some?
      modifies this`fired
      ensures fired == old(fired) + BatchEvents(change, listening.value)
    {
      var flags := listening.value;
      var root := change.root;
      var files := FilesOnly(change.files);
      for i := 0 to |files|
        invariant fired == old(fired) + FileEvents(root, files[..i], flags)
      {
        FireFileEvent(root, files[i], flags);
        FileEventsStep(root, files, i, flags);
      }
      assert files[..|files|] == files;
      InferRename(root, files);
    }

    /** One turn of the loop: fire the event of one file record, unless its
        kind is suppressed. */
    method FireFileEvent(root: string, file: FileRecord, flags: IgnoreFlags)
      modifies this`fired
      ensures fired == old(fired) + FileEvent(root, file, flags)
    {
      var uri := Join(root, file.name);
      if !file.present {
        if !flags.delete { fired := fired + [Deleted(uri)]; }
      } else {
        if file.size != 0 {
          if !flags.change { fired := fired + [Changed(uri)]; }
        } else {
          if !flags.create { fired := fired + [Created(uri)]; }
        }
      }
    }

    /** The rename inference after the loop: fire one Renamed from the first
        record's uri to the second's when the filtered batch is the rename
        window. */
    method InferRename(root: string, files: seq<FileRecord>)
      modifies this`fired
      ensures fired == old(fired) + RenameEvent(root, files)
    {
      if |files| == 2 && !files[0].present && files[1].present {
        var oldFile := files[0];
        var newFile := files[1];
        if oldFile.size == newFile.size {
          fired := fired + [Renamed(Join(root, oldFile.name), Join(root, newFile.name))];
        }
      }
    }

    /** `dispose`: ask the client to drop the subscription when the guard
        holds; otherwise do nothing. Since a subscription only ever exists
        with a client, the guard comes down to holding a non-empty
        subscription name. No field other than the request log changes, and
        the subscription is kept, so a second call asks again. */
    method Dispose()
      requires Valid()
      modifies this`sent
      ensures Valid()
      ensures CanUnsubscribe() <==> subscription.Some? && subscription.value != ""
      ensures sent == old(sent) + (if CanUnsubscribe() then [(watchmanClient.value, Unsubscribe(subscription.value))] else [])
    {
      if watchmanClient.Some? && subscription.Some? && subscription.value != "" {
        sent := sent + [(watchmanClient.value, Unsubscribe(subscription.value))];
      }
    }
  }

  /** Changing a flag after `listen` started has no effect: a watcher created
      with no flags set, whose create flag is set once it listens, still fires
      Created for an empty file. */
  method FlagsCopiedAtListen(root: string) returns (events: seq<Event>)
    ensures events == [Created(Join(root, "b.txt"))]
  {
    var w := new Watcher("**/*", false, false, false);
    w.OnClientResolved(Some(Client(1)));
    w.OnSubscribed("sub-1");
    w.ignoreCreateEvents := true;
    w.OnChange(FileChange(root, [FileRecord("b.txt", true, 0, "f")]));
    SingleRecordScenarios(root);
    events := w.fired;
  }

  /** Disposal requests, in four situations: a watcher that never got a
      client, one whose subscribe has not returned yet, and one disposed
      twice, which asks twice because the subscription is never cleared. */
  method DisposeScenarios() returns (inert: seq<(Client, Request)>, pending: seq<(Client, Request)>, twice: seq<(Client, Request)>)
    ensures inert == []
    ensures pending == [(Client(1), Subscribe("**/*"))]
    ensures twice == [(Client(2), Subscribe("**/*")), (Client(2), Unsubscribe("sub-2")), (Client(2), Unsubscribe("sub-2"))]
  {
    var a := new Watcher("**/*", false, false, false);
    a.Dispose();
    inert := a.sent;

    var b := new Watcher("**/*", false, false, false);
    b.OnClientResolved(Some(Client(1)));
    b.Dispose();
    pending := b.sent;

    var c := new Watcher("**/*", false, false, false);
    c.OnClientResolved(Some(Client(2)));
    c.OnSubscribed("sub-2");
    c.Dispose();
    c.Dispose();
    twice := c.sent;
  }
}
