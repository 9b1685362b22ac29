/**
 * src/PanelProvider.ts: the settings panel. One panel exists at a time
 * (`PanelProvider.currentPanel`); messages for its webview are held back in
 * a queue until the webview reports that it is ready, then flushed in
 * arrival order, and posted directly from then on.
 *
 * The delivery rule is first stated on values (`Channel`, `Send`,
 * `MarkReady`, `Run`) and proved there: nothing is dropped, duplicated or
 * reordered. The `PanelProvider` and `PanelHost` classes are the imperative
 * model of the source, and their methods are specified by those functions.
 * Calls into VS Code (`postMessage`, `executeCommand`, `dispose`) are
 * appended to log fields of the panel.
 */
module Panel {
  import opened Wrappers
  import opened Protocol

  // ---------------------------------------------------------------------
  // The buffered channel, as a value

  /** The delivery state of one panel: the ready flag, the queue, and all messages posted so far. */
  datatype Channel = Channel(ready: bool, pending: seq<ToWebview>, posted: seq<ToWebview>)

  /** The channel of a panel just created: not ready, nothing queued, nothing posted. */
  const Fresh := Channel(false, [], [])

  /** Nothing waits in the queue once the webview is ready. */
  predicate Flushed(c: Channel)
  {
    c.ready ==> c.pending == []
  }

  /** Every message handed to the channel so far, in order: those posted, then those waiting. */
  function Accepted(c: Channel): seq<ToWebview>
  {
    c.posted + c.pending
  }

  /**
   * `UpdatePropertySettings`'s delivery step: post the message when the
   * webview is ready, otherwise append it to the queue.
   */
  function Send(c: Channel, m: ToWebview): (r: Channel)
    ensures r.ready == c.ready
    ensures !c.ready ==> r.posted == c.posted && r.pending == c.pending + [m]
    ensures c.ready ==> r.pending == c.pending && r.posted == c.posted + [m]
    ensures Flushed(c) ==> Flushed(r) && Accepted(r) == Accepted(c) + [m]
  {
    if c.ready then c.(posted := c.posted + [m]) else c.(pending := c.pending + [m])
  }

  /** The `webviewReady` step: become ready and post every queued message in order. */
  function MarkReady(c: Channel): (r: Channel)
    ensures r.ready && Flushed(r)
    ensures r.posted == Accepted(c)
  {
    Channel(true, [], c.posted + c.pending)
  }

  /** What happens to one panel: an `UpdatePropertySettings` call, or the webview's `webviewReady`. */
  datatype Event = Update(message: ToWebview) | Ready

  /** The channel after a sequence of events. */
  function Run(c: Channel, events: seq<Event>): Channel
    decreases |events|
  {
    if events == [] then c
    else
      var next := match events[0] case Update(m) => Send(c, m) case Ready => MarkReady(c);
      Run(next, events[1..])
  }

  /** The messages of the `Update` events, in order. */
  function Messages(events: seq<Event>): (ms: seq<ToWebview>)
    ensures |ms| <= |events|
  {
    if events == [] then []
    else match events[0]
      case Update(m) => [m] + Messages(events[1..])
      case Ready => Messages(events[1..])
  }

  /**
   * Nothing dropped, nothing duplicated, nothing reordered: after any events,
   * the messages posted followed by those still queued are exactly the
   * messages sent, in the order of the calls.
   */
  lemma {:induction false} DeliveryPreservesOrder(c: Channel, events: seq<Event>)
    requires Flushed(c)
    ensures Flushed(Run(c, events))
    ensures Accepted(Run(c, events)) == Accepted(c) + Messages(events)
    decreases |events|
  {
    if events != [] {
      match events[0]
      case Update(m) =>
        DeliveryPreservesOrder(Send(c, m), events[1..]);
      case Ready =>
        DeliveryPreservesOrder(MarkReady(c), events[1..]);
    }
  }

  /** Once ready, a panel stays ready. */
  lemma {:induction false} ReadyIsPermanent(c: Channel, events: seq<Event>)
    requires c.ready || Ready in events
    ensures Run(c, events).ready
    decreases |events|
  {
    if events != [] {
      var next := match events[0] case Update(m) => Send(c, m) case Ready => MarkReady(c);
      if !next.ready {
        assert events == [events[0]] + events[1..];
        assert Ready in events[1..];
      }
      ReadyIsPermanent(next, events[1..]);
    }
  }

  /** After a `webviewReady`, every message sent so far has been posted, in call order. */
  lemma AllPostedOnceReady(c: Channel, events: seq<Event>)
    requires Flushed(c)
    requires c.ready || Ready in events
    ensures Run(c, events).pending == []
    ensures Run(c, events).posted == Accepted(c) + Messages(events)
  {
    DeliveryPreservesOrder(c, events);
    ReadyIsPermanent(c, events);
  }

  /** Until the webview is ready, nothing is posted. */
  lemma {:induction false} NothingPostedBeforeReady(c: Channel, events: seq<Event>)
    requires !c.ready && Ready !in events
    ensures Run(c, events).posted == c.posted
    ensures Run(c, events).pending == c.pending + Messages(events)
    decreases |events|
  {
    if events != [] {
      assert events == [events[0]] + events[1..];
      var m := events[0].message;
      NothingPostedBeforeReady(Send(c, m), events[1..]);
    }
  }

  /** A repeated `webviewReady` posts nothing more. */
  lemma RepeatedReadyPostsNothing(c: Channel)
    ensures MarkReady(MarkReady(c)) == MarkReady(c)
  {
  }

  // ---------------------------------------------------------------------
  // Disposal order

  /** `s` read from its end: the order in which `pop()` yields its elements. */
  function Reversed<T>(s: seq<T>): seq<T>
  {
    if s == [] then [] else Reversed(s[1..]) + [s[0]]
  }

  /** Draining with `pop()` visits every element once, last pushed first. */
  lemma {:induction false} PopOrderIsLifo<T>(s: seq<T>)
    ensures |Reversed(s)| == |s|
    ensures forall k :: 0 <= k < |s| ==> Reversed(s)[k] == s[|s| - 1 - k]
    ensures multiset(Reversed(s)) == multiset(s)
  {
    if s != [] {
      PopOrderIsLifo(s[1..]);
      assert s == [s[0]] + s[1..];
    }
  }

  // ---------------------------------------------------------------------
  // The imperative model

  /** A disposable the panel holds; the source registers only its `onDidDispose` listener. */
  datatype Disposable = DidDisposeListener

  /** The command the `saveSettings` message is forwarded to, with its two arguments. */
  datatype CommandCall = SaveSettingsCommand(projectProperty: string, timeProperty: string)

  /** One `PanelProvider` instance. */
  class PanelProvider {
    var properties: Properties
    var webviewReady: bool
    var pendingMessages: seq<ToWebview>
    var selectedProjectProperty: Option<string>
    var selectedTimeProperty: Option<string>
    var disposables: seq<Disposable>

    /** Messages given to `webview.postMessage`, in order. */
    var posted: seq<ToWebview>
    /** Commands run through `vscode.commands.executeCommand`, in order. */
    var commands: seq<CommandCall>
    /** Whether `_panel.dispose()` has been called. */
    var panelDisposed: bool
    /** Disposables whose `dispose()` has been called, in order. */
    var disposed: seq<Disposable>

    /** The panel's delivery state as a `Channel` value. */
    function State(): Channel
      reads this
    {
      Channel(webviewReady, pendingMessages, posted)
    }

    ghost predicate Valid()
      reads this
    {
      Flushed(State())
    }

    /** The private constructor: not ready, nothing queued, the dispose listener registered. */
    constructor (selectedProjectProperty: Option<string>, selectedTimeProperty: Option<string>)
      ensures Valid() && State() == Fresh
      ensures this.selectedProjectProperty == selectedProjectProperty
      ensures this.selectedTimeProperty == selectedTimeProperty
      ensures properties == [] && disposables == [DidDisposeListener]
      ensures commands == [] && !panelDisposed && disposed == []
    {
      properties := [];
      webviewReady := false;
      pendingMessages := [];
      this.selectedProjectProperty := selectedProjectProperty;
      this.selectedTimeProperty := selectedTimeProperty;
      disposables := [DidDisposeListener];
      posted := [];
      commands := [];
      panelDisposed := false;
      disposed := [];
    }

    /** The `webviewReady` case: set the flag, post the queue in order, clear it. */
    method OnWebviewReady()
      modifies this
      ensures Valid()
      ensures State() == MarkReady(old(State()))
      ensures unchanged(this`properties, this`selectedProjectProperty, this`selectedTimeProperty)
      ensures unchanged(this`disposables, this`commands, this`panelDisposed, this`disposed)
    {
      webviewReady := true;
      if |pendingMessages| > 0 {
        var i := 0;
        while i < |pendingMessages|
          modifies this`posted
          invariant 0 <= i <= |pendingMessages|
          invariant posted == old(posted) + pendingMessages[..i]
        {
          posted := posted + [pendingMessages[i]];
          i := i + 1;
        }
        assert pendingMessages[..i] == pendingMessages;
        pendingMessages := [];
      }
    }

    /** The webview's message handler. Logging is left out. */
    method OnDidReceiveMessage(data: FromWebview)
      requires Valid()
      modifies this
      ensures Valid()
      ensures data.WebviewReady? ==> State() == MarkReady(old(State()))
      ensures !data.WebviewReady? ==> State() == old(State())
      ensures commands == old(commands) + (if data.SaveSettings? then [SaveSettingsCommand(data.projectProperty, data.timeProperty)] else [])
      ensures unchanged(this`properties, this`selectedProjectProperty, this`selectedTimeProperty)
      ensures unchanged(this`disposables, this`panelDisposed, this`disposed)
    {
      match data
      case WebviewReady =>
        OnWebviewReady();
      case SaveSettings(projectProperty, timeProperty) =>
        commands := commands + [SaveSettingsCommand(projectProperty, timeProperty)];
      case _ =>
    }

    /**
     * `dispose()`: forget the current panel, dispose the VS Code panel, and
     * pop and dispose every registered disposable.
     */
    method Dispose(host: PanelHost)
      modifies this, host
      ensures host.currentPanel == null
      ensures panelDisposed && disposables == []
      ensures disposed == old(disposed) + Reversed(old(disposables))
      ensures State() == old(State())
      ensures unchanged(this`properties, this`selectedProjectProperty, this`selectedTimeProperty, this`commands)
    {
      host.currentPanel := null;
      panelDisposed := true;
      while |disposables| > 0
        modifies this`disposables, this`disposed
        invariant disposables == old(disposables)[..|disposables|]
        invariant disposed == old(disposed) + Reversed(old(disposables)[|disposables|..])
      {
        var n := |disposables|;
        var d := disposables[n - 1];
        disposables := disposables[..n - 1];
        disposed := disposed + [d];
        assert old(disposables)[n - 1..][1..] == old(disposables)[n..];
      }
    }
  }

  /** The static side of `PanelProvider`: the one current panel, if any. */
  class PanelHost {
    var currentPanel: PanelProvider?

    constructor ()
      ensures currentPanel == null
    {
      currentPanel := null;
    }

    /**
     * `render`: reuse the current panel, overwriting only its two
     * selections, or create one with the given selections.
     */
    method Render(selectedProjectProperty: Option<string>, selectedTimeProperty: Option<string>)
      modifies this, currentPanel
      ensures currentPanel != null
      ensures currentPanel.selectedProjectProperty == selectedProjectProperty
      ensures currentPanel.selectedTimeProperty == selectedTimeProperty
      ensures old(currentPanel) != null ==>
        && currentPanel == old(currentPanel)
        && currentPanel.State() == old(currentPanel.State())
        && unchanged(currentPanel`properties, currentPanel`disposables, currentPanel`commands)
        && unchanged(currentPanel`panelDisposed, currentPanel`disposed)
      ensures old(currentPanel) == null ==>
        && fresh(currentPanel)
        && currentPanel.State() == Fresh
        && currentPanel.properties == []
        && currentPanel.disposables == [DidDisposeListener]
        && currentPanel.commands == [] && !currentPanel.panelDisposed && currentPanel.disposed == []
      ensures old(currentPanel) != null && old(currentPanel.Valid()) ==> currentPanel.Valid()
      ensures old(currentPanel) == null ==> currentPanel.Valid()
    {
      if currentPanel != null {
        currentPanel.selectedProjectProperty := selectedProjectProperty;
        currentPanel.selectedTimeProperty := selectedTimeProperty;
      } else {
        currentPanel := new PanelProvider(selectedProjectProperty, selectedTimeProperty);
      }
    }

    /**
     * `UpdatePropertySettings`: with no current panel nothing happens;
     * otherwise the panel keeps the new properties and a message carrying
     * them and the panel's current selections is sent through `Send`.
     */
    method UpdatePropertySettings(properties: Properties)
      requires currentPanel != null ==> currentPanel.Valid()
      modifies currentPanel
      ensures currentPanel == old(currentPanel)
      ensures currentPanel != null ==>
        && currentPanel.Valid()
        && currentPanel.properties == properties
        && currentPanel.State() == Send(old(currentPanel.State()),
             Protocol.UpdatePropertySettings(properties, currentPanel.selectedProjectProperty, currentPanel.selectedTimeProperty))
        && unchanged(currentPanel`selectedProjectProperty, currentPanel`selectedTimeProperty)
        && unchanged(currentPanel`disposables, currentPanel`commands, currentPanel`panelDisposed, currentPanel`disposed)
    {
      if currentPanel == null {
        return;
      }
      var panel := currentPanel;
      panel.properties := properties;
      var message := Protocol.UpdatePropertySettings(properties, panel.selectedProjectProperty, panel.selectedTimeProperty);
      if panel.webviewReady {
        panel.posted := panel.posted + [message];
      } else {
        panel.pendingMessages := panel.pendingMessages + [message];
      }
    }
  }
}
