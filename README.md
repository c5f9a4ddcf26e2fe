# Calva (legacy) extension entry point, modelled in Dafny

This project models `calva/extension.ts` of the legacy Calva extension for
VS Code, which brings Clojure REPL support to the editor. That file is the
extension's entry point: it wires the editor host to the rest of the
extension. It covers four things:

- **`activate`.** It installs the analytics sink and logs the start. When
  the successor extension (`betterthantomorrow.calva`) is installed, it
  shows a conflict error and returns `false`. Otherwise it:
  - shows the legacy notice, unless the workspace flag `dontNag` is set;
  - announces itself on the output channel and refreshes the status bar;
  - pushes 22 command registrations onto the context's subscriptions, then
    three language providers, four event listeners and a disposer;
  - registers the `jar` content provider, sets the `calva:activated`
    context key and greets;
  - auto-connects when configured, and logs the finish.
- **The save handler.** It ignores documents that are not Clojure.
  Running the namespace's tests takes precedence over loading the file.
  Linting is decided on its own and happens after either. Each middleware
  call is followed by its own analytics event.
- **The open handler.** It lints a Clojure document when linting is on,
  and logs nothing.
- **The active-editor listener.** It refreshes the status bar, then moves
  the terminal REPL's namespace when `syncReplNamespaceToCurrentFile` is on.

How it is modelled, module by module:

- **`Editor`** (`editor.dfy`) holds the values the handlers exchange:
  - documents and the configuration snapshot;
  - the `Effect` datatype, one constructor per collaborator call;
  - the analytics projection `Analytics` of a trace, and the ordering
    predicate `Precedes`.
- **`Handlers`** (`handlers.dfy`) models the three handlers as pure
  functions. Each takes the document and the configuration read when the
  event arrives, and returns the ordered sequence of calls it makes.
- **`Activation`** (`activation.dfy`) models `activate` as an imperative
  method over two classes:
  - `ExtensionContext` holds its `subscriptions` sequence, which `Push`
    appends to, and the workspace flag `dontNag`;
  - `Host` holds whether the analytics sink is installed and the trace of
    calls made so far. `Call` refuses analytics calls before the sink is
    installed.

  The method is proved against the functions `ActivationTrace` and
  `ActivationSubscriptions`. The lemmas beside them cover three further
  points:
  - what those subscriptions do when the host later delivers an editor
    event (`Deliver`);
  - what they do when the host disposes them (`Teardown`);
  - what the trace contains.

## Model

| member | source | states |
|---|---|---|
| Handlers.TestOrLoadOnSave | calva/extension.ts:38-46 | the namespace tests run exactly when `test` is set; the file is loaded exactly when `test` is unset and `evaluate` is set; each call is paired with its own analytics event; nothing is linted |
| Handlers.LintOnSave | calva/extension.ts:47-50 | the document is linted exactly when `lint` is set, paired with the `OnSaveLint` event; no test run and no load |
| Handlers.OnDidSave | calva/extension.ts:27-51 | a non-Clojure document causes no call. For a Clojure document, each of the test run, file load and lint happens once or not at all as the settings say, and tests exclude loading. Each analytics event is logged exactly as often as its middleware call. No other call is made |
| Handlers.SaveLintsLast | calva/extension.ts:38-50 | on save, the lint call comes after the test run and after the file load |
| Handlers.SaveLogsEachCall | calva/extension.ts:38-50 | on save, every middleware call is immediately followed by the analytics event of its branch |
| Handlers.OnDidOpen | calva/extension.ts:53-61 | an opened document is linted exactly when it is a Clojure document and linting is on; nothing else happens and at most one call is made |
| Handlers.OnActiveEditorChanged | calva/extension.ts:131-136 | the status bar is refreshed first and exactly once; the REPL namespace is set, at most once, exactly when `syncReplNamespaceToCurrentFile` is on; nothing else happens |
| Activation.ExtensionContext.Push | calva/extension.ts:94 | a push appends one disposable to the end of the subscriptions |
| Activation.LogStart | calva/extension.ts:65-67 | the analytics sink is installed before it is used; the `/start` path and the `LifeCycle/Started` event are logged, in that order |
| Activation.ShowLegacyNoticeUnlessSilenced | calva/extension.ts:75-81 | the legacy notice is shown exactly when the workspace's `dontNag` flag is unset |
| Activation.RegisterCommands | calva/extension.ts:94-115 | the 22 commands are appended to the subscriptions in source order, one subscription each |
| Activation.RegisterProviders | calva/extension.ts:118-122 | completion, hover and definition providers are appended in that order; the definition provider is the WSL variant exactly when `useWSL` is set; the `jar` content provider is registered but not appended |
| Activation.SubscribeListeners | calva/extension.ts:125-141 | the open, save, active-editor and change listeners and then the disposer are appended |
| Activation.Setup | calva/extension.ts:84-149 | the output line, status refresh, `jar` provider, context key and greeting are called in that order, and the subscriptions grow by exactly `ActivationSubscriptions(cfg)`; the sink's installation is unchanged |
| Activation.ConnectAndLogFinish | calva/extension.ts:152-167 | with `autoConnect`, the connecting line is written and then auto-connect is called; without it, only the disabled line is written. Then `/activated` and `LifeCycle/Activated` are logged |
| Activation.Activate | calva/extension.ts:64-168 | the whole activation. The sink is installed. The trace is exactly `ActivationTrace`. The subscriptions are unchanged on the early exit and grow by exactly `ActivationSubscriptions` otherwise. The result is `false` exactly on the early exit |
| Activation.EarlyExitTrace | calva/extension.ts:64-73 | with the successor extension present, the only analytics are the start logs, which come first; the status bar is not refreshed and auto-connect is not called |
| Activation.CompletedTrace | calva/extension.ts:64-168 | a completed activation logs exactly the start logs and then the finish logs, and no other analytics |
| Activation.CompletedTraceFrame | calva/extension.ts:64-168 | a completed activation's calls begin with the start logs and end with the finish logs |
| Activation.AutoConnectIffConfigured | calva/extension.ts:152-157 | auto-connect is called once when activation completes with `autoConnect` set, and never otherwise |
| Activation.ActivationNeverDisconnects | calva/extension.ts:64-168 | activation itself never disconnects the REPL |
| Activation.CommandIdsDistinct | calva/extension.ts:94-115 | the 22 registered command ids are pairwise different |
| Activation.CommandsRegisteredOnce | calva/extension.ts:94-115 | each of the 22 command ids is registered exactly once, and no other command is registered |
| Activation.DefinitionProviderChoice | calva/extension.ts:120 | exactly one definition provider is subscribed: the WSL variant when `useWSL` is set, the plain one otherwise |
| Activation.ProvidersAndListenersOnce | calva/extension.ts:118-141 | the completion and hover providers, each of the four listeners and the disposer are each subscribed exactly once |
| Handlers.ListenersLogOnlyOnSave | calva/extension.ts:125-137 | of the four listener callbacks only the save listener logs analytics, and none disconnects |
| Handlers.ListenersRouteByKind | calva/extension.ts:125-137 | the status bar is touched exactly on a change of active editor; a document change is handed to the annotations with that document and nothing else happens; no other event reaches the annotations |
| Handlers.OpenQuiet | calva/extension.ts:53-61 | opening a document never logs, disconnects, annotates or touches the status bar |
| Handlers.SaveQuiet | calva/extension.ts:27-51 | saving a document never disconnects, annotates or touches the status bar |
| Handlers.ActiveEditorQuiet | calva/extension.ts:131-136 | a change of active editor never logs, disconnects or annotates |
| Handlers.SaveEventsCategory | calva/extension.ts:41-49 | every analytics event the save handler logs is in the "Calva" category |
| Activation.DisposerOnly | calva/extension.ts:138-141 | only the disposer has a disposal effect; it disconnects first, once, and disposes the output channel last |
| Activation.CompletedTraceLogged | calva/extension.ts:66-167 | a completed activation logs "/start", LifeCycle/Started, "/activated" and LifeCycle/Activated, in that order, and nothing else |
| Activation.ConnectLines | calva/extension.ts:152-157 | the auto-connect step writes the connecting line exactly when `autoConnect` is set, and the disabled line exactly when it is not |
| Activation.ChannelLinesWritten | calva/extension.ts:85-157 | a completed activation writes the activated line, and the connecting line exactly when `autoConnect` is set and the disabled line exactly when it is not |
| Activation.ActivatedLineFirst | calva/extension.ts:85-157 | a completed activation writes the activated line before the connecting line and before the disabled line |
| Activation.ChannelLineTexts | calva/extension.ts:85-156 | the activated line reads "Calva activated."; the auto-connect line reads "Autoconnecting... (This can be disabled in Settings)" when `autoConnect` is set and "Autoconnect disabled in Settings." otherwise |
| Activation.DeliverAfterActivation | calva/extension.ts:125-137 | after activation, each editor event reaches exactly one handler, once. That handler reads the configuration current at delivery, whatever the configuration was at activation |
| Activation.TeardownAfterActivation | calva/extension.ts:138-141 | disposing the subscriptions disconnects the REPL and then disposes the output channel, once each, and makes no other collaborator call |

## Left out

- VS Code API objects are reduced to what the model needs. Documents are reduced to their file name and language id. The change listener's event, a document change with its content changes, is reduced to the changed document in `DocumentChanged(doc)` and `AnnotateChange(doc)`. Each call into the editor, the connector, the middleware, the status bar, the terminal, the annotations, the output channel or the analytics sink is recorded as one `Effect` in a trace. What those collaborators do internally is not modelled.
- The configuration (`state.config()`) is a parameter, `Config`. It is a snapshot read at the moment of the call, so a handler sees the settings current when its event arrives.
- Whether the successor extension is installed is a parameter, `newCalvaInstalled`. So is the workspace's `dontNag` flag. The model does not query the host for either.
- The internals of the completion, hover, definition and `jar` content providers (lines 118-122) are not modelled. Only which provider is registered is recorded, and whether it is a subscription.
- The analytics sink's own construction and behaviour (lines 23 and 65) is not modelled. Only its installation and the paths and events logged are recorded.
- The activation greetings (lines 25 and 149) are recorded as one `Greet` call carrying the `lint` setting. Their content is not modelled.
- The callback that stores the answer to the legacy notice in `dontNag` (lines 78-80) runs after the user responds, so it is not modelled. The notice's literal message texts are not modelled either.
- The literal text of the conflict error is not modelled (line 72).
- `getUrl` (lines 160-165) is a nested function that is never called. It is not modelled.
- `deactivate` (lines 170-172) only logs a `LifeCycle` event named "Dectivated". It does not disconnect, and it is not modelled.
- The unused imports (`util`, `readFileSync`, `stat`, `nClient`, `path` outside `getUrl`) are not modelled.
- The commented-out configuration listener (lines 143-145) is not modelled.
- `calva/state.ts`, the middleware, the connector, the terminal, the status bar and the annotations modules are not part of this model.
- Disposal (`Teardown`) and event delivery (`Deliver`) assume the host visits subscriptions in list order. The host's real disposal order is not modelled.
- The command callbacks bound by the 22 registrations are not modelled. Each registration is recorded only by its command id.
- Activation.Activate: does not state what delivering an event, or disposing, does to the subscriptions it appends. That is stated separately, about `ActivationSubscriptions`, by DeliverAfterActivation and TeardownAfterActivation.
- Activation.Setup: its contract keeps the host calls and the subscriptions as two separate sequences, so it does not say where the pushes fall among the host calls. During a synchronous activation that interleaving cannot be observed.
- The teardown modelled is the code's. The disposer calls `connector.disconnect()` and then disposes the output channel (lines 138-141). The disposer does not flush or close the analytics sink, and neither does `deactivate`.
- `onDidSave` reads the configuration before its language check (line 32). That read has no observable effect, so it is not modelled.
