/**
 Activation of the extension: the start and finish analytics, the early exit
 when the successor extension is installed, the subscriptions appended to the
 extension context (22 commands, three language providers, four event
 listeners and the disposer), and what those subscriptions do afterwards when
 an editor event is delivered to them or when the context is disposed.
 */
module Activation {
  import opened Editor
  import opened Handlers

  /** The ids of the connector's commands and form selection. */
  const ConnectionCommandIds: seq<string> := [
    "calva.connect",
    "calva.reconnect",
    "calva.toggleCLJCSession",
    "calva.recreateCljsRepl",
    "calva.selectCurrentForm"
  ]

  /** The ids of the evaluation middleware's commands. */
  const EvaluationCommandIds: seq<string> := [
    "calva.evaluateFile",
    "calva.evaluateSelection",
    "calva.evaluateCurrentTopLevelForm",
    "calva.evaluateSelectionPrettyPrint",
    "calva.evaluateCurrentTopLevelFormPrettyPrint",
    "calva.evaluateSelectionReplace"
  ]

  /** The ids of the lint and test-runner middleware's commands. */
  const LintAndTestCommandIds: seq<string> := [
    "calva.lintFile",
    "calva.runNamespaceTests",
    "calva.runAllTests",
    "calva.rerunTests"
  ]

  /** The ids of the REPL terminal's commands. */
  const TerminalCommandIds: seq<string> := [
    "calva.openREPLTerminal",
    "calva.loadNamespace",
    "calva.setREPLNamespace",
    "calva.evalCurrentFormInREPLTerminal",
    "calva.evalCurrentTopLevelFormInREPLTerminal"
  ]

  /** The ids of the commands on evaluation results. */
  const ResultCommandIds: seq<string> := [
    "calva.clearInlineResults",
    "calva.copyLastResults"
  ]

  /** The command ids activation registers, in registration order. */
  const CommandIds: seq<string> :=
    ConnectionCommandIds + (EvaluationCommandIds + (LintAndTestCommandIds + (TerminalCommandIds + ResultCommandIds)))

  /** The analytics logged when activation starts and when it finishes. */
  const StartLogs: seq<Effect> := [LogPath(StartPath), LogEvent(Started)]
  const FinishLogs: seq<Effect> := [LogPath(ActivatedPath), LogEvent(Activated)]

  datatype DefinitionVariant = PlainDefinition | WslDefinition

  /** One disposable pushed onto the extension context. */
  datatype Subscription =
    | Command(id: string)
    | CompletionProvider
    | HoverProvider
    | DefinitionProvider(variant: DefinitionVariant)
    | OpenListener
    | SaveListener
    | ActiveEditorListener
    | ChangeListener
    | Disposer

  /** What `activate` returns: `false` on the early exit, nothing otherwise. */
  datatype ActivateResult = ReturnedFalse | ReturnedNothing

  function CommandRegistrations(ids: seq<string>): seq<Subscription> {
    seq(|ids|, i requires 0 <= i < |ids| => Command(ids[i]))
  }

  lemma RegistrationsAppend(a: seq<string>, b: seq<string>)
    ensures CommandRegistrations(a + b) == CommandRegistrations(a) + CommandRegistrations(b)
  {
  }

  function Providers(cfg: Config): seq<Subscription> {
    [CompletionProvider, HoverProvider,
     DefinitionProvider(if cfg.useWSL then WslDefinition else PlainDefinition)]
  }

  const Listeners: seq<Subscription> :=
    [OpenListener, SaveListener, ActiveEditorListener, ChangeListener, Disposer]

  /** The subscriptions a completed activation appends, in order. */
  function ActivationSubscriptions(cfg: Config): seq<Subscription> {
    CommandRegistrations(CommandIds) + (Providers(cfg) + Listeners)
  }

  /** The legacy notice, shown unless the workspace silenced it. */
  function LegacyNotice(dontNag: bool): seq<Effect> {
    if dontNag then [] else [ShowLegacyNotice]
  }

  /** The calls between the notice and the auto-connect decision. */
  function SetupCalls(cfg: Config): seq<Effect> {
    [AppendLine(ActivatedLine), StatusUpdate, RegisterJarContentProvider, SetActivatedContext, Greet(cfg.lint)]
  }

  function AutoConnectCalls(cfg: Config): seq<Effect> {
    if cfg.autoConnect then [AppendLine(AutoConnectingLine), AutoConnect]
    else [AppendLine(AutoConnectDisabledLine)]
  }

  /**
   The collaborator calls of one activation, in order: `newCalva` says whether
   the successor extension is installed, `dontNag` is the workspace flag that
   silences the legacy notice.
   */
  function ActivationTrace(cfg: Config, newCalva: bool, dontNag: bool): seq<Effect> {
    if newCalva then StartLogs + [ShowConflictError]
    else StartLogs + (LegacyNotice(dontNag) + (SetupCalls(cfg) + (AutoConnectCalls(cfg) + FinishLogs)))
  }

  // ---------------------------------------------------------------------
  // Event delivery and disposal of the subscriptions

  /** Whether a subscription is the listener for an event's kind. */
  predicate Listens(sub: Subscription, ev: EditorEvent) {
    match sub
    case OpenListener => ev.DocumentOpened?
    case SaveListener => ev.DocumentSaved?
    case ActiveEditorListener => ev.ActiveEditorChanged?
    case ChangeListener => ev.DocumentChanged?
    case _ => false
  }

  /** What one subscription does with an editor event; `cfg` is read when the event arrives. */
  function Handle(sub: Subscription, ev: EditorEvent, cfg: Config): seq<Effect> {
    if Listens(sub, ev) then HandleEvent(ev, cfg) else []
  }

  /** The host delivers an event to every subscription in order. */
  function Deliver(subs: seq<Subscription>, ev: EditorEvent, cfg: Config): seq<Effect> {
    if subs == [] then [] else Handle(subs[0], ev, cfg) + Deliver(subs[1..], ev, cfg)
  }

  /** Disposing a subscription: only the disposer has an effect of its own. */
  function DisposeEffects(sub: Subscription): seq<Effect> {
    if sub == Disposer then [Disconnect, DisposeChannel] else []
  }

  /** Only the disposer has a disposal effect: it disconnects first, once, and disposes the channel last. */
  lemma DisposerOnly(sub: Subscription)
    ensures var effects := DisposeEffects(sub);
      && (effects != [] <==> sub == Disposer)
      && (effects != [] ==> effects[0] == Disconnect && effects[|effects| - 1] == DisposeChannel)
      && multiset(effects)[Disconnect] <= 1
  {
  }

  function Teardown(subs: seq<Subscription>): seq<Effect> {
    if subs == [] then [] else DisposeEffects(subs[0]) + Teardown(subs[1..])
  }

  lemma {:induction false} DeliverNothing(subs: seq<Subscription>, ev: EditorEvent, cfg: Config)
    requires forall k :: 0 <= k < |subs| ==> !Listens(subs[k], ev)
    ensures Deliver(subs, ev, cfg) == []
  {
    if subs != [] {
      DeliverNothing(subs[1..], ev, cfg);
    }
  }

  /** When only the subscription at `j` listens for an event, delivering it runs that handler once. */
  lemma {:induction false} DeliverToSole(subs: seq<Subscription>, j: nat, ev: EditorEvent, cfg: Config)
    requires j < |subs| && Listens(subs[j], ev)
    requires forall k :: 0 <= k < |subs| && k != j ==> !Listens(subs[k], ev)
    ensures Deliver(subs, ev, cfg) == HandleEvent(ev, cfg)
  {
    if j == 0 {
      DeliverNothing(subs[1..], ev, cfg);
    } else {
      DeliverToSole(subs[1..], j - 1, ev, cfg);
    }
  }

  lemma {:induction false} TeardownNothing(subs: seq<Subscription>)
    requires forall k :: 0 <= k < |subs| ==> DisposeEffects(subs[k]) == []
    ensures Teardown(subs) == []
  {
    if subs != [] {
      TeardownNothing(subs[1..]);
    }
  }

  /** When only the subscription at `j` has a disposal effect, tearing down is that effect. */
  lemma {:induction false} TeardownSole(subs: seq<Subscription>, j: nat)
    requires j < |subs|
    requires forall k :: 0 <= k < |subs| && k != j ==> DisposeEffects(subs[k]) == []
    ensures Teardown(subs) == DisposeEffects(subs[j])
  {
    if j == 0 {
      TeardownNothing(subs[1..]);
    } else {
      TeardownSole(subs[1..], j - 1);
    }
  }

  /** The position of the listener for an event among the subscriptions of an activation. */
  function ListenerIndex(ev: EditorEvent): (j: nat)
    ensures |CommandIds| + 3 <= j < |CommandIds| + 7
  {
    var base := |CommandIds| + 3;
    match ev
    case DocumentOpened(_) => base
    case DocumentSaved(_) => base + 1
    case ActiveEditorChanged => base + 2
    case DocumentChanged(_) => base + 3
  }

  /**
   After activation each editor event reaches exactly one handler, once,
   and that handler reads the configuration current at delivery time.
   */
  lemma DeliverAfterActivation(activationCfg: Config, ev: EditorEvent, cfg: Config)
    ensures Deliver(ActivationSubscriptions(activationCfg), ev, cfg) == HandleEvent(ev, cfg)
  {
    var subs := ActivationSubscriptions(activationCfg);
    var j := ListenerIndex(ev);
    assert |subs| == |CommandIds| + 8;
    assert Listens(subs[j], ev);
    forall k | 0 <= k < |subs| && k != j
      ensures !Listens(subs[k], ev)
    {
      if k < |CommandIds| {
        assert subs[k] == Command(CommandIds[k]);
      }
    }
    DeliverToSole(subs, j, ev, cfg);
  }

  /**
   Disposing what activation subscribed disconnects the REPL exactly once and
   then disposes the output channel; nothing else is torn down by the model.
   */
  lemma TeardownAfterActivation(cfg: Config)
    ensures Teardown(ActivationSubscriptions(cfg)) == [Disconnect, DisposeChannel]
  {
    var subs := ActivationSubscriptions(cfg);
    var j := |subs| - 1;
    forall k | 0 <= k < |subs| && k != j
      ensures DisposeEffects(subs[k]) == []
    {
      if k < |CommandIds| {
        assert subs[k] == Command(CommandIds[k]);
      }
    }
    TeardownSole(subs, j);
  }

  // ---------------------------------------------------------------------
  // What activation subscribes

  predicate Distinct<T(==)>(s: seq<T>) {
    forall i, j :: 0 <= i < j < |s| ==> s[i] != s[j]
  }

  lemma {:induction false} DistinctCount<T>(s: seq<T>, x: T)
    requires Distinct(s)
    ensures multiset(s)[x] == if x in s then 1 else 0
  {
    if s != [] {
      assert s == [s[0]] + s[1..];
      assert Distinct(s[1..]);
      DistinctCount(s[1..], x);
      assert s[0] !in s[1..];
    }
  }

  lemma {:induction false} RegistrationCount(ids: seq<string>, id: string)
    ensures multiset(CommandRegistrations(ids))[Command(id)] == multiset(ids)[id]
  {
    if ids != [] {
      var subs := CommandRegistrations(ids);
      assert subs == [Command(ids[0])] + CommandRegistrations(ids[1..]);
      assert ids == [ids[0]] + ids[1..];
      RegistrationCount(ids[1..], id);
    }
  }

  /** The 22 command ids are pairwise different. */
  lemma CommandIdsDistinct()
    ensures |CommandIds| == 22 && Distinct(CommandIds)
  {
  }

  lemma RegisteredOnceAmong(ids: seq<string>, rest: seq<Subscription>, id: string)
    requires Distinct(ids)
    requires forall k :: 0 <= k < |rest| ==> !rest[k].Command?
    ensures multiset(CommandRegistrations(ids) + rest)[Command(id)] == if id in ids then 1 else 0
  {
    DistinctCount(ids, id);
    RegistrationCount(ids, id);
    assert Command(id) !in rest;
  }

  /** Activation registers each of the 22 ids exactly once and no other command. */
  lemma CommandsRegisteredOnce(cfg: Config, id: string)
    ensures multiset(ActivationSubscriptions(cfg))[Command(id)] == if id in CommandIds then 1 else 0
  {
    CommandIdsDistinct();
    RegisteredOnceAmong(CommandIds, Providers(cfg) + Listeners, id);
  }

  lemma NonCommandCount(ids: seq<string>, rest: seq<Subscription>, s: Subscription)
    requires !s.Command?
    ensures multiset(CommandRegistrations(ids) + rest)[s] == multiset(rest)[s]
  {
    assert s !in CommandRegistrations(ids);
  }

  lemma DefinitionProviderAmong(ids: seq<string>, cfg: Config)
    ensures var subs := CommandRegistrations(ids) + (Providers(cfg) + Listeners);
      && multiset(subs)[DefinitionProvider(WslDefinition)] == (if cfg.useWSL then 1 else 0)
      && multiset(subs)[DefinitionProvider(PlainDefinition)] == (if cfg.useWSL then 0 else 1)
  {
    var rest := Providers(cfg) + Listeners;
    NonCommandCount(ids, rest, DefinitionProvider(WslDefinition));
    NonCommandCount(ids, rest, DefinitionProvider(PlainDefinition));
  }

  /** The definition provider activation subscribes is the WSL variant exactly when `useWSL` is set. */
  lemma DefinitionProviderChoice(cfg: Config)
    ensures var subs := ActivationSubscriptions(cfg);
      && multiset(subs)[DefinitionProvider(WslDefinition)] == (if cfg.useWSL then 1 else 0)
      && multiset(subs)[DefinitionProvider(PlainDefinition)] == (if cfg.useWSL then 0 else 1)
  {
    DefinitionProviderAmong(CommandIds, cfg);
  }

  lemma ProvidersAmong(ids: seq<string>, cfg: Config)
    ensures var subs := CommandRegistrations(ids) + (Providers(cfg) + Listeners);
      multiset(subs)[CompletionProvider] == 1 && multiset(subs)[HoverProvider] == 1
  {
    var rest := Providers(cfg) + Listeners;
    NonCommandCount(ids, rest, CompletionProvider);
    NonCommandCount(ids, rest, HoverProvider);
  }

  lemma ListenersAmong(ids: seq<string>, cfg: Config)
    ensures var subs := CommandRegistrations(ids) + (Providers(cfg) + Listeners);
      && multiset(subs)[OpenListener] == 1 && multiset(subs)[SaveListener] == 1
      && multiset(subs)[ActiveEditorListener] == 1 && multiset(subs)[ChangeListener] == 1
      && multiset(subs)[Disposer] == 1
  {
    var rest := Providers(cfg) + Listeners;
    NonCommandCount(ids, rest, OpenListener);
    NonCommandCount(ids, rest, SaveListener);
    NonCommandCount(ids, rest, ActiveEditorListener);
    NonCommandCount(ids, rest, ChangeListener);
    NonCommandCount(ids, rest, Disposer);
  }

  /**
   Activation subscribes one completion and one hover provider, and each of
   the four event listeners and the disposer once.
   */
  lemma ProvidersAndListenersOnce(cfg: Config)
    ensures var subs := ActivationSubscriptions(cfg);
      && multiset(subs)[CompletionProvider] == 1 && multiset(subs)[HoverProvider] == 1
      && multiset(subs)[OpenListener] == 1 && multiset(subs)[SaveListener] == 1
      && multiset(subs)[ActiveEditorListener] == 1 && multiset(subs)[ChangeListener] == 1
      && multiset(subs)[Disposer] == 1
  {
    ProvidersAmong(CommandIds, cfg);
    ListenersAmong(CommandIds, cfg);
  }

  // ---------------------------------------------------------------------
  // What activation calls

  predicate NoAnalytics(s: seq<Effect>) {
    forall k :: 0 <= k < |s| ==> !IsAnalytics(s[k])
  }

  lemma {:induction false} AnalyticsNone(s: seq<Effect>)
    requires NoAnalytics(s)
    ensures Analytics(s) == []
  {
    if s != [] {
      AnalyticsNone(s[1..]);
    }
  }

  /** With the successor extension installed, activation logs only its start. */
  lemma EarlyExitTrace(cfg: Config, dontNag: bool)
    ensures var trace := ActivationTrace(cfg, true, dontNag);
      && Analytics(trace) == StartLogs
      && trace[..2] == StartLogs
      && AutoConnect !in trace && StatusUpdate !in trace
  {
    AnalyticsAppend(StartLogs, [ShowConflictError]);
    AnalyticsNone([ShowConflictError]);
  }

  lemma AnalyticsBetween(notice: seq<Effect>, setup: seq<Effect>, connect: seq<Effect>)
    requires NoAnalytics(notice) && NoAnalytics(setup) && NoAnalytics(connect)
    ensures Analytics(StartLogs + (notice + (setup + (connect + FinishLogs)))) == StartLogs + FinishLogs
  {
    AnalyticsAppend(StartLogs, notice + (setup + (connect + FinishLogs)));
    AnalyticsAppend(notice, setup + (connect + FinishLogs));
    AnalyticsAppend(setup, connect + FinishLogs);
    AnalyticsAppend(connect, FinishLogs);
    AnalyticsNone(notice);
    AnalyticsNone(setup);
    AnalyticsNone(connect);
  }

  /**
   A completed activation logs its start first and its finish last, and no
   other analytics event in between.
   */
  lemma CompletedTrace(cfg: Config, dontNag: bool)
    ensures Analytics(ActivationTrace(cfg, false, dontNag)) == StartLogs + FinishLogs
  {
    AnalyticsBetween(LegacyNotice(dontNag), SetupCalls(cfg), AutoConnectCalls(cfg));
  }

  /**
   As the analytics sink sees them, a completed activation logs the path
   "/start", the event LifeCycle/Started, the path "/activated" and the event
   LifeCycle/Activated, in that order.
   */
  lemma CompletedTraceLogged(cfg: Config, dontNag: bool)
    ensures var logged := Analytics(ActivationTrace(cfg, false, dontNag));
      && |logged| == 4
      && logged[0].LogPath? && logged[0].path.Text() == "/start"
      && logged[1].LogEvent? && logged[1].event.Category() == "LifeCycle" && logged[1].event.Action() == "Started"
      && logged[2].LogPath? && logged[2].path.Text() == "/activated"
      && logged[3].LogEvent? && logged[3].event.Category() == "LifeCycle" && logged[3].event.Action() == "Activated"
  {
    CompletedTrace(cfg, dontNag);
  }

  /** The auto-connect step writes the connecting line exactly when it connects. */
  lemma {:induction false} ConnectLines(cfg: Config)
    ensures AppendLine(AutoConnectingLine) in AutoConnectCalls(cfg) <==> cfg.autoConnect
    ensures AppendLine(AutoConnectDisabledLine) in AutoConnectCalls(cfg) <==> !cfg.autoConnect
  {
  }

  /** The lines activation writes, as the output channel shows them. */
  lemma ChannelLineTexts(cfg: Config)
    ensures SetupCalls(cfg)[0].AppendLine? && SetupCalls(cfg)[0].line.Text() == "Calva activated."
    ensures AutoConnectCalls(cfg)[0].AppendLine?
    ensures AutoConnectCalls(cfg)[0].line.Text() ==
      if cfg.autoConnect then "Autoconnecting... (This can be disabled in Settings)"
      else "Autoconnect disabled in Settings."
  {
  }

  /**
   A completed activation writes the activated line, and the connecting line
   exactly when `autoConnect` is set and the disabled line otherwise.
   */
  lemma ChannelLinesWritten(cfg: Config, dontNag: bool)
    ensures var trace := ActivationTrace(cfg, false, dontNag);
      && AppendLine(ActivatedLine) in trace
      && (AppendLine(AutoConnectingLine) in trace <==> cfg.autoConnect)
      && (AppendLine(AutoConnectDisabledLine) in trace <==> !cfg.autoConnect)
  {
    var notice, setup, connect := LegacyNotice(dontNag), SetupCalls(cfg), AutoConnectCalls(cfg);
    assert setup[0] == AppendLine(ActivatedLine);
    assert forall e :: e in StartLogs + FinishLogs ==> !e.AppendLine?;
    assert forall e :: e in notice ==> !e.AppendLine?;
    assert forall e :: e in setup ==> e == AppendLine(ActivatedLine) || !e.AppendLine?;
    ConnectLines(cfg);
  }

  /** A completed activation writes the activated line before either auto-connect line. */
  lemma ActivatedLineFirst(cfg: Config, dontNag: bool)
    ensures var trace := ActivationTrace(cfg, false, dontNag);
      && Precedes(trace, AppendLine(ActivatedLine), AppendLine(AutoConnectingLine))
      && Precedes(trace, AppendLine(ActivatedLine), AppendLine(AutoConnectDisabledLine))
  {
    var notice, setup, connect := LegacyNotice(dontNag), SetupCalls(cfg), AutoConnectCalls(cfg);
    var before, after := StartLogs + (notice + setup), connect + FinishLogs;
    assert ActivationTrace(cfg, false, dontNag) == before + after;
    assert AppendLine(ActivatedLine) !in after;
    assert AppendLine(AutoConnectingLine) !in before && AppendLine(AutoConnectDisabledLine) !in before;
    PrecedesAcross(before, after, AppendLine(ActivatedLine), AppendLine(AutoConnectingLine));
    PrecedesAcross(before, after, AppendLine(ActivatedLine), AppendLine(AutoConnectDisabledLine));
  }

  /** A completed activation opens with the start logs and closes with the finish logs. */
  lemma CompletedTraceFrame(cfg: Config, dontNag: bool)
    ensures var trace := ActivationTrace(cfg, false, dontNag);
      && |trace| >= 4 && trace[..2] == StartLogs && trace[|trace| - 2..] == FinishLogs
  {
  }

  /** The connector's auto-connect is called, once, exactly when activation completes with `autoConnect` set. */
  lemma AutoConnectIffConfigured(cfg: Config, newCalva: bool, dontNag: bool)
    ensures multiset(ActivationTrace(cfg, newCalva, dontNag))[AutoConnect] ==
      if !newCalva && cfg.autoConnect then 1 else 0
  {
    if !newCalva {
      assert AutoConnect !in StartLogs && AutoConnect !in FinishLogs;
      assert AutoConnect !in LegacyNotice(dontNag) && AutoConnect !in SetupCalls(cfg);
      assert multiset(AutoConnectCalls(cfg))[AutoConnect] == if cfg.autoConnect then 1 else 0;
    }
  }

  /** Activation never disconnects; only disposing its subscriptions does. */
  lemma ActivationNeverDisconnects(cfg: Config, newCalva: bool, dontNag: bool)
    ensures Disconnect !in ActivationTrace(cfg, newCalva, dontNag)
  {
  }

  // ---------------------------------------------------------------------
  // The state activation changes

  /** The extension context the host passes to `activate`. */
  class ExtensionContext {
    var subscriptions: seq<Subscription>
    /** The workspace-state flag that silences the legacy notice. */
    const dontNag: bool

    constructor (dontNag: bool)
      ensures subscriptions == [] && this.dontNag == dontNag
    {
      subscriptions := [];
      this.dontNag := dontNag;
    }

    method Push(sub: Subscription)
      modifies this
      ensures subscriptions == old(subscriptions) + [sub]
    {
      subscriptions := subscriptions + [sub];
    }
  }

  /** The extension's process-wide state and the calls it has made to collaborators. */
  class Host {
    /** Whether the analytics sink has been stored in the state cursor. */
    var analyticsInstalled: bool
    var trace: seq<Effect>

    constructor ()
      ensures !analyticsInstalled && trace == []
    {
      analyticsInstalled := false;
      trace := [];
    }

    method InstallAnalytics()
      modifies this
      ensures analyticsInstalled && trace == old(trace)
    {
      analyticsInstalled := true;
    }

    /** Records one call; the analytics sink can only be reached once it is installed. */
    method Call(e: Effect)
      requires IsAnalytics(e) ==> analyticsInstalled
      modifies this
      ensures analyticsInstalled == old(analyticsInstalled)
      ensures trace == old(trace) + [e]
    {
      trace := trace + [e];
    }
  }

  method RegisterConnectionCommands(ctx: ExtensionContext)
    modifies ctx
    ensures ctx.subscriptions == old(ctx.subscriptions) + CommandRegistrations(ConnectionCommandIds)
  {
    ghost var before := ctx.subscriptions;
    ctx.Push(Command("calva.connect"));
    ctx.Push(Command("calva.reconnect"));
    ctx.Push(Command("calva.toggleCLJCSession"));
    ctx.Push(Command("calva.recreateCljsRepl"));
    ctx.Push(Command("calva.selectCurrentForm"));
    assert ctx.subscriptions[|before|..] == CommandRegistrations(ConnectionCommandIds);
  }

  method RegisterEvaluationCommands(ctx: ExtensionContext)
    modifies ctx
    ensures ctx.subscriptions == old(ctx.subscriptions) + CommandRegistrations(EvaluationCommandIds)
  {
    ghost var before := ctx.subscriptions;
    ctx.Push(Command("calva.evaluateFile"));
    ctx.Push(Command("calva.evaluateSelection"));
    ctx.Push(Command("calva.evaluateCurrentTopLevelForm"));
    ctx.Push(Command("calva.evaluateSelectionPrettyPrint"));
    ctx.Push(Command("calva.evaluateCurrentTopLevelFormPrettyPrint"));
    ctx.Push(Command("calva.evaluateSelectionReplace"));
    assert ctx.subscriptions[|before|..] == CommandRegistrations(EvaluationCommandIds);
  }

  method RegisterLintAndTestCommands(ctx: ExtensionContext)
    modifies ctx
    ensures ctx.subscriptions == old(ctx.subscriptions) + CommandRegistrations(LintAndTestCommandIds)
  {
    ghost var before := ctx.subscriptions;
    ctx.Push(Command("calva.lintFile"));
    ctx.Push(Command("calva.runNamespaceTests"));
    ctx.Push(Command("calva.runAllTests"));
    ctx.Push(Command("calva.rerunTests"));
    assert ctx.subscriptions[|before|..] == CommandRegistrations(LintAndTestCommandIds);
  }

  method RegisterTerminalCommands(ctx: ExtensionContext)
    modifies ctx
    ensures ctx.subscriptions == old(ctx.subscriptions) + CommandRegistrations(TerminalCommandIds)
  {
    ghost var before := ctx.subscriptions;
    ctx.Push(Command("calva.openREPLTerminal"));
    ctx.Push(Command("calva.loadNamespace"));
    ctx.Push(Command("calva.setREPLNamespace"));
    ctx.Push(Command("calva.evalCurrentFormInREPLTerminal"));
    ctx.Push(Command("calva.evalCurrentTopLevelFormInREPLTerminal"));
    assert ctx.subscriptions[|before|..] == CommandRegistrations(TerminalCommandIds);
  }

  method RegisterResultCommands(ctx: ExtensionContext)
    modifies ctx
    ensures ctx.subscriptions == old(ctx.subscriptions) + CommandRegistrations(ResultCommandIds)
  {
    ghost var before := ctx.subscriptions;
    ctx.Push(Command("calva.clearInlineResults"));
    ctx.Push(Command("calva.copyLastResults"));
    assert ctx.subscriptions[|before|..] == CommandRegistrations(ResultCommandIds);
  }

  /** Registers the 22 commands, in order, each as one subscription. */
  method RegisterCommands(ctx: ExtensionContext)
    modifies ctx
    ensures ctx.subscriptions == old(ctx.subscriptions) + CommandRegistrations(CommandIds)
  {
    ghost var before := ctx.subscriptions;
    RegisterConnectionCommands(ctx);
    RegisterEvaluationCommands(ctx);
    RegisterLintAndTestCommands(ctx);
    RegisterTerminalCommands(ctx);
    RegisterResultCommands(ctx);
    RegistrationsAppend(TerminalCommandIds, ResultCommandIds);
    RegistrationsAppend(LintAndTestCommandIds, TerminalCommandIds + ResultCommandIds);
    RegistrationsAppend(EvaluationCommandIds, LintAndTestCommandIds + (TerminalCommandIds + ResultCommandIds));
    RegistrationsAppend(ConnectionCommandIds,
      EvaluationCommandIds + (LintAndTestCommandIds + (TerminalCommandIds + ResultCommandIds)));
  }

  /** Registers the completion, hover and definition providers; the `jar` content provider is not a subscription. */
  method RegisterProviders(ctx: ExtensionContext, host: Host, cfg: Config)
    modifies ctx, host
    ensures ctx.subscriptions == old(ctx.subscriptions) + Providers(cfg)
    ensures host.trace == old(host.trace) + [RegisterJarContentProvider]
    ensures host.analyticsInstalled == old(host.analyticsInstalled)
  {
    ctx.Push(CompletionProvider);
    ctx.Push(HoverProvider);
    ctx.Push(DefinitionProvider(if cfg.useWSL then WslDefinition else PlainDefinition));
    host.Call(RegisterJarContentProvider);
  }

  /** Subscribes the four event listeners and then the disposer. */
  method SubscribeListeners(ctx: ExtensionContext)
    modifies ctx
    ensures ctx.subscriptions == old(ctx.subscriptions) + Listeners
  {
    ctx.Push(OpenListener);
    ctx.Push(SaveListener);
    ctx.Push(ActiveEditorListener);
    ctx.Push(ChangeListener);
    ctx.Push(Disposer);
  }

  lemma AppendAssoc<T>(a: seq<T>, b: seq<T>, c: seq<T>)
    ensures a + b + c == a + (b + c)
  {
  }

  /** Stores the analytics sink in the state cursor and logs the start. */
  method LogStart(host: Host)
    modifies host
    ensures host.analyticsInstalled
    ensures host.trace == old(host.trace) + StartLogs
  {
    host.InstallAnalytics();
    host.Call(LogPath(StartPath));
    host.Call(LogEvent(Started));
  }

  /** The legacy notice is shown unless this workspace asked not to be nagged. */
  method ShowLegacyNoticeUnlessSilenced(ctx: ExtensionContext, host: Host)
    modifies host
    ensures host.analyticsInstalled == old(host.analyticsInstalled)
    ensures host.trace == old(host.trace) + LegacyNotice(ctx.dontNag)
  {
    if !ctx.dontNag {
      host.Call(ShowLegacyNotice);
    }
  }

  /** Everything a completed activation does between the legacy notice and the auto-connect decision. */
  method Setup(ctx: ExtensionContext, host: Host, cfg: Config)
    modifies ctx, host
    ensures host.analyticsInstalled == old(host.analyticsInstalled)
    ensures host.trace == old(host.trace) + SetupCalls(cfg)
    ensures ctx.subscriptions == old(ctx.subscriptions) + ActivationSubscriptions(cfg)
  {
    host.Call(AppendLine(ActivatedLine));
    host.Call(StatusUpdate);
    RegisterCommands(ctx);
    RegisterProviders(ctx, host, cfg);
    SubscribeListeners(ctx);
    host.Call(SetActivatedContext);
    host.Call(Greet(cfg.lint));
  }

  /** Auto-connects only when configured, then logs the finish. */
  method ConnectAndLogFinish(host: Host, cfg: Config)
    requires host.analyticsInstalled
    modifies host
    ensures host.analyticsInstalled
    ensures host.trace == old(host.trace) + (AutoConnectCalls(cfg) + FinishLogs)
  {
    if cfg.autoConnect {
      host.Call(AppendLine(AutoConnectingLine));
      host.Call(AutoConnect);
    } else {
      host.Call(AppendLine(AutoConnectDisabledLine));
    }
    host.Call(LogPath(ActivatedPath));
    host.Call(LogEvent(Activated));
  }

  /**
   The extension's entry point. It installs the analytics sink and logs the
   start; when the successor extension is installed it reports the conflict
   and returns false; otherwise it appends every subscription, makes the
   remaining collaborator calls and logs the finish.
   */
  method Activate(ctx: ExtensionContext, host: Host, cfg: Config, newCalvaInstalled: bool)
    returns (result: ActivateResult)
    modifies ctx, host
    ensures host.analyticsInstalled
    ensures host.trace == old(host.trace) + ActivationTrace(cfg, newCalvaInstalled, ctx.dontNag)
    ensures ctx.subscriptions ==
      old(ctx.subscriptions) + (if newCalvaInstalled then [] else ActivationSubscriptions(cfg))
    ensures result == if newCalvaInstalled then ReturnedFalse else ReturnedNothing
  {
    ghost var trace0 := host.trace;
    LogStart(host);
    if newCalvaInstalled {
      host.Call(ShowConflictError);
      AppendAssoc(trace0, StartLogs, [ShowConflictError]);
      return ReturnedFalse;
    }
    ghost var started := host.trace;
    ShowLegacyNoticeUnlessSilenced(ctx, host);
    ghost var noticed := host.trace;
    Setup(ctx, host, cfg);
    ConnectAndLogFinish(host, cfg);
    result := ReturnedNothing;
    AppendAssoc(noticed, SetupCalls(cfg), AutoConnectCalls(cfg) + FinishLogs);
    AppendAssoc(started, LegacyNotice(ctx.dontNag), SetupCalls(cfg) + (AutoConnectCalls(cfg) + FinishLogs));
    AppendAssoc(trace0, StartLogs,
      LegacyNotice(ctx.dontNag) + (SetupCalls(cfg) + (AutoConnectCalls(cfg) + FinishLogs)));
  }
}
