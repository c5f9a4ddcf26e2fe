/**
 The editor-event handlers of the extension. Each one is a decision over the
 document's language and the configuration snapshot read when the event
 arrives, and its result is the sequence of collaborator calls it makes.
 */
module Handlers {
  import opened Editor

  /** The analytics event that the on-save branch for a middleware call logs. */
  function SaveEventFor(e: Effect): Effect
    requires IsMiddleware(e)
  {
    match e
    case RunNamespaceTests(_) => LogEvent(OnSaveTest)
    case EvaluateFile(_) => LogEvent(OnSaveLoad)
    case LintDocument(_) => LogEvent(OnSaveLint)
  }

  /** A pair of a middleware call and the analytics event its on-save branch logs. */
  predicate IsSaveStep(s: seq<Effect>, doc: Doc) {
    s == [] || s == [RunNamespaceTests(doc), LogEvent(OnSaveTest)] || s == [EvaluateFile(doc), LogEvent(OnSaveLoad)]
    || s == [LintDocument(doc), LogEvent(OnSaveLint)]
  }

  /** The first on-save branch: tests take precedence over loading the file. */
  function TestOrLoadOnSave(doc: Doc, cfg: Config): (step: seq<Effect>)
    ensures IsSaveStep(step, doc) && LintDocument(doc) !in step
    ensures RunNamespaceTests(doc) in step <==> cfg.test
    ensures EvaluateFile(doc) in step <==> !cfg.test && cfg.evaluate
  {
    if cfg.test then [RunNamespaceTests(doc), LogEvent(OnSaveTest)]
    else if cfg.evaluate then [EvaluateFile(doc), LogEvent(OnSaveLoad)]
    else []
  }

  /** The second on-save branch, decided on its own. */
  function LintOnSave(doc: Doc, cfg: Config): (step: seq<Effect>)
    ensures IsSaveStep(step, doc)
    ensures RunNamespaceTests(doc) !in step && EvaluateFile(doc) !in step
    ensures LintDocument(doc) in step <==> cfg.lint
  {
    if cfg.lint then [LintDocument(doc), LogEvent(OnSaveLint)] else []
  }

  /**
   A saved document: other languages are skipped; running the namespace's
   tests takes precedence over loading the file, so at most one of the two
   happens; linting is decided on its own and comes after either. Every
   middleware call is followed at once by its own analytics event.
   */
  function OnDidSave(doc: Doc, cfg: Config): (effects: seq<Effect>)
    ensures !IsClojure(doc) ==> effects == []
    ensures forall e :: e in effects ==>
      e in {RunNamespaceTests(doc), EvaluateFile(doc), LintDocument(doc), LogEvent(OnSaveTest), LogEvent(OnSaveLoad), LogEvent(OnSaveLint)}
    ensures multiset(effects)[RunNamespaceTests(doc)] == (if IsClojure(doc) && cfg.test then 1 else 0)
    ensures multiset(effects)[EvaluateFile(doc)] == (if IsClojure(doc) && !cfg.test && cfg.evaluate then 1 else 0)
    ensures multiset(effects)[LintDocument(doc)] == (if IsClojure(doc) && cfg.lint then 1 else 0)
    ensures multiset(effects)[LogEvent(OnSaveTest)] == multiset(effects)[RunNamespaceTests(doc)]
    ensures multiset(effects)[LogEvent(OnSaveLoad)] == multiset(effects)[EvaluateFile(doc)]
    ensures multiset(effects)[LogEvent(OnSaveLint)] == multiset(effects)[LintDocument(doc)]
  {
    if !IsClojure(doc) then []
    else TestOrLoadOnSave(doc, cfg) + LintOnSave(doc, cfg)
  }

  /** Every analytics event the save handler logs is in the "Calva" category. */
  lemma SaveEventsCategory(doc: Doc, cfg: Config)
    ensures forall e :: e in OnDidSave(doc, cfg) && e.LogEvent? ==> e.event.Category() == "Calva"
  {
  }

  /** On save, linting comes after the test run or the file load. */
  lemma SaveLintsLast(doc: Doc, cfg: Config)
    ensures Precedes(OnDidSave(doc, cfg), RunNamespaceTests(doc), LintDocument(doc))
    ensures Precedes(OnDidSave(doc, cfg), EvaluateFile(doc), LintDocument(doc))
  {
    if IsClojure(doc) {
      var first, lint := TestOrLoadOnSave(doc, cfg), LintOnSave(doc, cfg);
      PrecedesAcross(first, lint, RunNamespaceTests(doc), LintDocument(doc));
      PrecedesAcross(first, lint, EvaluateFile(doc), LintDocument(doc));
    }
  }

  /** Every middleware call in `s` is followed at once by the analytics event of its branch. */
  predicate CallsLogged(s: seq<Effect>) {
    forall i :: 0 <= i < |s| && IsMiddleware(s[i]) ==> i + 1 < |s| && s[i + 1] == SaveEventFor(s[i])
  }

  lemma StepsLogged(a: seq<Effect>, b: seq<Effect>, doc: Doc)
    requires IsSaveStep(a, doc) && IsSaveStep(b, doc)
    ensures CallsLogged(a + b)
  {
    var s := a + b;
    forall i | 0 <= i < |s| && IsMiddleware(s[i])
      ensures i + 1 < |s| && s[i + 1] == SaveEventFor(s[i])
    {
      if i < |a| {
        assert i == 0 && s[0] == a[0] && s[1] == a[1];
      } else {
        assert i - |a| == 0 && s[i] == b[0] && s[i + 1] == b[1];
      }
    }
  }

  /** On save, every middleware call is followed at once by its own analytics event. */
  lemma SaveLogsEachCall(doc: Doc, cfg: Config)
    ensures CallsLogged(OnDidSave(doc, cfg))
  {
    if IsClojure(doc) {
      StepsLogged(TestOrLoadOnSave(doc, cfg), LintOnSave(doc, cfg), doc);
    }
  }

  /**
   An opened document is linted when it is a Clojure document and linting is
   enabled; nothing else happens, and in particular nothing is logged.
   */
  function OnDidOpen(doc: Doc, cfg: Config): (effects: seq<Effect>)
    ensures LintDocument(doc) in effects <==> IsClojure(doc) && cfg.lint
    ensures forall e :: e in effects ==> e == LintDocument(doc)
    ensures |effects| <= 1
  {
    if !IsClojure(doc) then []
    else if cfg.lint then [LintDocument(doc)]
    else []
  }

  /**
   A change of active editor always refreshes the status bar first, and
   then moves the terminal REPL's namespace when that setting is on.
   */
  function OnActiveEditorChanged(cfg: Config): (effects: seq<Effect>)
    ensures |effects| > 0 && effects[0] == StatusUpdate
    ensures SetREPLNamespace in effects <==> cfg.syncReplNamespaceToCurrentFile
    ensures forall e :: e in effects ==> e == StatusUpdate || e == SetREPLNamespace
    ensures multiset(effects)[StatusUpdate] == 1
    ensures multiset(effects)[SetREPLNamespace] <= 1
  {
    [StatusUpdate] + (if cfg.syncReplNamespaceToCurrentFile then [SetREPLNamespace] else [])
  }

  /** The editor events the extension subscribes to. */
  datatype EditorEvent =
    | DocumentOpened(doc: Doc)
    | DocumentSaved(doc: Doc)
    | ActiveEditorChanged
    | DocumentChanged(doc: Doc)

  /** What the listener for an event does, given the configuration read at that moment. */
  function HandleEvent(ev: EditorEvent, cfg: Config): seq<Effect>
  {
    match ev
    case DocumentOpened(doc) => OnDidOpen(doc, cfg)
    case DocumentSaved(doc) => OnDidSave(doc, cfg)
    case ActiveEditorChanged => OnActiveEditorChanged(cfg)
    case DocumentChanged(doc) => [AnnotateChange(doc)]
  }

  /** Opening a document only ever lints it. */
  lemma OpenQuiet(doc: Doc, cfg: Config)
    ensures forall e :: e in OnDidOpen(doc, cfg) ==> !IsAnalytics(e) && e != Disconnect && !e.AnnotateChange? && e != StatusUpdate
  {
  }

  /** A change of active editor neither logs, disconnects nor annotates. */
  lemma ActiveEditorQuiet(cfg: Config)
    ensures forall e :: e in OnActiveEditorChanged(cfg) ==> !IsAnalytics(e) && e != Disconnect && !e.AnnotateChange?
  {
  }

  /** A save neither disconnects, annotates nor touches the status bar. */
  lemma SaveQuiet(doc: Doc, cfg: Config)
    ensures forall e :: e in OnDidSave(doc, cfg) ==> e != Disconnect && !e.AnnotateChange? && e != StatusUpdate
  {
  }

  /** Only a save logs analytics, and no listener disconnects. */
  lemma ListenersLogOnlyOnSave(ev: EditorEvent, cfg: Config)
    ensures !ev.DocumentSaved? ==> forall e :: e in HandleEvent(ev, cfg) ==> !IsAnalytics(e)
    ensures Disconnect !in HandleEvent(ev, cfg)
  {
    match ev
    case DocumentOpened(doc) => OpenQuiet(doc, cfg);
    case DocumentSaved(doc) => SaveQuiet(doc, cfg);
    case ActiveEditorChanged => ActiveEditorQuiet(cfg);
    case DocumentChanged(doc) =>
  }

  /**
   Only a change of active editor touches the status bar, and only a
   document change reaches the annotations, with that document.
   */
  lemma ListenersRouteByKind(ev: EditorEvent, cfg: Config)
    ensures StatusUpdate in HandleEvent(ev, cfg) <==> ev.ActiveEditorChanged?
    ensures ev.DocumentChanged? ==> HandleEvent(ev, cfg) == [AnnotateChange(ev.doc)]
    ensures !ev.DocumentChanged? ==> forall e :: e in HandleEvent(ev, cfg) ==> !e.AnnotateChange?
  {
    match ev
    case DocumentOpened(doc) => OpenQuiet(doc, cfg);
    case DocumentSaved(doc) => SaveQuiet(doc, cfg);
    case ActiveEditorChanged => ActiveEditorQuiet(cfg);
    case DocumentChanged(doc) =>
  }
}
