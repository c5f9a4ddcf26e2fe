/**
 The values the extension's entry points exchange with the editor host:
 documents, the configuration snapshot and the effects the extension asks
 its collaborators (middleware, analytics sink, status bar, terminal,
 connector, output channel) to perform. Collaborators are opaque: an
 effect only records that a call was made and with which arguments.
 */
module Editor {

  /**
   The parts of an editor document the model keeps: the handlers decide on
   `languageId`, and `fileName` tells apart the documents a recorded call is
   about (two Clojure files are different arguments to the middleware).
   */
  datatype Doc = Doc(fileName: string, languageId: string)

  /** The language identifier the extension serves. */
  const ClojureLanguageId: string := "clojure"

  predicate IsClojure(doc: Doc) {
    doc.languageId == ClojureLanguageId
  }

  /** A snapshot of the extension's boolean settings, read at one moment. */
  datatype Config = Config(
    evaluate: bool,
    lint: bool,
    test: bool,
    autoConnect: bool,
    useWSL: bool,
    syncReplNamespaceToCurrentFile: bool)

  /** The analytics events the extension logs, as (category, action) pairs. */
  datatype AnalyticsEvent = Started | Activated | OnSaveTest | OnSaveLoad | OnSaveLint {
    function Category(): string {
      if Started? || Activated? then "LifeCycle" else "Calva"
    }
    function Action(): string {
      match this
      case Started => "Started"
      case Activated => "Activated"
      case OnSaveTest => "OnSaveTest"
      case OnSaveLoad => "OnSaveLoad"
      case OnSaveLint => "OnSaveLint"
    }
  }

  /** The analytics paths the extension logs. */
  datatype AnalyticsPath = StartPath | ActivatedPath {
    function Text(): string {
      if StartPath? then "/start" else "/activated"
    }
  }

  /** The lines activation writes to the output channel. */
  datatype ChannelLine = ActivatedLine | AutoConnectingLine | AutoConnectDisabledLine {
    function Text(): string {
      match this
      case ActivatedLine => "Calva activated."
      case AutoConnectingLine => "Autoconnecting... (This can be disabled in Settings)"
      case AutoConnectDisabledLine => "Autoconnect disabled in Settings."
    }
  }

  /** One call into a collaborator, in the order the extension makes it. */
  datatype Effect =
    // middleware
    | RunNamespaceTests(doc: Doc)
    | EvaluateFile(doc: Doc)
    | LintDocument(doc: Doc)
    // inline-result annotations
    | AnnotateChange(doc: Doc)
    // analytics sink
    | LogEvent(event: AnalyticsEvent)
    | LogPath(path: AnalyticsPath)
    // status bar, terminal and connector
    | StatusUpdate
    | SetREPLNamespace
    | AutoConnect
    | Disconnect
    // output channel and editor host
    | AppendLine(line: ChannelLine)
    | DisposeChannel
    | ShowConflictError
    | ShowLegacyNotice
    | RegisterJarContentProvider  // the content provider for the "jar" URI scheme
    | SetActivatedContext         // sets the "calva:activated" context key
    | Greet(lint: bool)

  predicate IsAnalytics(e: Effect) {
    e.LogEvent? || e.LogPath?
  }

  predicate IsMiddleware(e: Effect) {
    e.RunNamespaceTests? || e.EvaluateFile? || e.LintDocument?
  }

  /** The analytics events of a trace, in order. */
  function Analytics(trace: seq<Effect>): seq<Effect> {
    if trace == [] then []
    else (if IsAnalytics(trace[0]) then [trace[0]] else []) + Analytics(trace[1..])
  }

  lemma {:induction false} AnalyticsAppend(a: seq<Effect>, b: seq<Effect>)
    ensures Analytics(a + b) == Analytics(a) + Analytics(b)
  {
    if a == [] {
      assert a + b == b;
    } else {
      var head := if IsAnalytics(a[0]) then [a[0]] else [];
      assert (a + b)[0] == a[0];
      assert (a + b)[1..] == a[1..] + b;
      AnalyticsAppend(a[1..], b);
      calc {
        Analytics(a + b);
        head + Analytics(a[1..] + b);
        head + (Analytics(a[1..]) + Analytics(b));
        (head + Analytics(a[1..])) + Analytics(b);
      }
    }
  }

  /** Every occurrence of `first` in `s` comes before every occurrence of `second`. */
  predicate Precedes(s: seq<Effect>, first: Effect, second: Effect) {
    forall i, j :: 0 <= i < |s| && 0 <= j < |s| && s[i] == first && s[j] == second ==> i < j
  }

  /** Every occurrence of `first` in `a + b` precedes every `second` when they lie on either side. */
  lemma PrecedesAcross(a: seq<Effect>, b: seq<Effect>, first: Effect, second: Effect)
    requires first !in b && second !in a
    ensures Precedes(a + b, first, second)
  {
    var s := a + b;
    forall i, j | 0 <= i < |s| && 0 <= j < |s| && s[i] == first && s[j] == second
      ensures i < j
    {
    }
  }
}
