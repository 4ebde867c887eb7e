/**
 * `FlutterPdfReaderPlugin`: routes each method call from Flutter to one
 * handler on a lazily created background worker, and keeps the single
 * viewer-session slot.  The worker/UI-thread hand-off is modelled as the
 * handler running to completion inside `OnMethodCall`.
 */
module Plugin {
  import opened Wrappers
  import opened Channels
  import opened Viewer
  import Rasterizer
  import PageNaming

  /** The handlers `onMethodCall` can pick. */
  datatype Handler =
    | GetNumberOfPages | GetPage | Launch | LaunchFromNetwork | Resize | Close | Listen | Unknown

  /** The method name each known handler answers to. */
  function MethodName(h: Handler): string
    requires h != Unknown
  {
    match h
    case GetNumberOfPages => "getNumberOfPages"
    case GetPage => "getPage"
    case Launch => "launch"
    case LaunchFromNetwork => "launchFromNetwork"
    case Resize => "resize"
    case Close => "close"
    case Listen => "listen"
  }

  const KnownMethods: set<string> :=
    {"getNumberOfPages", "getPage", "launch", "launchFromNetwork", "resize", "close", "listen"}

  /** The `switch (call.name)`: one handler per known name, `Unknown` for every other name. */
  function Route(name: string): (h: Handler)
    ensures h == Unknown <==> name !in KnownMethods
    ensures h != Unknown ==> MethodName(h) == name
  {
    match name
    case "getNumberOfPages" => GetNumberOfPages
    case "getPage" => GetPage
    case "launch" => Launch
    case "launchFromNetwork" => LaunchFromNetwork
    case "resize" => Resize
    case "close" => Close
    case "listen" => Listen
    case _ => Unknown
  }

  /** Routing inverts `MethodName`: distinct handlers answer to distinct names. */
  lemma RouteMethodName(h: Handler)
    requires h != Unknown
    ensures Route(MethodName(h)) == h
  {
  }

  /**
   * How many replies a handler sends before `onMethodCall`'s work is done:
   * `launch` and `launchFromNetwork` reply later, from the manager;
   * `listen` never replies; `close` replies only when there is a session.
   */
  function SynchronousReplies(h: Handler, sessionOpen: bool): nat
  {
    match h
    case GetNumberOfPages => 1
    case GetPage => 1
    case Resize => 1
    case Unknown => 1
    case Close => if sessionOpen then 1 else 0
    case Launch => 0
    case LaunchFromNetwork => 0
    case Listen => 0
  }

  /** A nullable Java string as a reply payload. */
  function TextPayload(text: Option<string>): Payload
  {
    match text
    case None => Null
    case Some(s) => Text(s)
  }

  /** The call's arguments, already unboxed. */
  datatype Args = Args(
    filePath: string,
    pageNumber: int,
    path: string,
    nightMode: bool,
    position: map<string, real>,
    rect: Option<Rect>)

  datatype MethodCall = MethodCall(id: CallId, name: string, args: Args)

  /** The background `HandlerThread` and its `Handler`. */
  class Worker {
    constructor ()
    {
    }
  }

  class PdfReaderPlugin {
    var backgroundHandler: Worker?
    var manager: Manager?
    const host: Host

    /**
     * A manager in the slot is open and its view is in the activity: `close`
     * empties the slot after closing the manager, so a closed manager never
     * stays in it.
     */
    ghost predicate Valid()
      reads this, manager, if manager != null then {manager.pdfView} else {}
    {
      manager != null ==> manager.Valid() && !manager.closed && manager.pdfView.attached
    }

    /** `onAttachedToEngine`: the channels exist, no worker, no session. */
    constructor (host: Host)
      ensures Valid() && this.host == host && backgroundHandler == null && manager == null
    {
      this.host := host;
      backgroundHandler := null;
      manager := null;
    }

    /** The `synchronized` block: the worker is created on first use and reused afterwards. */
    method EnsureWorker()
      modifies this
      ensures backgroundHandler != null
      ensures old(backgroundHandler) != null ==> backgroundHandler == old(backgroundHandler)
      ensures old(backgroundHandler) == null ==> fresh(backgroundHandler)
      ensures manager == old(manager)
    {
      if backgroundHandler == null {
        backgroundHandler := new Worker();
      }
    }

    /**
     * `openPDF(call, result)`: a new manager unless the slot holds an open
     * one, then its view is added to the activity and the file load starts.
     * Re-adding the view of a reused manager throws, because it already has
     * a parent.
     */
    method OpenPdf(call: MethodCall) returns (threw: bool)
      requires Valid()
      modifies this, manager, if manager != null then {manager.pdfView} else {}
      ensures Valid()
      ensures host.replies == old(host.replies) && host.invocations == old(host.invocations)
      ensures backgroundHandler == old(backgroundHandler)
      ensures manager != null && manager.pdfView != null && manager.pdfView.attached
      ensures (old(manager) == null || old(manager.closed)) <==> fresh(manager)
      ensures fresh(manager) ==>
        && manager.nightMode == call.args.nightMode
        && manager.pdfView.layout == call.args.rect
        && manager.fetches == []
        && (threw <==> TargetOf(call.args.position).None?)
        && manager.loads == (if threw then [] else [Pending(call.id, TargetOf(call.args.position).value)])
      ensures fresh(manager) ==> fresh(manager.pdfView)
      ensures !fresh(manager) ==>
        manager == old(manager) && threw
        && manager.loads == old(manager.loads) && manager.fetches == old(manager.fetches)
        && manager.pdfView == old(manager.pdfView) && manager.pdfView.layout == old(manager.pdfView.layout)
        && manager.pdfView.Current() == old(manager.pdfView.Current())
    {
      if manager == null || manager.closed {
        manager := new Manager(call.args.nightMode);
      }
      threw := manager.pdfView.AttachTo(call.args.rect);
      if !threw {
        threw := manager.OpenPdf(call.id, call.args.position);
      }
    }

    /** `openPdfFromNetwork(call, result)`: as `OpenPdf`, with a network fetch instead of a file load. */
    method OpenPdfFromNetwork(call: MethodCall) returns (threw: bool)
      requires Valid()
      modifies this, manager, if manager != null then {manager.pdfView} else {}
      ensures Valid()
      ensures host.replies == old(host.replies) && host.invocations == old(host.invocations)
      ensures backgroundHandler == old(backgroundHandler)
      ensures manager != null && manager.pdfView != null && manager.pdfView.attached
      ensures (old(manager) == null || old(manager.closed)) <==> fresh(manager)
      ensures fresh(manager) ==>
        && manager.nightMode == call.args.nightMode
        && manager.pdfView.layout == call.args.rect
        && manager.loads == []
        && (threw <==> TargetOf(call.args.position).None?)
        && manager.fetches == (if threw then [] else [Pending(call.id, TargetOf(call.args.position).value)])
      ensures fresh(manager) ==> fresh(manager.pdfView)
      ensures !fresh(manager) ==>
        manager == old(manager) && threw
        && manager.loads == old(manager.loads) && manager.fetches == old(manager.fetches)
        && manager.pdfView == old(manager.pdfView) && manager.pdfView.layout == old(manager.pdfView.layout)
        && manager.pdfView.Current() == old(manager.pdfView.Current())
    {
      if manager == null || manager.closed {
        manager := new Manager(call.args.nightMode);
      }
      threw := manager.pdfView.AttachTo(call.args.rect);
      if !threw {
        threw := manager.OpenPdfFromNetwork(call.id, call.args.position);
      }
    }

    /** `resize(call, result)`: new layout when there is a session; always replies `null` once. */
    method Resize(call: MethodCall)
      requires Valid()
      modifies host, if manager != null then {manager.pdfView} else {}
      ensures Valid()
      ensures host.replies == old(host.replies) + [Reply(call.id, Success(Null))]
      ensures host.invocations == old(host.invocations)
      ensures old(manager) != null ==>
        manager.pdfView.layout == call.args.rect && manager.pdfView.Current() == old(manager.pdfView.Current())
    {
      if manager != null {
        manager.Resize(call.args.rect);
      }
      host.SendSuccess(call.id, Null);
    }

    /** `close(call, result)`: closes and drops the session when there is one; otherwise does nothing at all. */
    method Close(call: MethodCall)
      requires Valid()
      modifies this, host, manager, if manager != null then {manager.pdfView} else {}
      ensures Valid() && manager == null
      ensures backgroundHandler == old(backgroundHandler)
      ensures old(manager) == null ==>
        host.replies == old(host.replies) && host.invocations == old(host.invocations)
      ensures old(manager) != null ==>
        && old(manager).closed && old(manager).pdfView == null && !old(manager.pdfView).attached
        && host.replies == old(host.replies)
             + [Reply(call.id, Success(Position(PositionMap(old(manager.pdfView.Current())))))]
        && host.invocations == old(host.invocations) + ["onDestroy"]
        && old(manager).loads == old(manager.loads) && old(manager).fetches == old(manager.fetches)
    {
      if manager != null {
        manager.Close(Some(call.id), host);
        manager := null;
      }
    }

    /**
     * `onMethodCall(call, result)`: make sure the worker exists, then run the
     * one handler `call.name` selects.  `sent` is what reaches `call`'s
     * result object before the call is done; `threw` says the handler died
     * on an exception; `trace` is the native handles the handler touched.
     */
    method OnMethodCall(call: MethodCall, native: Rasterizer.Native)
      returns (threw: bool, sent: seq<Reply>, trace: seq<Rasterizer.NativeEvent>)
      requires Valid()
      modifies this, host, manager, if manager != null then {manager.pdfView} else {}
      ensures Valid()
      ensures backgroundHandler != null
      ensures old(backgroundHandler) != null ==> backgroundHandler == old(backgroundHandler)
      ensures old(backgroundHandler) == null ==> fresh(backgroundHandler)
      ensures host.replies == old(host.replies) + sent
      ensures forall i :: 0 <= i < |sent| ==> sent[i].call == call.id
      ensures |sent| == SynchronousReplies(Route(call.name), old(manager) != null)
      ensures RepliesTo(host.replies, call.id) == RepliesTo(old(host.replies), call.id) + |sent|
      ensures forall other :: other != call.id ==>
        RepliesTo(host.replies, other) == RepliesTo(old(host.replies), other)
      ensures threw ==> Route(call.name) in {Launch, LaunchFromNetwork}
      ensures Route(call.name) !in {GetNumberOfPages, GetPage} ==> trace == []
      ensures Route(call.name) !in {Launch, LaunchFromNetwork, Handler.Close} ==> manager == old(manager)
      ensures Route(call.name) != Handler.Close ==> host.invocations == old(host.invocations)
      ensures Route(call.name) == GetNumberOfPages ==>
        var r := Rasterizer.NumberOfPages(native, call.args.filePath);
        sent == [Reply(call.id, Success(TextPayload(r.text)))] && trace == r.trace
      ensures Route(call.name) == GetPage ==>
        var r := Rasterizer.PageOutcome(native, call.args.filePath, call.args.pageNumber);
        sent == [Reply(call.id, Success(TextPayload(r.text)))] && trace == r.trace
      ensures Route(call.name) == Handler.Resize ==>
        sent == [Reply(call.id, Success(Null))]
        && (old(manager) != null ==> manager.pdfView.layout == call.args.rect)
      ensures Route(call.name) == Unknown ==> sent == [Reply(call.id, NotImplemented)]
      ensures Route(call.name) in {GetNumberOfPages, GetPage, Listen, Unknown, Handler.Resize} && old(manager) != null ==>
        && manager.pdfView == old(manager.pdfView)
        && manager.loads == old(manager.loads) && manager.fetches == old(manager.fetches)
        && manager.pdfView.Current() == old(manager.pdfView.Current())
      ensures Route(call.name) in {GetNumberOfPages, GetPage, Listen, Unknown} && old(manager) != null ==>
        manager.pdfView.layout == old(manager.pdfView.layout)
      ensures Route(call.name) == Handler.Close ==>
        && manager == null
        && (old(manager) != null ==>
              sent == [Reply(call.id, Success(Position(PositionMap(old(manager.pdfView.Current())))))]
              && host.invocations == old(host.invocations) + ["onDestroy"]
              && old(manager).closed
              && old(manager).loads == old(manager.loads) && old(manager).fetches == old(manager.fetches))
        && (old(manager) == null ==> host.invocations == old(host.invocations))
      ensures Route(call.name) in {Launch, LaunchFromNetwork} ==>
        && manager != null && manager.pdfView.attached
        && ((old(manager) == null || old(manager.closed)) <==> fresh(manager))
        && (fresh(manager) ==> fresh(manager.pdfView))
        && (!fresh(manager) ==>
              manager == old(manager) && threw && manager.pdfView == old(manager.pdfView)
              && manager.loads == old(manager.loads) && manager.fetches == old(manager.fetches)
              && manager.pdfView.layout == old(manager.pdfView.layout)
              && manager.pdfView.Current() == old(manager.pdfView.Current()))
        && (fresh(manager) ==>
              && (threw <==> TargetOf(call.args.position).None?)
              && manager.nightMode == call.args.nightMode
              && manager.pdfView.layout == call.args.rect)
      ensures Route(call.name) == Launch && fresh(manager) ==>
        && manager.fetches == []
        && manager.loads == (if threw then [] else [Pending(call.id, TargetOf(call.args.position).value)])
      ensures Route(call.name) == LaunchFromNetwork && fresh(manager) ==>
        && manager.loads == []
        && manager.fetches == (if threw then [] else [Pending(call.id, TargetOf(call.args.position).value)])
    {
      EnsureWorker();
      threw, trace := false, [];
      var before := host.replies;
      match Route(call.name) {
      case GetNumberOfPages =>
        var r := Rasterizer.NumberOfPages(native, call.args.filePath);
        trace := r.trace;
        host.SendSuccess(call.id, TextPayload(r.text));
      case GetPage =>
        var path;
        path, trace := Rasterizer.GetPage(native, call.args.filePath, call.args.pageNumber);
        host.SendSuccess(call.id, TextPayload(path));
      case Launch =>
        threw := OpenPdf(call);
      case LaunchFromNetwork =>
        threw := OpenPdfFromNetwork(call);
      case Resize =>
        Resize(call);
      case Close =>
        Close(call);
      case Listen =>
      case Unknown =>
        host.SendNotImplemented(call.id);
      }
      sent := host.replies[|before|..];
      assert host.replies == before + sent;
      RepliesToConcat(before, sent, call.id);
      RepliesToBatch(sent, call.id);
      forall other | other != call.id
        ensures RepliesTo(host.replies, other) == RepliesTo(old(host.replies), other)
      {
        RepliesToConcat(before, sent, other);
        RepliesToBatchOthers(sent, call.id, other);
      }
    }
  }

  /**
   * Two `launch` calls without a `close` in between: the first opens a
   * session and registers its listener; the second reuses the open manager,
   * whose view already has a parent, and dies in `addContentView` without a
   * reply.  That exception is uncaught on the UI thread, so on a device the
   * process ends there; the model only stops the handler, and the two
   * `close` calls after it (one reply, then nothing) happen in the model only.
   */
  method RelaunchWithoutClose(v: Viewport, native: Rasterizer.Native)
    returns (firstThrew: bool, secondThrew: bool, replies: seq<Reply>, invocations: seq<string>)
    ensures !firstThrew && secondThrew
    ensures replies == [Reply(3, Success(Position(PositionMap(v))))]
    ensures invocations == ["onDestroy"]
  {
    var host := new Host();
    var plugin := new PdfReaderPlugin(host);
    var args := Args("", 0, "doc.pdf", false, PositionMap(v), None);
    var sent, trace;
    assert Route("launch") == Launch && Route("close") == Handler.Close;
    firstThrew, sent, trace := plugin.OnMethodCall(MethodCall(1, "launch", args), native);
    var m := plugin.manager;
    m.LoadCompleted(0, false, false, host);
    assert host.replies == [Reply(1, Success(Flag(true)))];
    assert plugin.manager == m && !m.closed;
    secondThrew, sent, trace := plugin.OnMethodCall(MethodCall(2, "launch", args), native);
    var ignored;
    ignored, sent, trace := plugin.OnMethodCall(MethodCall(3, "close", args), native);
    ignored, sent, trace := plugin.OnMethodCall(MethodCall(4, "close", args), native);
    replies, invocations := host.replies[1..], host.invocations;
  }
}
