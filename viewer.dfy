/**
 * One viewer session (`FlutterFullPdfViewerManager`) and the view it owns.
 * The view library is not modelled beyond the state the manager reads and
 * writes: zoom, offsets, layout, and whether the view sits in a parent.
 * Asynchronous steps (a load finishing, a network fetch finishing) are
 * methods the environment calls; which pending entry completes, and whether
 * a library call throws, are their parameters.
 */
module Viewer {
  import opened Wrappers
  import opened Channels

  datatype Viewport = Viewport(zoom: real, xOffset: real, yOffset: real)

  /** The optional `rect` argument; `None` fills the display. */
  datatype Rect = Rect(left: int, top: int, width: int, height: int)

  /** The map `close` replies with for a view showing `v`. */
  function PositionMap(v: Viewport): (m: map<string, real>)
    ensures m.Keys == {"Zoom", "XOffset", "YOffset"}
  {
    map["Zoom" := v.zoom, "XOffset" := v.xOffset, "YOffset" := v.yOffset]
  }

  /**
   * The target viewport `openPDF`/`openPdfFromNetwork` read from the
   * `Position` argument; a missing key makes the unboxing throw.
   */
  function TargetOf(position: map<string, real>): (r: Option<Viewport>)
    ensures r.Some? <==> "Zoom" in position && "XOffset" in position && "YOffset" in position
    ensures r.Some? ==> r.value.zoom == position["Zoom"] && r.value.xOffset == position["XOffset"]
                        && r.value.yOffset == position["YOffset"]
  {
    if "Zoom" in position && "XOffset" in position && "YOffset" in position
    then Some(Viewport(position["Zoom"], position["XOffset"], position["YOffset"]))
    else None
  }

  /** A map saved from `close` opens the same viewport again. */
  lemma PositionRoundTrip(v: Viewport)
    ensures TargetOf(PositionMap(v)) == Some(v)
  {
  }

  /** The empty map `close` sends when there was no view cannot be reopened: the open throws. */
  lemma EmptyPositionRejected()
    ensures TargetOf(map[]) == None
  {
  }

  /** `PDFView`, seen only through the state the manager touches. */
  class PdfView {
    var zoom: real
    var xOffset: real
    var yOffset: real
    var layout: Option<Rect>
    var attached: bool

    constructor ()
      ensures !attached && layout == None
    {
      zoom, xOffset, yOffset := 1.0, 0.0, 0.0;
      layout := None;
      attached := false;
    }

    function Current(): Viewport
      reads this
    {
      Viewport(zoom, xOffset, yOffset)
    }

    /** `activity.addContentView(view, params)`: Android refuses a view that already has a parent. */
    method AttachTo(rect: Option<Rect>) returns (threw: bool)
      modifies this
      ensures threw == old(attached)
      ensures attached
      ensures layout == if threw then old(layout) else rect
      ensures Current() == old(Current())
    {
      threw := attached;
      if !threw {
        attached := true;
        layout := rect;
      }
    }
  }

  /** A load-complete listener or a fetch in flight: the result it will answer, and the viewport to restore. */
  datatype Pending = Pending(result: CallId, target: Viewport)

  class Manager {
    var pdfView: PdfView?
    var closed: bool
    const nightMode: bool
    /** Load-complete listeners handed to the view that have not fired yet. */
    var loads: seq<Pending>
    /** Network fetches started by `openPdfFromNetwork` that have not finished yet. */
    var fetches: seq<Pending>

    /** `closed` is set exactly when the view has been dropped. */
    ghost predicate Valid()
      reads this
    {
      closed <==> pdfView == null
    }

    constructor (nightMode: bool)
      ensures Valid() && !closed
      ensures pdfView != null && fresh(pdfView) && !pdfView.attached && pdfView.layout == None
      ensures this.nightMode == nightMode && loads == [] && fetches == []
    {
      this.nightMode := nightMode;
      pdfView := new PdfView();
      closed := false;
      loads, fetches := [], [];
    }

    /**
     * `openPDF(path, result, position)`: reads the target, then hands the
     * view a file source and a load-complete listener for `result`.  Nothing
     * is replied now; a load error is never reported, as no error listener is
     * set.
     */
    method OpenPdf(result: CallId, position: map<string, real>) returns (threw: bool)
      modifies this
      ensures threw <==> TargetOf(position).None? || pdfView == null
      ensures loads == old(loads) + (if threw then [] else [Pending(result, TargetOf(position).value)])
      ensures pdfView == old(pdfView) && closed == old(closed) && fetches == old(fetches)
    {
      var target := TargetOf(position);
      threw := target.None? || pdfView == null;
      if !threw {
        loads := loads + [Pending(result, target.value)];
      }
    }

    /** `openPdfFromNetwork(path, result, position)`: reads the target and starts the fetch thread. */
    method OpenPdfFromNetwork(result: CallId, position: map<string, real>) returns (threw: bool)
      modifies this
      ensures threw <==> TargetOf(position).None?
      ensures fetches == old(fetches) + (if threw then [] else [Pending(result, TargetOf(position).value)])
      ensures pdfView == old(pdfView) && closed == old(closed) && loads == old(loads)
    {
      var target := TargetOf(position);
      threw := target.None?;
      if !threw {
        fetches := fetches + [Pending(result, target.value)];
      }
    }

    /**
     * Fetch number `k` finishes.  When the stream arrived and the view is
     * still there, the view gets the stream and the load listener and nothing
     * is replied yet; otherwise the caller gets exactly one `false` and no
     * listener is ever registered for it.
     */
    method FetchFinished(k: nat, fetched: bool, host: Host)
      requires k < |fetches|
      modifies this, host
      ensures fetches == old(fetches[..k] + fetches[k + 1..])
      ensures pdfView == old(pdfView) && closed == old(closed)
      ensures fetched && pdfView != null ==>
        loads == old(loads) + [old(fetches[k])] && host.replies == old(host.replies)
      ensures !(fetched && pdfView != null) ==>
        loads == old(loads) && host.replies == old(host.replies) + [Reply(old(fetches[k]).result, Success(Flag(false)))]
      ensures host.invocations == old(host.invocations)
    {
      var pending := fetches[k];
      fetches := fetches[..k] + fetches[k + 1..];
      if fetched && pdfView != null {
        loads := loads + [pending];
      } else {
        host.SendSuccess(pending.result, Flag(false));
      }
    }

    /**
     * Load listener number `k` fires; after the settle delay the view is
     * zoomed, then moved, and the caller gets exactly one reply: `true` when
     * both steps succeed, `false` when either throws (also when the view has
     * been dropped by a `close` in between).
     */
    method LoadCompleted(k: nat, zoomThrows: bool, moveThrows: bool, host: Host)
      requires k < |loads|
      modifies this, host, pdfView
      ensures loads == old(loads[..k] + loads[k + 1..])
      ensures pdfView == old(pdfView) && closed == old(closed) && fetches == old(fetches)
      ensures host.replies == old(host.replies)
        + [Reply(old(loads[k]).result, Success(Flag(pdfView != null && !zoomThrows && !moveThrows)))]
      ensures host.invocations == old(host.invocations)
      ensures pdfView != null ==>
        pdfView.attached == old(pdfView.attached) && pdfView.layout == old(pdfView.layout)
        && pdfView.zoom == (if zoomThrows then old(pdfView.zoom) else old(loads[k]).target.zoom)
        && (pdfView.xOffset, pdfView.yOffset) ==
           (if zoomThrows || moveThrows then (old(pdfView.xOffset), old(pdfView.yOffset))
            else (old(loads[k]).target.xOffset, old(loads[k]).target.yOffset))
    {
      var pending := loads[k];
      loads := loads[..k] + loads[k + 1..];
      var ok := false;
      if pdfView != null && !zoomThrows {
        pdfView.zoom := pending.target.zoom;
        if !moveThrows {
          pdfView.xOffset, pdfView.yOffset := pending.target.xOffset, pending.target.yOffset;
          ok := true;
        }
      }
      host.SendSuccess(pending.result, Flag(ok));
    }

    /** `resize(params)`: new layout for the view. */
    method Resize(rect: Option<Rect>)
      requires Valid() && !closed
      modifies pdfView
      ensures pdfView.layout == rect
      ensures pdfView.attached == old(pdfView.attached) && pdfView.Current() == old(pdfView.Current())
    {
      pdfView.layout := rect;
    }

    /**
     * `close(call, result)`: snapshot the view into the reply map (empty when
     * there is no view), take the view out of its parent, drop it, reply the
     * map when `result` is non-null, mark the session closed and invoke
     * "onDestroy" on the method channel.
     */
    method Close(result: Option<CallId>, host: Host)
      requires Valid()
      requires pdfView != null ==> pdfView.attached
      modifies this, host, pdfView
      ensures Valid() && closed && pdfView == null
      ensures old(pdfView) != null ==> !old(pdfView).attached && old(pdfView).Current() == old(pdfView.Current())
      ensures host.replies == old(host.replies) +
        (if result.None? then []
         else [Reply(result.value, Success(Position(
           if old(pdfView) == null then map[] else PositionMap(old(pdfView.Current())))))])
      ensures host.invocations == old(host.invocations) + ["onDestroy"]
      ensures loads == old(loads) && fetches == old(fetches)
    {
      var pos: map<string, real> := map[];
      if pdfView != null {
        pos := pos["Zoom" := pdfView.zoom];
        pos := pos["XOffset" := pdfView.xOffset];
        pos := pos["YOffset" := pdfView.yOffset];
        pdfView.attached := false;
      }
      pdfView := null;
      if result.Some? {
        host.SendSuccess(result.value, Position(pos));
      }
      closed := true;
      host.InvokeMethod("onDestroy");
    }

    /** `close()`: the same without a result object, so nothing is replied. */
    method CloseQuietly(host: Host)
      requires Valid()
      requires pdfView != null ==> pdfView.attached
      modifies this, host, pdfView
      ensures Valid() && closed && pdfView == null
      ensures old(pdfView) != null ==> !old(pdfView).attached
      ensures host.replies == old(host.replies)
      ensures host.invocations == old(host.invocations) + ["onDestroy"]
      ensures loads == old(loads) && fetches == old(fetches)
    {
      Close(None, host);
    }
  }

  /**
   * A session opened with viewport `v` whose load completes without a throw
   * replies `true`, and closing it replies `v` again: the saved position
   * round-trips through open and close.  Closing twice sends "onDestroy"
   * twice and an empty map the second time.
   */
  method SessionRoundTrip(v: Viewport, openCall: CallId, closeCall: CallId, againCall: CallId)
    returns (replies: seq<Reply>, invocations: seq<string>)
    ensures replies == [Reply(openCall, Success(Flag(true))),
                        Reply(closeCall, Success(Position(PositionMap(v)))),
                        Reply(againCall, Success(Position(map[])))]
    ensures invocations == ["onDestroy", "onDestroy"]
  {
    var host := new Host();
    var m := new Manager(false);
    var threw := m.pdfView.AttachTo(None);
    threw := m.OpenPdf(openCall, PositionMap(v));
    m.LoadCompleted(0, false, false, host);
    m.Close(Some(closeCall), host);
    m.Close(Some(againCall), host);
    replies, invocations := host.replies, host.invocations;
  }
}
