/** The print dialog's state machine: the page selection it holds, the
    progress counter that doubles as the print lock (-1 idle, 0 or more
    printing), the canvas renders it has in flight, the queue of page and
    notes images it joins, and the engine watermark it saves when the dialog
    opens and puts back when it closes. The document engine is a second
    object, `DocumentCore`, holding the engine state the dialog reads and
    changes. Asynchronous callbacks are separate method calls that the
    environment may make in any order. */
module PrintModal {
  import opened PageSelection
  import opened PrintRotation
  import opened PrintQueue

  /** What the engine reports for one page: `getPageInfo(pageIndex)` gives the
      size, `getCompleteRotation` and `getRotation` of page `pageIndex + 1`
      the two rotations. */
  datatype PageInfo = PageInfo(width: real, height: real, completeRotation: int, viewerRotation: int)

  /** A watermark setting as the engine stores it: absent, `null`, or an
      object with some keys. */
  datatype Watermark = Undefined | Null | Config(settings: map<string, string>)

  /** One `loadCanvasAsync` call and the handle the engine returned for it. */
  datatype CanvasRequest = CanvasRequest(handle: nat, pageIndex: int, zoom: int, pageRotation: int)

  /** The dialog's form: the checked "pages" radio button, the text of the
      custom-range box and the "include comments" checkbox. */
  datatype PrintForm = PrintForm(mode: PrintMode, customInput: string, includeComments: bool)

  /** The viewer state the dialog receives from the store. */
  datatype ViewerProps = ViewerProps(currentPage: int, layoutMode: LayoutMode, pageLabels: seq<string>)

  /** The rotation `getPrintRotation` computes for the page with this index. */
  function PrintRotationOfPage(pageInfo: int -> PageInfo, pageIndex: int): int {
    var info := pageInfo(pageIndex);
    PagePrintRotation(info.completeRotation, info.viewerRotation, info.width, info.height)
  }

  /** `getPrintRotation` reads the page's size and rotations from the engine:
      for engine rotations in 0..3 the result is in 0..3, odd for landscape
      and even for portrait pages. */
  lemma {:induction false} PrintRotationOfPageFacts(pageInfo: int -> PageInfo, pageIndex: int)
    ensures var r := PrintRotationOfPage(pageInfo, pageIndex);
      var info := pageInfo(pageIndex);
      0 <= info.completeRotation < 4 && 0 <= info.viewerRotation < 4 ==>
        && 0 <= r < 4
        && (info.width > info.height ==> r % 2 == 1)
        && (info.height > info.width ==> r % 2 == 0)
  {
  }

  /** The render request `creatingImage` issues for 1-based `page` under
      `handle`: 0-based page index, zoom 1, the page's print rotation. */
  function PageRequest(pageInfo: int -> PageInfo, page: int, handle: nat): CanvasRequest {
    CanvasRequest(handle, page - 1, 1, PrintRotationOfPage(pageInfo, page - 1))
  }

  /** A page's render request: it names the page by its 0-based index, at
      zoom 1, and for engine rotations in 0..3 its rotation is a quarter-turn
      count in 0..3 whose parity matches the page's orientation. */
  lemma {:induction false} PageRequestFacts(pageInfo: int -> PageInfo, page: int, handle: nat)
    ensures var r := PageRequest(pageInfo, page, handle);
      var info := pageInfo(page - 1);
      && r.handle == handle && r.pageIndex + 1 == page && r.zoom == 1
      && r.pageRotation == PrintRotationOfPage(pageInfo, r.pageIndex)
      && (0 <= info.completeRotation < 4 && 0 <= info.viewerRotation < 4 ==>
            && 0 <= r.pageRotation < 4
            && (info.width > info.height ==> r.pageRotation % 2 == 1)
            && (info.height > info.width ==> r.pageRotation % 2 == 0))
  {
  }

  /** The render requests `creatingImage` issues for the page images among
      `jobs`: 0-based page index, zoom 1, the page's print rotation. */
  function RenderRequests(jobs: seq<Job>, pageInfo: int -> PageInfo): seq<CanvasRequest> {
    if jobs == [] then []
    else
      (if jobs[0].ImageJob?
       then [PageRequest(pageInfo, jobs[0].page, jobs[0].handle)]
       else [])
      + RenderRequests(jobs[1..], pageInfo)
  }

  lemma {:induction false} RenderRequestsAppend(a: seq<Job>, b: seq<Job>, pageInfo: int -> PageInfo)
    ensures RenderRequests(a + b, pageInfo) == RenderRequests(a, pageInfo) + RenderRequests(b, pageInfo)
  {
    if a == [] {
      assert a + b == b;
    } else {
      assert (a + b)[0] == a[0] && (a + b)[1..] == a[1..] + b;
      RenderRequestsAppend(a[1..], b, pageInfo);
    }
  }

  /** `allowWatermarkModal`: the user may pick a watermark only when the
      document has none (undefined, null or an object without keys). */
  predicate AllowsWatermarkModal(w: Watermark) {
    match w
    case Undefined => true
    case Null => true
    case Config(settings) => |settings| == 0
  }

  /** The watermark modal is offered exactly when the document has no
      watermark settings: any watermark object with a key rules it out. */
  lemma {:induction false} WatermarkModalOnlyWithoutWatermark(w: Watermark)
    ensures AllowsWatermarkModal(w) <==> !(w.Config? && |w.settings| > 0)
    ensures AllowsWatermarkModal(Config(map[]))
  {
  }

  /** The document engine, as far as the print dialog uses it. */
  class DocumentCore {
    const totalPages: nat
    const pageInfo: int -> PageInfo
    var annotations: seq<Annotation>
    var watermark: Watermark
    /** Every `loadCanvasAsync` call so far, in order. */
    var requests: seq<CanvasRequest>
    /** Every `cancelLoadCanvas` call so far, in order. */
    var cancelled: seq<nat>
    /** Handles below this one have been given out. */
    var nextHandle: nat

    ghost predicate Valid()
      reads this
    {
      forall i :: 0 <= i < |requests| ==> requests[i].handle < nextHandle
    }

    constructor (totalPages: nat, pageInfo: int -> PageInfo, annotations: seq<Annotation>, watermark: Watermark)
      ensures Valid()
      ensures this.totalPages == totalPages && this.pageInfo == pageInfo
      ensures this.annotations == annotations && this.watermark == watermark
      ensures requests == [] && cancelled == [] && nextHandle == 0
    {
      this.totalPages := totalPages;
      this.pageInfo := pageInfo;
      this.annotations := annotations;
      this.watermark := watermark;
      requests := [];
      cancelled := [];
      nextHandle := 0;
    }

    /** `loadCanvasAsync`: start a render and return a handle never given out before. */
    method LoadCanvasAsync(pageIndex: int, zoom: int, pageRotation: int) returns (handle: nat)
      requires Valid()
      modifies this`requests, this`nextHandle
      ensures Valid()
      ensures old(nextHandle) <= handle < nextHandle
      ensures requests == old(requests) + [CanvasRequest(handle, pageIndex, zoom, pageRotation)]
    {
      handle := nextHandle;
      nextHandle := nextHandle + 1;
      requests := requests + [CanvasRequest(handle, pageIndex, zoom, pageRotation)];
    }

    /** `cancelLoadCanvas`: ask the engine to drop a render. */
    method CancelLoadCanvas(handle: nat)
      modifies this`cancelled
      ensures cancelled == old(cancelled) + [handle]
    {
      cancelled := cancelled + [handle];
    }

    method SetWatermark(w: Watermark)
      modifies this`watermark
      ensures watermark == w
    {
      watermark := w;
    }
  }

  /** The print dialog component (`PrintModal`). */
  class PrintDialog {
    const core: DocumentCore
    /** The store's `isOpen` as the component last saw it. */
    var isOpen: bool
    var pagesToPrint: seq<int>
    /** Pages finished by the current job; -1 when no job is running. */
    var count: int
    /** Handles of the renders of the current job whose canvas has not come back. */
    var pendingCanvases: seq<nat>
    var allowWatermarkModal: bool
    var watermarkModalOption: Watermark
    var existingWatermarks: Watermark
    /** The promises of the current job, in the order `creatingPages` made them. */
    var jobs: seq<Job>
    /** Handles whose canvas came back (`onCanvasLoaded` ran). */
    var loaded: set<nat>
    /** Handles whose page image finished loading (the promise resolved). */
    var resolved: set<nat>
    /** The current job's `Promise.all` has not settled yet. */
    var awaitingJoin: bool
    /** Every list of images handed to the browser's print, in order. */
    var printed: seq<seq<PrintItem>>

    ghost predicate Valid()
      reads this, core
    {
      && core.Valid()
      && count >= -1
      && Distinct(Handles(jobs))
      && (forall h :: h in Handles(jobs) ==> h < core.nextHandle)
      && (forall h :: h in loaded ==> h < core.nextHandle)
      && resolved <= loaded
      && pendingCanvases == Unloaded(Handles(jobs), loaded)
    }

    constructor (core: DocumentCore)
      requires core.Valid()
      ensures Valid() && this.core == core
      ensures !isOpen && pagesToPrint == [] && count == -1 && pendingCanvases == []
      ensures !allowWatermarkModal && watermarkModalOption == Null && existingWatermarks == Null
      ensures jobs == [] && loaded == {} && resolved == {} && !awaitingJoin && printed == []
    {
      this.core := core;
      isOpen := false;
      pagesToPrint := [];
      count := -1;
      pendingCanvases := [];
      allowWatermarkModal := false;
      watermarkModalOption := Null;
      existingWatermarks := Null;
      jobs := [];
      loaded := {};
      resolved := {};
      awaitingJoin := false;
      printed := [];
    }

    /** The print button is disabled exactly while a job is printing. */
    function PrintButtonDisabled(): (disabled: bool)
      reads this
      requires count >= -1
      ensures disabled <==> count != -1
    {
      count > -1
    }

    /** `onChange`: recompute the pages to print from the form. */
    method OnChange(form: PrintForm, props: ViewerProps, parse: PageRangeParser)
      requires Valid()
      modifies this`pagesToPrint
      ensures Valid()
      ensures IsSelection(pagesToPrint, form.mode, props.layoutMode, core.totalPages,
                          props.currentPage, form.customInput, props.pageLabels, parse)
    {
      pagesToPrint := SelectPages(form.mode, props.layoutMode, core.totalPages,
                                  props.currentPage, form.customInput, props.pageLabels, parse);
    }

    /** `componentDidUpdate` when the store opens the dialog: select pages,
        record the engine's watermark and allow the watermark modal only when
        there is none. Nothing happens if the dialog was already open. */
    method Opened(form: PrintForm, props: ViewerProps, parse: PageRangeParser)
      requires Valid()
      modifies this`isOpen, this`pagesToPrint, this`allowWatermarkModal, this`existingWatermarks
      ensures Valid() && isOpen
      ensures old(isOpen) ==>
        && pagesToPrint == old(pagesToPrint)
        && allowWatermarkModal == old(allowWatermarkModal)
        && existingWatermarks == old(existingWatermarks)
      ensures !old(isOpen) ==>
        && IsSelection(pagesToPrint, form.mode, props.layoutMode, core.totalPages,
                       props.currentPage, form.customInput, props.pageLabels, parse)
        && existingWatermarks == core.watermark
        && allowWatermarkModal == AllowsWatermarkModal(core.watermark)
    {
      if !isOpen {
        OnChange(form, props, parse);
        existingWatermarks := core.watermark;
        allowWatermarkModal := AllowsWatermarkModal(core.watermark);
      }
      isOpen := true;
    }

    /** `componentDidUpdate` when the store closes the dialog: put back the
        watermark recorded on opening. Nothing happens if it was closed. */
    method Closed()
      requires Valid()
      modifies this`isOpen, core`watermark
      ensures Valid() && !isOpen
      ensures old(isOpen) ==> core.watermark == existingWatermarks
      ensures !old(isOpen) ==> core.watermark == old(core.watermark)
    {
      if isOpen {
        core.SetWatermark(existingWatermarks);
      }
      isOpen := false;
    }

    /** The watermark modal's form was submitted with these settings. */
    method SetWatermarkModalOption(option: Watermark)
      requires Valid()
      modifies this`watermarkModalOption
      ensures Valid() && watermarkModalOption == option
    {
      watermarkModalOption := option;
    }

    /** `createPagesAndPrint`: refuse an empty selection; otherwise start
        counting from 0, apply the chosen watermark (the modal's when it is
        allowed, the recorded one otherwise) and queue the pages. */
    method CreatePagesAndPrint(form: PrintForm, sortNotes: NoteSorter)
      requires Valid()
      modifies this`count, this`pendingCanvases, this`jobs, this`awaitingJoin
      modifies core`watermark, core`requests, core`nextHandle
      ensures Valid()
      ensures |pagesToPrint| < 1 ==> unchanged(this) && unchanged(core)
      ensures |pagesToPrint| >= 1 ==> PrintButtonDisabled()
      ensures |pagesToPrint| >= 1 ==>
        && count == 0
        && awaitingJoin
        && core.watermark == (if allowWatermarkModal then watermarkModalOption else existingWatermarks)
        && Items(jobs) == QueueOrder(pagesToPrint, form.includeComments, core.annotations, sortNotes)
        && pendingCanvases == Handles(jobs) && |pendingCanvases| == |pagesToPrint|
        && (forall h :: h in Handles(jobs) ==> old(core.nextHandle) <= h)
        && core.requests == old(core.requests) + RenderRequests(jobs, core.pageInfo)
    {
      if |pagesToPrint| < 1 {
        return;
      }
      count := 0;
      if allowWatermarkModal {
        core.SetWatermark(watermarkModalOption);
      } else {
        core.SetWatermark(existingWatermarks);
      }
      CreatingPages(form.includeComments, sortNotes);
      awaitingJoin := true;
    }

    /** `creatingPages`: forget the pending handles, then queue the entries
        of each selected page in selection order. */
    method CreatingPages(includeComments: bool, sortNotes: NoteSorter)
      requires Valid()
      modifies this`pendingCanvases, this`jobs, core`requests, core`nextHandle
      ensures Valid()
      ensures Items(jobs) == QueueOrder(pagesToPrint, includeComments, core.annotations, sortNotes)
      ensures pendingCanvases == Handles(jobs) && |pendingCanvases| == |pagesToPrint|
      ensures forall h :: h in Handles(jobs) ==> old(core.nextHandle) <= h
      ensures core.requests == old(core.requests) + RenderRequests(jobs, core.pageInfo)
    {
      pendingCanvases := [];
      jobs := [];
      ghost var lo := core.nextHandle;
      QueueSelectedPages(includeComments, sortNotes);
      NoneLoadedYet(pendingCanvases, loaded, lo);
      OneHandlePerPage(jobs, pagesToPrint, includeComments, core.annotations, sortNotes);
    }

    /** The loop of `creatingPages`: queue the entries of each selected page,
        in selection order, each page with a render of its own. */
    method QueueSelectedPages(includeComments: bool, sortNotes: NoteSorter)
      requires core.Valid()
      requires jobs == [] && pendingCanvases == []
      modifies this`pendingCanvases, this`jobs, core`requests, core`nextHandle
      ensures core.Valid()
      ensures old(core.nextHandle) <= core.nextHandle
      ensures Items(jobs) == QueueOrder(pagesToPrint, includeComments, core.annotations, sortNotes)
      ensures pendingCanvases == Handles(jobs)
      ensures FreshHandles(pendingCanvases, old(core.nextHandle), core.nextHandle)
      ensures core.requests == old(core.requests) + RenderRequests(jobs, core.pageInfo)
    {
      var i := 0;
      ghost var lo := core.nextHandle;
      ghost var issued := core.requests;
      while i < |pagesToPrint|
        invariant 0 <= i <= |pagesToPrint|
        invariant core.Valid()
        invariant lo <= core.nextHandle
        invariant Items(jobs) == QueueOrder(pagesToPrint[..i], includeComments, core.annotations, sortNotes)
        invariant pendingCanvases == Handles(jobs)
        invariant FreshHandles(pendingCanvases, lo, core.nextHandle)
        invariant core.requests == issued + RenderRequests(jobs, core.pageInfo)
      {
        ghost var before := core.nextHandle;
        ghost var pending := pendingCanvases;
        ghost var queued := jobs;
        var id := QueuePage(pagesToPrint[i], includeComments, sortNotes);
        QueueStep(queued, jobs, pagesToPrint, i, includeComments, core.annotations, sortNotes);
        FreshHandlesExtend(pending, id, lo, before, core.nextHandle);
        i := i + 1;
      }
      assert pagesToPrint[..i] == pagesToPrint;
    }

    /** One round of `creatingPages`: issue the page's render and queue its
        image, then its notes page when comments are included and the page
        has printable annotations. */
    method QueuePage(page: int, includeComments: bool, sortNotes: NoteSorter) returns (id: nat)
      requires core.Valid()
      requires pendingCanvases == Handles(jobs)
      modifies this`pendingCanvases, this`jobs, core`requests, core`nextHandle
      ensures core.Valid()
      ensures old(core.nextHandle) <= id < core.nextHandle
      ensures Items(jobs) == Items(old(jobs)) + PageItems(page, includeComments, core.annotations, sortNotes)
      ensures pendingCanvases == old(pendingCanvases) + [id] == Handles(jobs)
      ensures core.requests == old(core.requests) + [PageRequest(core.pageInfo, page, id)]
      ensures RenderRequests(jobs, core.pageInfo) == RenderRequests(old(jobs), core.pageInfo) + [PageRequest(core.pageInfo, page, id)]
    {
      id := CreatingImage(page);
      var step := PageJobs(page, id, includeComments, core.annotations, sortNotes);
      PageJobsAppended(jobs, page, id, includeComments, core.annotations, sortNotes, core.pageInfo);
      jobs := jobs + step;
    }

    /** `creatingImage`: ask the engine to render the page at zoom 1 with its
        print rotation and remember the handle as pending. */
    method CreatingImage(page: int) returns (id: nat)
      requires core.Valid()
      modifies this`pendingCanvases, core`requests, core`nextHandle
      ensures core.Valid()
      ensures old(core.nextHandle) <= id < core.nextHandle
      ensures pendingCanvases == old(pendingCanvases) + [id]
      ensures core.requests == old(core.requests) + [PageRequest(core.pageInfo, page, id)]
    {
      id := core.LoadCanvasAsync(page - 1, 1, PrintRotationOfPage(core.pageInfo, page - 1));
      pendingCanvases := pendingCanvases + [id];
    }

    /** `onCanvasLoaded` (the start of the render callback): drop the handle
        from the pending ones. Drawing the canvas is outside this model. */
    method OnCanvasLoaded(id: nat)
      requires Valid()
      requires id < core.nextHandle && id !in loaded
      modifies this`pendingCanvases, this`loaded
      ensures Valid()
      ensures pendingCanvases == Remove(old(pendingCanvases), id)
      ensures forall i :: 0 <= i < |old(pendingCanvases)| && old(pendingCanvases)[i] == id ==>
        pendingCanvases == old(pendingCanvases)[..i] + old(pendingCanvases)[i + 1..]
      ensures loaded == old(loaded) + {id}
      ensures PrintButtonDisabled() == old(PrintButtonDisabled())
    {
      UnloadedAfterLoad(Handles(jobs), loaded, id);
      UnloadedDistinct(Handles(jobs), loaded);
      forall i | 0 <= i < |pendingCanvases| && pendingCanvases[i] == id
        ensures Remove(pendingCanvases, id) == pendingCanvases[..i] + pendingCanvases[i + 1..]
      {
        RemoveOccurrence(pendingCanvases, i);
      }
      pendingCanvases := Remove(pendingCanvases, id);
      loaded := loaded + {id};
    }

    /** `img.onload`: count one more finished page unless no job is running
        (then the counter stays at -1), and resolve the page's promise. */
    method OnImageLoaded(id: nat)
      requires Valid()
      requires id in loaded && id !in resolved
      modifies this`count, this`resolved
      ensures Valid()
      ensures count == if old(count) < 0 then -1 else old(count) + 1
      ensures resolved == old(resolved) + {id}
      ensures PrintButtonDisabled() == old(PrintButtonDisabled())
    {
      count := if count < 0 then -1 else count + 1;
      resolved := resolved + {id};
    }

    /** Every page image of the current job has resolved (notes pages resolve at once). */
    predicate JoinReady()
      reads this
    {
      forall h :: h in Handles(jobs) ==> h in resolved
    }

    /** `Promise.all(...).then`: hand the images to the browser's print in
        queue order (`printPages`), then close the dialog. */
    method OnPagesJoined()
      requires Valid()
      requires awaitingJoin && JoinReady()
      modifies this`printed, this`awaitingJoin, this`count, this`isOpen, core`watermark
      ensures Valid()
      ensures printed == old(printed) + [Items(jobs)]
      ensures !awaitingJoin && count == -1 && !isOpen && !PrintButtonDisabled()
      ensures old(isOpen) ==> core.watermark == existingWatermarks
      ensures !old(isOpen) ==> core.watermark == old(core.watermark)
    {
      printed := printed + [Items(jobs)];
      awaitingJoin := false;
      ClosePrintModal();
    }

    /** `closePrintModal`: stop counting and have the store close the dialog. */
    method ClosePrintModal()
      requires Valid()
      modifies this`count, this`isOpen, core`watermark
      ensures Valid()
      ensures count == -1 && !isOpen && !PrintButtonDisabled()
      ensures old(isOpen) ==> core.watermark == existingWatermarks
      ensures !old(isOpen) ==> core.watermark == old(core.watermark)
    {
      count := -1;
      Closed();
    }

    /** `cancelPrint`: ask the engine to cancel every pending render, in
        order, and stop counting. The pending list itself is kept. */
    method CancelPrint()
      requires Valid()
      modifies this`count, core`cancelled
      ensures Valid()
      ensures core.cancelled == old(core.cancelled) + pendingCanvases
      ensures count == -1 && !PrintButtonDisabled()
    {
      var i := 0;
      while i < |pendingCanvases|
        invariant 0 <= i <= |pendingCanvases|
        invariant core.cancelled == old(core.cancelled) + pendingCanvases[..i]
      {
        core.CancelLoadCanvas(pendingCanvases[i]);
        assert pendingCanvases[..i + 1] == pendingCanvases[..i] + [pendingCanvases[i]];
        i := i + 1;
      }
      assert pendingCanvases[..i] == pendingCanvases;
      count := -1;
    }
  }

  /** Handles that are all different and all given out in [lo, hi). */
  predicate FreshHandles(hs: seq<nat>, lo: nat, hi: nat) {
    Distinct(hs) && forall h :: h in hs ==> lo <= h < hi
  }

  lemma {:induction false} FreshHandlesExtend(hs: seq<nat>, id: nat, lo: nat, mid: nat, hi: nat)
    requires FreshHandles(hs, lo, mid) && lo <= mid <= id < hi
    ensures FreshHandles(hs + [id], lo, hi)
  {
    assert forall k :: 0 <= k < |hs| ==> (hs + [id])[k] == hs[k] && hs[k] in hs;
  }

  /** Handles issued after every loaded one are all still pending. */
  lemma {:induction false} NoneLoadedYet(hs: seq<nat>, loaded: set<nat>, lo: nat)
    requires forall h :: h in hs ==> lo <= h
    requires forall h :: h in loaded ==> h < lo
    ensures Unloaded(hs, loaded) == hs
  {
  }

  /** A queue built for `pages` waits on one render per selected page. */
  lemma {:induction false} OneHandlePerPage(jobs: seq<Job>, pages: seq<int>, includeComments: bool,
                         annotations: seq<Annotation>, sortNotes: NoteSorter)
    requires Items(jobs) == QueueOrder(pages, includeComments, annotations, sortNotes)
    ensures |Handles(jobs)| == |pages|
  {
    QueueImagesFollowSelection(pages, includeComments, annotations, sortNotes);
    HandlesMatchImages(jobs);
  }

  /** One round of the `creatingPages` loop appends the entries of the next
      selected page to the queue. */
  lemma {:induction false} QueueStep(queued: seq<Job>, next: seq<Job>, pages: seq<int>, i: int, includeComments: bool,
                  annotations: seq<Annotation>, sortNotes: NoteSorter)
    requires 0 <= i < |pages|
    requires Items(queued) == QueueOrder(pages[..i], includeComments, annotations, sortNotes)
    requires Items(next) == Items(queued) + PageItems(pages[i], includeComments, annotations, sortNotes)
    ensures Items(next) == QueueOrder(pages[..i + 1], includeComments, annotations, sortNotes)
  {
    QueueOrderExtend(pages, i, includeComments, annotations, sortNotes);
  }

  /** The promises one round of `creatingPages` pushes for a page whose
      render has handle `id`: its image, then its notes page when comments
      are included and the page has printable annotations. */
  function PageJobs(page: int, id: nat, includeComments: bool, annotations: seq<Annotation>, sortNotes: NoteSorter): seq<Job>
  {
    var printable := PrintableAnnotations(annotations, page);
    [ImageJob(page, id)] + if includeComments && |printable| > 0 then [NotesJob(page, sortNotes(printable))] else []
  }

  /** Appending a page's promises appends its entries, its one handle and its
      one render request. */
  lemma {:induction false} PageJobsAppended(queued: seq<Job>, page: int, id: nat, includeComments: bool,
                                            annotations: seq<Annotation>, sortNotes: NoteSorter, pageInfo: int -> PageInfo)
    ensures var next := queued + PageJobs(page, id, includeComments, annotations, sortNotes);
      && Items(next) == Items(queued) + PageItems(page, includeComments, annotations, sortNotes)
      && Handles(next) == Handles(queued) + [id]
      && RenderRequests(next, pageInfo) == RenderRequests(queued, pageInfo) + [PageRequest(pageInfo, page, id)]
  {
    var step := PageJobs(page, id, includeComments, annotations, sortNotes);
    assert Items(step) == PageItems(page, includeComments, annotations, sortNotes);
    assert Items(queued + step) == Items(queued) + Items(step);
    HandleStep(queued, step, pageInfo);
  }

  /** The same round adds exactly one handle and one render request. */
  lemma {:induction false} HandleStep(queued: seq<Job>, step: seq<Job>, pageInfo: int -> PageInfo)
    requires |step| >= 1 && step[0].ImageJob?
    requires forall k :: 1 <= k < |step| ==> step[k].NotesJob?
    ensures Handles(queued + step) == Handles(queued) + [step[0].handle]
    ensures RenderRequests(queued + step, pageInfo) == RenderRequests(queued, pageInfo)
      + [PageRequest(pageInfo, step[0].page, step[0].handle)]
  {
    HandlesAppend(queued, step);
    RenderRequestsAppend(queued, step, pageInfo);
    NotesOnly(step[1..], pageInfo);
    assert step == [step[0]] + step[1..];
    HandlesAppend([step[0]], step[1..]);
    RenderRequestsAppend([step[0]], step[1..], pageInfo);
    assert [step[0]][1..] == [];
  }

  lemma {:induction false} NotesOnly(jobs: seq<Job>, pageInfo: int -> PageInfo)
    requires forall k :: 0 <= k < |jobs| ==> jobs[k].NotesJob?
    ensures Handles(jobs) == [] && RenderRequests(jobs, pageInfo) == []
  {
    if jobs != [] {
      NotesOnly(jobs[1..], pageInfo);
    }
  }
}
