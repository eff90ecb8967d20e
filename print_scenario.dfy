/** One print job from opening the dialog to the browser's print: a document
    of two pages with no watermark, "all" pages, a watermark chosen in the
    watermark modal, and the two renders coming back in reverse order. */
module PrintScenario {
  import opened PageSelection
  import opened PrintQueue
  import opened PrintModal

  /** The pages are printed in selection order although the second render
      finished first, the counter reaches the number of pages, the modal's
      watermark is on the document while printing, and closing the dialog
      puts back the document's own (absent) watermark. The print button is
      disabled while the job runs and enabled again after it. */
  method PrintTwoPagesOutOfOrder(parse: PageRangeParser, sortNotes: NoteSorter, chosen: Watermark)
    returns (printed: seq<seq<PrintItem>>, countBeforeJoin: int, watermarkWhilePrinting: Watermark,
             watermarkAfterClose: Watermark, countAfterClose: int,
             disabledWhilePrinting: bool, disabledAfterClose: bool)
    ensures printed == [[PageImage(1), PageImage(2)]]
    ensures countBeforeJoin == 2
    ensures watermarkWhilePrinting == chosen
    ensures watermarkAfterClose == Undefined && countAfterClose == -1
    ensures disabledWhilePrinting && !disabledAfterClose
  {
    var dialog := OpenAndPrint(parse, sortNotes, chosen);
    watermarkWhilePrinting := dialog.core.watermark;
    disabledWhilePrinting := dialog.PrintButtonDisabled();
    countBeforeJoin := FinishInReverse(dialog);
    dialog.OnPagesJoined();
    printed := dialog.printed;
    watermarkAfterClose := dialog.core.watermark;
    countAfterClose := dialog.count;
    disabledAfterClose := dialog.PrintButtonDisabled();
  }

  /** Open the dialog on a fresh two-page document without a watermark, pick
      `chosen` in the watermark modal and print all pages without comments. */
  method OpenAndPrint(parse: PageRangeParser, sortNotes: NoteSorter, chosen: Watermark)
    returns (dialog: PrintDialog)
    ensures fresh(dialog) && fresh(dialog.core)
    ensures dialog.Valid() && dialog.isOpen && dialog.existingWatermarks == Undefined
    ensures dialog.core.watermark == chosen && dialog.count == 0 && dialog.awaitingJoin
    ensures Items(dialog.jobs) == [PageImage(1), PageImage(2)]
    ensures dialog.loaded == {} && dialog.resolved == {} && dialog.printed == []
    ensures dialog.pendingCanvases == Handles(dialog.jobs) && |dialog.pendingCanvases| == 2
  {
    dialog := OpenTwoPageDialog(parse, chosen);
    dialog.CreatePagesAndPrint(PrintForm(AllPages, "", false), sortNotes);
    QueueWithoutComments(dialog.pagesToPrint, dialog.core.annotations, sortNotes);
  }

  /** Open the dialog on a fresh two-page document without a watermark, with
      "all" checked, and pick `chosen` in the watermark modal, which the
      missing watermark allows. */
  method OpenTwoPageDialog(parse: PageRangeParser, chosen: Watermark) returns (dialog: PrintDialog)
    ensures fresh(dialog) && fresh(dialog.core)
    ensures dialog.Valid() && dialog.isOpen && dialog.pagesToPrint == [1, 2]
    ensures dialog.allowWatermarkModal && dialog.watermarkModalOption == chosen
    ensures dialog.existingWatermarks == Undefined && dialog.core.watermark == Undefined
    ensures dialog.loaded == {} && dialog.resolved == {} && dialog.printed == []
  {
    var core := new DocumentCore(2, _ => PageInfo(612.0, 792.0, 0, 0), [], Undefined);
    dialog := new PrintDialog(core);
    dialog.Opened(PrintForm(AllPages, "", false), ViewerProps(1, Single, ["1", "2"]), parse);
    assert dialog.pagesToPrint == [1, 2];
    dialog.SetWatermarkModalOption(chosen);
  }

  /** The second page's render and image come back before the first's; then
      every page image has resolved and the counter has counted both. */
  method FinishInReverse(dialog: PrintDialog) returns (count: int)
    requires dialog.Valid() && dialog.count == 0
    requires dialog.loaded == {} && dialog.resolved == {}
    requires dialog.pendingCanvases == Handles(dialog.jobs) && |dialog.pendingCanvases| == 2
    modifies dialog`pendingCanvases, dialog`loaded, dialog`count, dialog`resolved
    ensures dialog.Valid() && dialog.JoinReady()
    ensures count == dialog.count == 2
  {
    var first := dialog.pendingCanvases[0];
    var second := dialog.pendingCanvases[1];
    assert first in Handles(dialog.jobs) && second in Handles(dialog.jobs);
    assert first != second;
    dialog.OnCanvasLoaded(second);
    dialog.OnImageLoaded(second);
    dialog.OnCanvasLoaded(first);
    dialog.OnImageLoaded(first);
    assert Handles(dialog.jobs) == [first, second];
    count := dialog.count;
  }
}
