/** What one print job queues, in which order, and the bookkeeping of the
    canvas renders it has in flight: for every selected page its page image,
    then (when comments are included and the page has printable notes) its
    notes page. */
module PrintQueue {

  /** What the print dialog reads of an annotation in the engine's list. */
  datatype Annotation = Annotation(id: nat, pageNumber: int, listable: bool, printable: bool, isReply: bool)

  /** The sort strategy the user picked for notes; it lives outside this
      model, so callers pass it in. */
  type NoteSorter = seq<Annotation> -> seq<Annotation>

  /** An annotation that belongs on the notes page of `pageNumber`. */
  predicate IsPrintableOn(a: Annotation, pageNumber: int) {
    a.listable && a.pageNumber == pageNumber && !a.isReply && a.printable
  }

  /** `getPrintableAnnotations`: the engine's annotations that are listable,
      on the page, not replies and printable, each as often as it occurs. */
  function PrintableAnnotations(annotations: seq<Annotation>, pageNumber: int): (r: seq<Annotation>)
    ensures |r| <= |annotations|
    ensures forall a :: a in r <==> a in annotations && IsPrintableOn(a, pageNumber)
    ensures forall a :: multiset(r)[a] == if IsPrintableOn(a, pageNumber) then multiset(annotations)[a] else 0
  {
    if annotations == [] then []
    else
      var rest := PrintableAnnotations(annotations[1..], pageNumber);
      assert annotations == [annotations[0]] + annotations[1..];
      if IsPrintableOn(annotations[0], pageNumber) then [annotations[0]] + rest else rest
  }

  /** The filter keeps the engine's order: it works piece by piece. */
  lemma {:induction false} PrintableAnnotationsAppend(a: seq<Annotation>, b: seq<Annotation>, pageNumber: int)
    ensures PrintableAnnotations(a + b, pageNumber)
         == PrintableAnnotations(a, pageNumber) + PrintableAnnotations(b, pageNumber)
  {
    if a == [] {
      assert a + b == b;
    } else {
      assert (a + b)[0] == a[0] && (a + b)[1..] == a[1..] + b;
      PrintableAnnotationsAppend(a[1..], b, pageNumber);
    }
  }

  /** One entry of the list of promises `creatingPages` builds, as the image
      it resolves to. */
  datatype PrintItem = PageImage(page: int) | NotesPage(page: int, notes: seq<Annotation>)

  /** The entries queued for one selected page: its image, then its notes
      page exactly when comments are included and the page has printable
      annotations, holding those annotations in the sort strategy's order. */
  function PageItems(page: int, includeComments: bool, annotations: seq<Annotation>, sortNotes: NoteSorter): seq<PrintItem>
  {
    var printable := PrintableAnnotations(annotations, page);
    [PageImage(page)]
      + if includeComments && |printable| > 0 then [NotesPage(page, sortNotes(printable))] else []
  }

  /** What `PageItems` queues for a page, entry by entry. */
  lemma {:induction false} PageItemsShape(page: int, includeComments: bool, annotations: seq<Annotation>, sortNotes: NoteSorter)
    ensures var items := PageItems(page, includeComments, annotations, sortNotes);
      var printable := PrintableAnnotations(annotations, page);
      && 1 <= |items| <= 2 && items[0] == PageImage(page)
      && (|items| == 2 <==> includeComments && |printable| > 0)
      && (|items| == 2 ==> items[1] == NotesPage(page, sortNotes(printable)))
  {
  }

  /** `creatingPages`: the entries for all selected pages, in selection order.
      There is one page image per selected page and at most one notes page
      each; without comments there are no notes pages at all. */
  function QueueOrder(pages: seq<int>, includeComments: bool, annotations: seq<Annotation>, sortNotes: NoteSorter): (items: seq<PrintItem>)
    ensures |pages| <= |items| <= 2 * |pages|
    ensures !includeComments ==> |items| == |pages|
    ensures pages != [] ==> items[0] == PageImage(pages[0])
  {
    if pages == [] then []
    else PageItems(pages[0], includeComments, annotations, sortNotes)
         + QueueOrder(pages[1..], includeComments, annotations, sortNotes)
  }

  /** Selecting more pages appends their entries after the others'. */
  lemma {:induction false} QueueOrderAppend(a: seq<int>, b: seq<int>, includeComments: bool, annotations: seq<Annotation>, sortNotes: NoteSorter)
    ensures QueueOrder(a + b, includeComments, annotations, sortNotes)
         == QueueOrder(a, includeComments, annotations, sortNotes) + QueueOrder(b, includeComments, annotations, sortNotes)
  {
    if a == [] {
      assert a + b == b;
    } else {
      assert (a + b)[0] == a[0] && (a + b)[1..] == a[1..] + b;
      QueueOrderAppend(a[1..], b, includeComments, annotations, sortNotes);
    }
  }

  /** A single selected page queues just its own entries. */
  lemma {:induction false} QueueOrderSingle(page: int, includeComments: bool, annotations: seq<Annotation>, sortNotes: NoteSorter)
    ensures QueueOrder([page], includeComments, annotations, sortNotes) == PageItems(page, includeComments, annotations, sortNotes)
  {
    assert [page][1..] == [];
  }

  /** Selecting one more page appends its own entries. */
  lemma {:induction false} QueueOrderExtend(pages: seq<int>, i: int, includeComments: bool, annotations: seq<Annotation>, sortNotes: NoteSorter)
    requires 0 <= i < |pages|
    ensures QueueOrder(pages[..i + 1], includeComments, annotations, sortNotes)
         == QueueOrder(pages[..i], includeComments, annotations, sortNotes) + PageItems(pages[i], includeComments, annotations, sortNotes)
  {
    assert pages[..i + 1] == pages[..i] + [pages[i]];
    QueueOrderAppend(pages[..i], [pages[i]], includeComments, annotations, sortNotes);
    QueueOrderSingle(pages[i], includeComments, annotations, sortNotes);
  }

  /** The pages of the page images among `items`, in order. */
  function ImagePages(items: seq<PrintItem>): seq<int>
  {
    if items == [] then []
    else (if items[0].PageImage? then [items[0].page] else []) + ImagePages(items[1..])
  }

  lemma {:induction false} ImagePagesAppend(a: seq<PrintItem>, b: seq<PrintItem>)
    ensures ImagePages(a + b) == ImagePages(a) + ImagePages(b)
  {
    if a == [] {
      assert a + b == b;
    } else {
      assert (a + b)[0] == a[0] && (a + b)[1..] == a[1..] + b;
      ImagePagesAppend(a[1..], b);
    }
  }

  /** The page images come out in selection order, one per selected page. */
  lemma {:induction false} QueueImagesFollowSelection(pages: seq<int>, includeComments: bool, annotations: seq<Annotation>, sortNotes: NoteSorter)
    ensures ImagePages(QueueOrder(pages, includeComments, annotations, sortNotes)) == pages
  {
    if pages != [] {
      var head := PageItems(pages[0], includeComments, annotations, sortNotes);
      var tail := QueueOrder(pages[1..], includeComments, annotations, sortNotes);
      ImagePagesAppend(head, tail);
      QueueImagesFollowSelection(pages[1..], includeComments, annotations, sortNotes);
      assert ImagePages(head) == [pages[0]] by {
        assert head[0] == PageImage(pages[0]) && head[1..] == head[1..];
        if |head| == 2 {
          assert head[1..][1..] == [];
        }
      }
      assert pages == [pages[0]] + pages[1..];
    }
  }

  /** A notes page comes right after the image of its own page, only when
      comments are included, and holds that page's printable annotations in
      the sort strategy's order. */
  lemma {:induction false} NotesFollowTheirPage(pages: seq<int>, includeComments: bool, annotations: seq<Annotation>, sortNotes: NoteSorter, i: int)
    requires 0 <= i < |QueueOrder(pages, includeComments, annotations, sortNotes)|
    requires QueueOrder(pages, includeComments, annotations, sortNotes)[i].NotesPage?
    ensures var items := QueueOrder(pages, includeComments, annotations, sortNotes);
      && includeComments
      && i > 0
      && items[i - 1] == PageImage(items[i].page)
      && items[i].notes == sortNotes(PrintableAnnotations(annotations, items[i].page))
      && |PrintableAnnotations(annotations, items[i].page)| > 0
  {
    var head := PageItems(pages[0], includeComments, annotations, sortNotes);
    var tail := QueueOrder(pages[1..], includeComments, annotations, sortNotes);
    var items := QueueOrder(pages, includeComments, annotations, sortNotes);
    assert items == head + tail;
    if i >= |head| {
      assert items[i] == tail[i - |head|];
      NotesFollowTheirPage(pages[1..], includeComments, annotations, sortNotes, i - |head|);
      assert items[i - 1] == tail[i - |head| - 1];
    } else {
      assert i == 1 && items[0] == head[0] && items[1] == head[1];
    }
  }

  /** The entries of the k-th selected page start right after those of the
      pages before it: first its image, then, exactly when comments are
      included and the page has printable annotations, its notes page. */
  lemma {:induction false} PageEntriesInQueue(pages: seq<int>, includeComments: bool, annotations: seq<Annotation>, sortNotes: NoteSorter, k: int)
    requires 0 <= k < |pages|
    ensures var items := QueueOrder(pages, includeComments, annotations, sortNotes);
      var j := |QueueOrder(pages[..k], includeComments, annotations, sortNotes)|;
      var printable := PrintableAnnotations(annotations, pages[k]);
      && j < |items|
      && items[j] == PageImage(pages[k])
      && ((j + 1 < |items| && items[j + 1].NotesPage?) <==> includeComments && |printable| > 0)
      && (includeComments && |printable| > 0 ==> items[j + 1] == NotesPage(pages[k], sortNotes(printable)))
  {
    var printable := PrintableAnnotations(annotations, pages[k]);
    QueueAround(pages, includeComments, annotations, sortNotes, k);
    PageItemsShape(pages[k], includeComments, annotations, sortNotes);
    EntriesAfter(QueueOrder(pages[..k], includeComments, annotations, sortNotes),
                 PageItems(pages[k], includeComments, annotations, sortNotes),
                 QueueOrder(pages[k + 1..], includeComments, annotations, sortNotes), pages[k],
                 includeComments && |printable| > 0, NotesPage(pages[k], sortNotes(printable)));
  }

  /** The queue split around the k-th selected page's own entries; the
      entries after them start with a page image, if any. */
  lemma {:induction false} QueueAround(pages: seq<int>, includeComments: bool, annotations: seq<Annotation>, sortNotes: NoteSorter, k: int)
    requires 0 <= k < |pages|
    ensures QueueOrder(pages, includeComments, annotations, sortNotes)
         == QueueOrder(pages[..k], includeComments, annotations, sortNotes)
            + (PageItems(pages[k], includeComments, annotations, sortNotes)
               + QueueOrder(pages[k + 1..], includeComments, annotations, sortNotes))
    ensures var after := QueueOrder(pages[k + 1..], includeComments, annotations, sortNotes);
      after != [] ==> after[0].PageImage?
  {
    assert pages == pages[..k] + pages[k..];
    QueueOrderAppend(pages[..k], pages[k..], includeComments, annotations, sortNotes);
    assert pages[k..][0] == pages[k] && pages[k..][1..] == pages[k + 1..];
  }

  /** Reading one page's entries back out of a queue: what follows the
      page's own entries starts with the next page's image, if anything. */
  lemma {:induction false} EntriesAfter(before: seq<PrintItem>, own: seq<PrintItem>, after: seq<PrintItem>, page: int,
                     hasNotes: bool, notesPage: PrintItem)
    requires 1 <= |own| <= 2 && own[0] == PageImage(page)
    requires |own| == 2 <==> hasNotes
    requires hasNotes ==> own[1] == notesPage && notesPage.NotesPage?
    requires after != [] ==> after[0].PageImage?
    ensures var items := before + (own + after);
      && |before| < |items|
      && items[|before|] == PageImage(page)
      && ((|before| + 1 < |items| && items[|before| + 1].NotesPage?) <==> hasNotes)
      && (hasNotes ==> items[|before| + 1] == notesPage)
  {
    var items := before + (own + after);
    assert items[|before|] == own[0];
    if |own| == 2 {
      assert items[|before| + 1] == own[1];
    } else if |before| + 1 < |items| {
      assert items[|before| + 1] == after[0];
    }
  }

  /** Without comments, the queue is exactly the selected pages' images. */
  lemma {:induction false} QueueWithoutComments(pages: seq<int>, annotations: seq<Annotation>, sortNotes: NoteSorter)
    ensures forall i :: 0 <= i < |pages| ==> QueueOrder(pages, false, annotations, sortNotes)[i] == PageImage(pages[i])
  {
    if pages != [] {
      QueueWithoutComments(pages[1..], annotations, sortNotes);
    }
  }

  /** A queued entry as the dialog holds it: a page image waits on the canvas
      render with the engine's `handle`; a notes page is ready at once. */
  datatype Job = ImageJob(page: int, handle: nat) | NotesJob(page: int, notes: seq<Annotation>)

  function ItemOf(job: Job): PrintItem {
    match job
    case ImageJob(page, _) => PageImage(page)
    case NotesJob(page, notes) => NotesPage(page, notes)
  }

  /** The images the joined promises resolve to, position by position. */
  function Items(jobs: seq<Job>): seq<PrintItem> {
    seq(|jobs|, i requires 0 <= i < |jobs| => ItemOf(jobs[i]))
  }

  /** The render handles of the page images among `jobs`, in queue order. */
  function Handles(jobs: seq<Job>): (hs: seq<nat>)
    ensures |hs| <= |jobs|
  {
    if jobs == [] then []
    else
      var rest := Handles(jobs[1..]);
      if jobs[0].ImageJob? then [jobs[0].handle] + rest else rest
  }

  lemma {:induction false} HandlesAppend(a: seq<Job>, b: seq<Job>)
    ensures Handles(a + b) == Handles(a) + Handles(b)
  {
    if a == [] {
      assert a + b == b;
    } else {
      assert (a + b)[0] == a[0] && (a + b)[1..] == a[1..] + b;
      HandlesAppend(a[1..], b);
    }
  }

  /** One render handle per page image: the queue holds as many pending
      renders as it holds page images. */
  lemma {:induction false} HandlesMatchImages(jobs: seq<Job>)
    ensures |Handles(jobs)| == |ImagePages(Items(jobs))|
  {
    if jobs != [] {
      assert Items(jobs)[0] == ItemOf(jobs[0]) && Items(jobs)[1..] == Items(jobs[1..]);
      HandlesMatchImages(jobs[1..]);
    }
  }

  /** No value occurs twice. */
  predicate Distinct(s: seq<nat>) {
    forall i, j :: 0 <= i < j < |s| ==> s[i] != s[j]
  }

  /** `pendingCanvases.filter(pendingCanvas => pendingCanvas !== id)`: every
      other handle stays, `id` goes. */
  function Remove(s: seq<nat>, id: nat): (r: seq<nat>)
    ensures id !in r
    ensures forall h :: h != id ==> (h in r <==> h in s)
    ensures id !in s ==> r == s
    ensures |r| <= |s|
  {
    if s == [] then []
    else if s[0] == id then Remove(s[1..], id)
    else [s[0]] + Remove(s[1..], id)
  }

  lemma {:induction false} RemoveAppend(a: seq<nat>, b: seq<nat>, id: nat)
    ensures Remove(a + b, id) == Remove(a, id) + Remove(b, id)
  {
    if a == [] {
      assert a + b == b;
    } else {
      assert (a + b)[0] == a[0] && (a + b)[1..] == a[1..] + b;
      RemoveAppend(a[1..], b, id);
    }
  }

  /** Removing a handle that occurs once leaves the other handles in their
      order: the list closes up around it. */
  lemma {:induction false} RemoveOccurrence(s: seq<nat>, i: int)
    requires 0 <= i < |s|
    requires Distinct(s)
    ensures Remove(s, s[i]) == s[..i] + s[i + 1..]
  {
    OccursOnce(s, i);
    assert s == s[..i] + ([s[i]] + s[i + 1..]);
    RemoveBetween(s[..i], s[i], s[i + 1..]);
  }

  /** Removing a value that occurs only between `before` and `after` joins
      them. */
  lemma {:induction false} RemoveBetween(before: seq<nat>, x: nat, after: seq<nat>)
    requires x !in before && x !in after
    ensures Remove(before + ([x] + after), x) == before + after
  {
    RemoveAppend(before, [x] + after, x);
    RemoveAppend([x], after, x);
    assert [x][1..] == [];
  }

  /** In a list without repeats, an element occurs neither before nor after
      its own position. */
  lemma {:induction false} OccursOnce(s: seq<nat>, i: int)
    requires 0 <= i < |s|
    requires Distinct(s)
    ensures s[i] !in s[..i] && s[i] !in s[i + 1..]
  {
    forall k | 0 <= k < i ensures s[..i][k] != s[i] {
      assert s[..i][k] == s[k];
    }
    var after := s[i + 1..];
    forall k | 0 <= k < |after| ensures after[k] != s[i] {
      assert after[k] == s[i + 1 + k];
    }
  }

  /** The handles of `hs` whose canvas has not come back yet, in order. */
  function Unloaded(hs: seq<nat>, loaded: set<nat>): (r: seq<nat>)
    ensures forall h :: h in r <==> h in hs && h !in loaded
    ensures (forall h :: h in hs ==> h !in loaded) ==> r == hs
  {
    if hs == [] then []
    else if hs[0] in loaded then Unloaded(hs[1..], loaded)
    else [hs[0]] + Unloaded(hs[1..], loaded)
  }

  /** One more canvas coming back removes exactly its handle from the
      still-pending ones. */
  lemma {:induction false} UnloadedAfterLoad(hs: seq<nat>, loaded: set<nat>, id: nat)
    ensures Unloaded(hs, loaded + {id}) == Remove(Unloaded(hs, loaded), id)
  {
    if hs != [] {
      UnloadedAfterLoad(hs[1..], loaded, id);
    }
  }

  lemma {:induction false} UnloadedDistinct(hs: seq<nat>, loaded: set<nat>)
    requires Distinct(hs)
    ensures Distinct(Unloaded(hs, loaded))
  {
    if hs != [] {
      UnloadedDistinct(hs[1..], loaded);
      var rest := Unloaded(hs[1..], loaded);
      assert hs[0] !in hs[1..];
      assert hs[0] !in rest;
    }
  }
}
