/** The image gallery of a peer: six slots written round and round, and an index of what is in them. */
module ImageRing {
  import opened Wire

  const MAX_IMAGES := 6
  const MAX_CONTENT_ID := 32
  const SEQ_WRAP := 0x1_0000_0000

  datatype Image = Image(slot: nat, seqNo: nat, contentId: bytes)

  /** The images.json index, and the slot files beside it. */
  datatype Gallery = Gallery(nextSeq: nat, images: seq<Image>, files: map<nat, bytes>)

  const EMPTY := Gallery(0, [], map[])

  function SlotOf(seqNo: nat): (slot: nat)
    ensures slot < MAX_IMAGES
  {
    seqNo % MAX_IMAGES
  }

  function ImageFor(seqNo: nat, contentId: bytes): Image {
    Image(SlotOf(seqNo), seqNo, contentId[..Min(|contentId|, MAX_CONTENT_ID)])
  }

  /** The first entry for the slot goes. */
  function DropSlot(images: seq<Image>, slot: nat): seq<Image> {
    if images == [] then []
    else if images[0].slot == slot then images[1..]
    else [images[0]] + DropSlot(images[1..], slot)
  }

  /** One push: what the card lets happen to it. */
  datatype Push = Push(data: bytes, contentId: bytes, directory: bool, slotCleared: bool, renamed: bool, saved: bool)

  predicate Succeeds(p: Push) {
    p.directory && p.renamed && p.saved
  }

  /** commitImage(). The index is written last, its counter with it. */
  function Commit(g: Gallery, p: Push): Gallery {
    var slot := SlotOf(g.nextSeq);
    if !p.directory then g
    else
      var cleared := g.(files := if p.slotCleared then g.files - {slot} else g.files);
      if !p.renamed then cleared
      else
        var moved := cleared.(files := cleared.files[slot := p.data]);
        if !p.saved then moved
        else moved.(nextSeq := g.nextSeq + 1, images := DropSlot(g.images, slot) + [ImageFor(g.nextSeq, p.contentId)])
  }

  function AfterPushes(pushes: seq<Push>): Gallery {
    if pushes == [] then EMPTY else Commit(AfterPushes(pushes[..|pushes| - 1]), pushes[|pushes| - 1])
  }

  /** The pushes that made it into the index. */
  function Saved(pushes: seq<Push>): (s: seq<Push>)
    ensures |s| <= |pushes|
  {
    if pushes == [] then []
    else
      var before := Saved(pushes[..|pushes| - 1]);
      if Succeeds(pushes[|pushes| - 1]) then before + [pushes[|pushes| - 1]] else before
  }

  // ----- The ring -----

  /** The first push of the last six. */
  function First(n: nat): nat {
    if n < MAX_IMAGES then 0 else n - MAX_IMAGES
  }

  /** The entry of push number `n`: that number, its slot, and the push's content id as far as there is room. */
  predicate IsEntryOf(image: Image, n: nat, p: Push) {
    && image.seqNo == n && image.slot == n % 6
    && image.contentId <= p.contentId && |image.contentId| == Min(|p.contentId|, 32)
  }

  /** The index: the last six pushes, or all of them, oldest first, each in its own slot. */
  ghost predicate IndexesLast(images: seq<Image>, saved: seq<Push>) {
    && |images| == |saved| - First(|saved|)
    && forall i :: 0 <= i < |images| ==> IsEntryOf(images[i], First(|saved|) + i, saved[First(|saved|) + i])
  }

  predicate InSlot(g: Gallery, saved: seq<Push>, q: nat)
    requires q < |saved|
  {
    SlotOf(q) in g.files && g.files[SlotOf(q)] == saved[q].data
  }

  ghost predicate Inv(g: Gallery, saved: seq<Push>) {
    && g.nextSeq == |saved| && IndexesLast(g.images, saved)
    && forall q :: First(|saved|) <= q < |saved| && SlotOf(q) != SlotOf(|saved|) ==> InSlot(g, saved, q)
  }

  /** Within six pushes of each other no two share a slot. */
  lemma SlotsDiffer(q: nat, n: nat)
    requires q < n < q + MAX_IMAGES
    ensures SlotOf(q) != SlotOf(n)
  {
  }

  /** Below six pushes the next slot is free; from then on it is the oldest entry's. */
  lemma NextSlot(images: seq<Image>, saved: seq<Push>, i: nat)
    requires IndexesLast(images, saved) && i < |images|
    ensures images[i].slot == SlotOf(|saved|) <==> |saved| >= MAX_IMAGES && i == 0
  {
    var n, q := |saved|, First(|saved|) + i;
    assert images[i].slot == SlotOf(q);
    if q + MAX_IMAGES == n {
      SixthPushBack(n);
    } else {
      SlotsDiffer(q, n);
    }
  }

  lemma OldestIsDropped(images: seq<Image>, saved: seq<Push>)
    requires IndexesLast(images, saved)
    ensures DropSlot(images, SlotOf(|saved|)) == if |saved| >= MAX_IMAGES then images[1..] else images
  {
    if |saved| < MAX_IMAGES {
      forall i | 0 <= i < |images| ensures images[i].slot != SlotOf(|saved|) {
        NextSlot(images, saved, i);
      }
      DropNothing(images, SlotOf(|saved|));
    } else {
      NextSlot(images, saved, 0);
    }
  }

  lemma {:induction false} DropNothing(images: seq<Image>, slot: nat)
    requires forall i :: 0 <= i < |images| ==> images[i].slot != slot
    ensures DropSlot(images, slot) == images
  {
    if images != [] {
      DropNothing(images[1..], slot);
    }
  }

  lemma IndexAdvances(images: seq<Image>, saved: seq<Push>, p: Push)
    requires IndexesLast(images, saved)
    ensures IndexesLast(DropSlot(images, SlotOf(|saved|)) + [ImageFor(|saved|, p.contentId)], saved + [p])
  {
    OldestIsDropped(images, saved);
  }

  /** What lies in the other slots stays there; what was moved lies in its own. */
  lemma SlotsKept(g: Gallery, saved: seq<Push>, p: Push, q: nat)
    requires Inv(g, saved) && Succeeds(p) && First(|saved| + 1) <= q <= |saved|
    ensures InSlot(Commit(g, p), saved + [p], q)
  {
    if q < |saved| {
      SlotsDiffer(q, |saved|);
      assert InSlot(g, saved, q);
    }
  }

  lemma CommitKeepsInv(g: Gallery, saved: seq<Push>, p: Push)
    requires Inv(g, saved)
    ensures Inv(Commit(g, p), if Succeeds(p) then saved + [p] else saved)
    ensures Succeeds(p) ==> forall q :: First(|saved| + 1) <= q <= |saved| ==> InSlot(Commit(g, p), saved + [p], q)
  {
    if Succeeds(p) {
      IndexAdvances(g.images, saved, p);
      forall q | First(|saved| + 1) <= q <= |saved| ensures InSlot(Commit(g, p), saved + [p], q) {
        SlotsKept(g, saved, p, q);
      }
    } else {
      forall q | First(|saved|) <= q < |saved| && SlotOf(q) != SlotOf(|saved|) ensures InSlot(Commit(g, p), saved, q) {
        assert InSlot(g, saved, q);
      }
    }
  }

  /**
    Whatever fails: the index lists exactly the last six pushes that were saved, oldest first, and every
    one of them lies in its slot, but for the slot the next push will take. Right after a push that was
    saved, that one too.
  */
  lemma {:induction false} GalleryIsARing(pushes: seq<Push>)
    ensures Inv(AfterPushes(pushes), Saved(pushes))
    ensures pushes != [] && Succeeds(pushes[|pushes| - 1]) ==>
              var n := |Saved(pushes)|; forall q :: First(n) <= q < n ==> InSlot(AfterPushes(pushes), Saved(pushes), q)
  {
    if pushes != [] {
      var before := pushes[..|pushes| - 1];
      GalleryIsARing(before);
      CommitKeepsInv(AfterPushes(before), Saved(before), pushes[|pushes| - 1]);
    }
  }

  // ----- The slot the next push will take -----

  /** The push touches the slot it is meant for. */
  predicate Touches(p: Push) {
    p.directory && (p.slotCleared || p.renamed)
  }

  /** The data of the oldest indexed push, if its slot is the one the next push will take. */
  function OldestData(saved: seq<Push>): Option<bytes> {
    if |saved| < MAX_IMAGES then None else Some(saved[|saved| - MAX_IMAGES].data)
  }

  /** The data of the last push that touched the slot since a push was saved, None if that left the slot empty. */
  function LastTouch(pushes: seq<Push>): Option<Option<bytes>> {
    if pushes == [] || Succeeds(pushes[|pushes| - 1]) then None
    else
      var p := pushes[|pushes| - 1];
      if !Touches(p) then LastTouch(pushes[..|pushes| - 1])
      else Some(if p.renamed then Some(p.data) else None)
  }

  predicate SlotHolds(g: Gallery, content: Option<bytes>) {
    match content
    case None => SlotOf(g.nextSeq) !in g.files
    case Some(data) => SlotOf(g.nextSeq) in g.files && g.files[SlotOf(g.nextSeq)] == data
  }

  /** Slots not yet written are empty. */
  lemma {:induction false} SlotsNotYetWritten(pushes: seq<Push>, slot: nat)
    requires |Saved(pushes)| <= slot < MAX_IMAGES && (LastTouch(pushes).Some? ==> slot != |Saved(pushes)|)
    ensures slot !in AfterPushes(pushes).files
  {
    if pushes != [] {
      var before, p := pushes[..|pushes| - 1], pushes[|pushes| - 1];
      GalleryIsARing(before);
      SlotsNotYetWritten(before, slot);
    }
  }

  /**
    What lies in the slot the next push will take: with no push that touched it since the last saved one,
    the oldest indexed image, or nothing if fewer than six are indexed; and else what the last such push
    left, its own image or nothing.
  */
  lemma {:induction false} NextSlotHolds(pushes: seq<Push>)
    ensures SlotHolds(AfterPushes(pushes),
                      if LastTouch(pushes).Some? then LastTouch(pushes).value else OldestData(Saved(pushes)))
  {
    if pushes != [] {
      var before, p := pushes[..|pushes| - 1], pushes[|pushes| - 1];
      GalleryIsARing(before);
      GalleryIsARing(pushes);
      if Succeeds(p) {
        var n := |Saved(pushes)|;
        if n >= MAX_IMAGES {
          SixthPushBack(n);
          assert InSlot(AfterPushes(pushes), Saved(pushes), First(n));
        } else {
          SlotsNotYetWritten(pushes, n);
        }
      } else {
        NextSlotHolds(before);
      }
    }
  }

  /**
    So the oldest of six indexed images still has its bytes exactly when no push touched its slot since
    the last saved one, or the last that did moved the very same bytes there.
  */
  lemma OldestIsIntactIff(pushes: seq<Push>)
    requires |Saved(pushes)| >= MAX_IMAGES
    ensures var n := |Saved(pushes)|;
            InSlot(AfterPushes(pushes), Saved(pushes), First(n)) <==>
              LastTouch(pushes).None? || LastTouch(pushes).value == OldestData(Saved(pushes))
  {
    NextSlotHolds(pushes);
    GalleryIsARing(pushes);
    SixthPushBack(|Saved(pushes)|);
  }

  /** A rename that fails behind a cleared slot leaves an index entry without its file. */
  lemma FailedRenameLosesTheOldest(pushes: seq<Push>, p: Push)
    requires p.directory && p.slotCleared && !p.renamed && |Saved(pushes)| >= MAX_IMAGES
    ensures var g := AfterPushes(pushes + [p]);
            g.images != [] && g.images[0].slot == SlotOf(g.nextSeq) && g.images[0].slot !in g.files
  {
    GalleryIsARing(pushes);
    assert (pushes + [p])[..|pushes|] == pushes;
    SixthPushBack(|Saved(pushes)|);
  }

  /** One whose index entry cannot be saved leaves the oldest entry naming a file with the new image in it. */
  lemma UnsavedTakesTheOldestsPlace(pushes: seq<Push>, p: Push)
    requires p.directory && p.renamed && !p.saved && |Saved(pushes)| >= MAX_IMAGES
    ensures var g, n := AfterPushes(pushes + [p]), |Saved(pushes)|;
            && g.images != [] && IsEntryOf(g.images[0], First(n), Saved(pushes)[First(n)])
            && g.images[0].slot in g.files && g.files[g.images[0].slot] == p.data
  {
    GalleryIsARing(pushes);
    assert (pushes + [p])[..|pushes|] == pushes;
    SixthPushBack(|Saved(pushes)|);
  }

  lemma SixthPushBack(n: nat)
    requires n >= MAX_IMAGES
    ensures SlotOf(First(n)) == SlotOf(n)
  {
  }

  /** An image whose index entry could not be saved is gone with the very next push, not six pushes on. */
  lemma UnsavedIsOverwrittenNext(pushes: seq<Push>, p: Push, next: Push)
    requires p.directory && p.renamed && !p.saved && Succeeds(next)
    ensures var g := AfterPushes(pushes + [p] + [next]);
            && SlotOf(AfterPushes(pushes).nextSeq) in g.files
            && g.files[SlotOf(AfterPushes(pushes).nextSeq)] == next.data
  {
    assert (pushes + [p])[..|pushes|] == pushes;
    assert (pushes + [p] + [next])[..|pushes| + 1] == pushes + [p];
  }

  // ----- In place -----

  class Images {
    var nextSeq: nat
    var images: seq<Image>
    var files: map<nat, bytes>

    ghost function View(): Gallery
      reads this
    {
      Gallery(nextSeq, images, files)
    }

    constructor ()
      ensures View() == EMPTY
    {
      nextSeq, images, files := 0, [], map[];
    }

    method CommitImage(p: Push) returns (slot: Option<nat>)
      requires nextSeq + 1 < SEQ_WRAP
      modifies this
      ensures View() == Commit(old(View()), p)
      ensures slot == if p.directory && p.renamed then Some(SlotOf(old(nextSeq))) else None
    {
      if !p.directory {
        return None;
      }
      var seqNo := nextSeq;
      var taken := seqNo % MAX_IMAGES;
      var doc := RemoveSlot(images, taken);
      if p.slotCleared {
        files := files - {taken};
      }
      if !p.renamed {
        return None;
      }
      files := files[taken := p.data];
      doc := doc + [ImageFor(seqNo, p.contentId)];
      if p.saved {
        nextSeq, images := seqNo + 1, doc;
      }
      return Some(taken);
    }

    /** Oldest first, by selection; at most six are looked at. */
    method ListImages(maxImages: nat) returns (out: seq<Image>)
      requires Ascending(images) && |images| <= MAX_IMAGES
      ensures out == images[..Min(|images|, Min(maxImages, MAX_IMAGES))]
    {
      out := [];
      var room := Min(maxImages, MAX_IMAGES);
      var used := new bool[MAX_IMAGES](_ => false);
      while |out| < room
        invariant |out| <= |images| && |out| <= room && out == images[..|out|]
        invariant forall i :: 0 <= i < MAX_IMAGES ==> used[i] == (i < |out|)
      {
        var best: Option<nat> := None;
        for i := 0 to Min(|images|, MAX_IMAGES)
          invariant best == if i <= |out| then None else Some(|out|)
        {
          if !used[i] && (best.None? || images[i].seqNo < images[best.value].seqNo) {
            best := Some(i);
          }
        }
        if best.None? {
          break;
        }
        used[best.value] := true;
        out := out + [images[best.value]];
      }
    }
  }

  predicate Ascending(images: seq<Image>) {
    forall i, j :: 0 <= i < j < |images| ==> images[i].seqNo < images[j].seqNo
  }

  /** What a listing asks of the index is so after any pushes. */
  lemma IndexIsAscending(pushes: seq<Push>)
    ensures Ascending(AfterPushes(pushes).images) && |AfterPushes(pushes).images| <= MAX_IMAGES
  {
    GalleryIsARing(pushes);
  }

  method RemoveSlot(images: seq<Image>, slot: nat) returns (kept: seq<Image>)
    ensures kept == DropSlot(images, slot)
  {
    kept := images;
    for i := 0 to |images|
      invariant forall k :: 0 <= k < i ==> images[k].slot != slot
      invariant kept == images
    {
      if images[i].slot == slot {
        DropAt(images, slot, i);
        return images[..i] + images[i + 1..];
      }
    }
    DropNothing(images, slot);
  }

  lemma {:induction false} DropAt(images: seq<Image>, slot: nat, i: nat)
    requires i < |images| && images[i].slot == slot && forall k :: 0 <= k < i ==> images[k].slot != slot
    ensures DropSlot(images, slot) == images[..i] + images[i + 1..]
  {
    if i > 0 {
      DropAt(images[1..], slot, i - 1);
    }
  }
}
