/**
 * Preloading of the frame sequence: one image per frame is created in order, and every
 * load or error callback bumps a shared counter; once the counter reaches the frame count
 * the image list is published and the loading flag drops.
 */
module FramePreload {
  import opened FrameNaming

  /** The image sources in frame order: entry k is the file of frame k + 1. */
  ghost predicate InFrameOrder(imgArray: seq<string>)
  {
    |imgArray| == FRAME_COUNT && forall k :: 0 <= k < FRAME_COUNT ==> imgArray[k] == ImgPath(k + 1)
  }

  /** The effect's `for` loop: creates the images for frames 1..FRAME_COUNT and pushes them in order. */
  method PreloadSources() returns (imgArray: seq<string>)
    ensures |imgArray| == FRAME_COUNT
    ensures forall k :: 0 <= k < FRAME_COUNT ==> imgArray[k] == ImgPath(k + 1)
  {
    imgArray := [];
    var i := 1;
    while i <= FRAME_COUNT
      invariant 1 <= i <= FRAME_COUNT + 1
      invariant |imgArray| == i - 1
      invariant forall k :: 0 <= k < |imgArray| ==> imgArray[k] == ImgPath(k + 1)
    {
      imgArray := imgArray + [ImgPath(i)];
      i := i + 1;
    }
  }

  /** How an image's fetch ended; both outcomes run the same handler. */
  datatype Completion = Loaded | Errored

  /**
   * The scrubber's preload state: the effect's local `imgArray` and `loadedCount`, the
   * component's `images` and `isLoading`, and how often the ready branch has run.
   */
  class Preloader {
    var imgArray: seq<string>
    var loadedCount: nat
    var images: seq<string>
    var isLoading: bool
    var readyCount: nat

    /** Mounting: `images` is empty, `isLoading` is true, and the preload effect runs once. */
    constructor ()
      ensures InFrameOrder(imgArray)
      ensures loadedCount == 0 && images == [] && isLoading && readyCount == 0
    {
      var sources := PreloadSources();
      imgArray := sources;
      loadedCount := 0;
      images := [];
      isLoading := true;
      readyCount := 0;
    }

    /** `onImageLoad`, the handler of both `onload` and `onerror`. */
    method OnImageLoad(c: Completion)
      modifies this
      ensures imgArray == old(imgArray) && loadedCount == old(loadedCount) + 1
      ensures loadedCount == FRAME_COUNT ==>
        images == imgArray && !isLoading && readyCount == old(readyCount) + 1
      ensures loadedCount != FRAME_COUNT ==>
        images == old(images) && isLoading == old(isLoading) && readyCount == old(readyCount)
    {
      loadedCount := loadedCount + 1;
      if loadedCount == FRAME_COUNT {
        images := imgArray;
        isLoading := false;
        readyCount := readyCount + 1;
      }
    }

    /**
     * The browser firing the given callbacks one after the other, in whatever order and
     * mixture of loads and errors. The outcome depends only on how many there were: the
     * ready branch runs once exactly when the counter passes FRAME_COUNT.
     */
    method DeliverCompletions(events: seq<Completion>)
      modifies this
      ensures imgArray == old(imgArray) && loadedCount == old(loadedCount) + |events|
      ensures var crossed := old(loadedCount) < FRAME_COUNT <= old(loadedCount) + |events|;
        && readyCount == old(readyCount) + (if crossed then 1 else 0)
        && images == (if crossed then imgArray else old(images))
        && isLoading == (old(isLoading) && !crossed)
    {
      var i := 0;
      while i < |events|
        invariant 0 <= i <= |events|
        invariant imgArray == old(imgArray) && loadedCount == old(loadedCount) + i
        invariant var crossed := old(loadedCount) < FRAME_COUNT <= old(loadedCount) + i;
          && readyCount == old(readyCount) + (if crossed then 1 else 0)
          && images == (if crossed then imgArray else old(images))
          && isLoading == (old(isLoading) && !crossed)
      {
        OnImageLoad(events[i]);
        i := i + 1;
      }
    }
  }

  /**
   * From mount, the component becomes ready exactly when FRAME_COUNT callbacks have fired,
   * whatever their order, and from then on holds every frame's file in order; surplus
   * callbacks do not run the ready branch again.
   */
  method MountAndLoad(events: seq<Completion>) returns (ready: bool, published: seq<string>, readyRuns: nat)
    ensures ready <==> |events| >= FRAME_COUNT
    ensures readyRuns == if |events| >= FRAME_COUNT then 1 else 0
    ensures ready ==> |published| == FRAME_COUNT
    ensures ready ==> forall k :: 0 <= k < FRAME_COUNT ==> published[k] == ImgPath(k + 1)
    ensures !ready ==> published == []
  {
    var p := new Preloader();
    p.DeliverCompletions(events);
    ready, published, readyRuns := !p.isLoading, p.images, p.readyCount;
  }
}
