/**
 * The upload page's client state (client/src/pages/Upload.jsx): the dropped files and the
 * simulated progress bar, which an interval advances by ten points until it stops itself.
 */
module UploadPage {
  import opened Browser

  /** A dropped file as the page lists it. */
  datatype DroppedFile = DroppedFile(name: string, size: nat)

  /** One interval tick's update of `progress`: at 100 it stays 100, otherwise +10 capped at 100. */
  function NextProgress(p: int): int {
    if p == 100 then 100 else if p + 10 < 100 then p + 10 else 100
  }

  /** A tick at 100 is the one that clears the interval and ends the upload. */
  predicate TickStops(p: int) {
    p == 100
  }

  /** Progress after `n` ticks from the reset to 0. */
  function ProgressAfter(n: nat): int {
    if n == 0 then 0 else NextProgress(ProgressAfter(n - 1))
  }

  /** From any value in 0..100 a tick stays in 0..100 and never goes down. */
  lemma TickBoundedMonotone(p: int)
    requires 0 <= p <= 100
    ensures p <= NextProgress(p) <= 100
  {
  }

  /** Progress grows ten points a tick until it reaches 100. */
  lemma {:induction false} ProgressAfterTicks(n: nat)
    ensures ProgressAfter(n) == if 10 * n < 100 then 10 * n else 100
  {
    if n > 0 {
      ProgressAfterTicks(n - 1);
    }
  }

  /** The first ten ticks do not stop the interval; the eleventh does, at 100. */
  lemma UploadStopsOnEleventhTick()
    ensures forall n :: 0 <= n < 10 ==> !TickStops(ProgressAfter(n))
    ensures ProgressAfter(10) == 100 && TickStops(ProgressAfter(10))
  {
    forall n | 0 <= n < 10
      ensures !TickStops(ProgressAfter(n))
    {
      ProgressAfterTicks(n);
    }
    ProgressAfterTicks(10);
  }

  class UploadPageState {
    var files: seq<DroppedFile>
    var isUploading: bool
    var progress: int
    var intervalActive: bool

    predicate Valid()
      reads this
    {
      0 <= progress <= 100 && (intervalActive ==> isUploading)
    }

    constructor ()
      ensures Valid() && files == [] && !isUploading && progress == 0 && !intervalActive
    {
      files, isUploading, progress, intervalActive := [], false, 0, false;
    }

    /** `onDrop`: the file list becomes exactly the accepted files, in order. */
    method OnDrop(accepted: seq<DroppedFile>)
      requires Valid()
      modifies this
      ensures Valid() && files == accepted
      ensures isUploading == old(isUploading) && progress == old(progress) && intervalActive == old(intervalActive)
    {
      files := accepted;
    }

    /** The Start Upload button is shown exactly when files are listed and no upload runs. */
    predicate StartButtonShown()
      reads this
    {
      |files| > 0 && !isUploading
    }

    /** `handleUpload`: start uploading from 0, announce it, and start the interval. */
    method HandleUpload(browser: BrowserContext)
      requires Valid()
      modifies this, browser
      ensures Valid() && isUploading && progress == 0 && intervalActive && files == old(files)
      ensures browser.authToken == old(browser.authToken) && browser.pathname == old(browser.pathname)
      ensures browser.effects == old(browser.effects) + [Toast(true, "Files uploaded successfully")]
    {
      isUploading := true;
      progress := 0;
      browser.ShowToast(true, "Files uploaded successfully");
      intervalActive := true;
    }

    /** One firing of the interval. */
    method Tick()
      requires Valid() && intervalActive
      modifies this
      ensures Valid() && progress == NextProgress(old(progress)) && files == old(files)
      ensures old(progress) <= progress
      ensures TickStops(old(progress)) ==> !intervalActive && !isUploading
      ensures !TickStops(old(progress)) ==> intervalActive && isUploading
    {
      if progress == 100 {
        intervalActive := false;
        isUploading := false;
        progress := 100;
      } else {
        progress := if progress + 10 < 100 then progress + 10 else 100;
      }
    }

    /** Lets the interval fire until it clears itself: eleven ticks after a start, ending at 100. */
    method RunInterval() returns (ticks: nat)
      requires Valid() && intervalActive && progress == 0
      modifies this
      ensures Valid() && ticks == 11 && progress == 100 && !isUploading && !intervalActive
      ensures files == old(files)
    {
      ticks := 0;
      while intervalActive
        invariant Valid() && files == old(files)
        invariant ticks <= 11
        invariant intervalActive ==> ticks <= 10 && progress == ProgressAfter(ticks)
        invariant !intervalActive ==> ticks == 11 && progress == 100 && !isUploading
        decreases 11 - ticks
      {
        ProgressAfterTicks(ticks);
        Tick();
        ticks := ticks + 1;
      }
    }
  }
}
