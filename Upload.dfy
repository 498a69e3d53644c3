/**
 * The floor-plan intake widget (`Upload` in app/components/ui/Upload.tsx).
 *
 * A signed-in user selects or drops an image; the widget records the file,
 * resets the progress meter to 0 and starts reading the file as a data URL.
 * When the read has loaded, a periodic timer adds a fixed increment to the
 * meter on every tick; the tick that reaches 100 clamps the meter to exactly
 * 100, clears its timer and schedules the completion callback with the data
 * URL. The browser's asynchronous events (read loaded, timer tick, timeout
 * fired) are explicit methods of the controller.
 */
module Upload {
  import opened Wrappers

  /** A selected file; only its name is shown by the widget. */
  datatype File = File(name: string)

  /** A running `setInterval` timer and the data URL its callback closes over. */
  datatype Interval = Interval(id: nat, base64: string)

  const AnalyzingText := "Analyzing floor plan ..."
  const RedirectingText := "Redirecting ..."
  const SignedInPrompt := "Click to upload or just drag and drop"
  const SignedOutPrompt := "Sign in or Sign up with puter to upload"

  // ---------------------------------------------------------------------------
  // One timer tick, and the life of one timer as a pure specification
  // ---------------------------------------------------------------------------

  /** A tick that starts from `prev` brings the meter to 100 or beyond. */
  predicate Completes(prev: int, increment: int) {
    prev + increment >= 100
  }

  /** The meter after one tick: the sum, clamped to exactly 100 once it reaches 100. */
  function NextProgress(prev: int, increment: int): (next: int)
    requires increment > 0
    ensures next == 100 <==> Completes(prev, increment)
    ensures !Completes(prev, increment) ==> next == prev + increment
    ensures next <= 100
    ensures prev <= 100 ==> prev <= next
    ensures prev < 100 ==> prev < next
  {
    var sum := prev + increment;
    if sum >= 100 then 100 else sum
  }

  /**
   * What one timer has done so far: the meter, whether the timer is still
   * running, and how many completion callbacks it has scheduled.
   */
  datatype Simulation = Simulation(progress: int, active: bool, scheduled: nat)

  /** A timer that has just been started with the meter at `p`. */
  function Start(p: int): (s: Simulation) {
    Simulation(p, true, 0)
  }

  /** One tick of the timer; a cleared timer no longer ticks. */
  function TickOnce(s: Simulation, increment: int): (t: Simulation)
    requires increment > 0
    ensures !s.active ==> t == s
    ensures s.active ==> t.progress == NextProgress(s.progress, increment)
    ensures s.active ==> (t.active <==> !Completes(s.progress, increment))
    ensures t.scheduled == s.scheduled + (if s.active && !t.active then 1 else 0)
  {
    if !s.active then s
    else if Completes(s.progress, increment) then Simulation(100, false, s.scheduled + 1)
    else Simulation(s.progress + increment, true, s.scheduled)
  }

  /** The timer's state after `n` ticks were due. */
  function RunTicks(s: Simulation, increment: int, n: nat): (t: Simulation)
    requires increment > 0
  {
    if n == 0 then s else TickOnce(RunTicks(s, increment, n - 1), increment)
  }

  /**
   * Closed form of a timer started below 100: after `n` ticks the meter is
   * `p + n * increment` while that stays below 100, and exactly 100 from then
   * on; the timer runs exactly as long as the meter is below 100, and it has
   * scheduled the completion callback once from the moment it stops.
   */
  lemma {:induction false} RunTicksClosedForm(p: int, increment: int, n: nat)
    requires 0 <= p < 100 && increment > 0
    ensures RunTicks(Start(p), increment, n).active <==> p + n * increment < 100
    ensures RunTicks(Start(p), increment, n).progress
            == (if p + n * increment < 100 then p + n * increment else 100)
    ensures RunTicks(Start(p), increment, n).scheduled
            == (if p + n * increment < 100 then 0 else 1)
  {
    if n > 0 {
      RunTicksClosedForm(p, increment, n - 1);
      assert p + n * increment == p + (n - 1) * increment + increment;
    }
  }

  /** Across any number of ticks the meter never decreases and stays within 0..100. */
  lemma {:induction false} ProgressMonotone(p: int, increment: int, m: nat, n: nat)
    requires 0 <= p < 100 && increment > 0 && m <= n
    ensures p <= RunTicks(Start(p), increment, m).progress
    ensures RunTicks(Start(p), increment, m).progress <= RunTicks(Start(p), increment, n).progress
    ensures RunTicks(Start(p), increment, n).progress <= 100
  {
    RunTicksClosedForm(p, increment, m);
    RunTicksClosedForm(p, increment, n);
    assert m * increment <= n * increment by {
      assert n * increment == m * increment + (n - m) * increment;
    }
  }

  /**
   * One timer schedules the completion callback at most once, and it does so
   * at exactly one tick: the first one whose sum reaches 100.
   */
  lemma CompletesExactlyOnce(p: int, increment: int, n: nat)
    requires 0 <= p < 100 && increment > 0 && n > 0
    ensures RunTicks(Start(p), increment, n).scheduled <= 1
    ensures RunTicks(Start(p), increment, n - 1).scheduled == 0
            && RunTicks(Start(p), increment, n).scheduled == 1
            <==> p + (n - 1) * increment < 100 <= p + n * increment
  {
    RunTicksClosedForm(p, increment, n - 1);
    RunTicksClosedForm(p, increment, n);
    assert p + n * increment == p + (n - 1) * increment + increment;
  }

  /** With an increment of 10 the meter shows 10, 20, ..., 100 and the tenth tick completes. */
  lemma {:induction false} TenPercentSteps()
    ensures forall n: nat :: n < 10 ==>
      RunTicks(Start(0), 10, n).progress == 10 * n && RunTicks(Start(0), 10, n).active
    ensures RunTicks(Start(0), 10, 10) == Simulation(100, false, 1)
    ensures RunTicks(Start(0), 10, 11) == Simulation(100, false, 1)
  {
    forall n: nat | n < 10
      ensures RunTicks(Start(0), 10, n).progress == 10 * n && RunTicks(Start(0), 10, n).active
    {
      RunTicksClosedForm(0, 10, n);
    }
    RunTicksClosedForm(0, 10, 10);
    RunTicksClosedForm(0, 10, 11);
  }

  // ---------------------------------------------------------------------------
  // What the widget shows
  // ---------------------------------------------------------------------------

  /** The check icon replaces the image icon once the meter is at 100. */
  predicate ShowsCheckIcon(progress: int) {
    progress == 100
  }

  /**
   * The line under the progress bar. It is always one of the two messages,
   * and within the meter's range it switches to the redirect message exactly
   * when the check icon appears: the two rendering rules never disagree.
   */
  function StatusText(progress: int): (text: string)
    ensures text == AnalyzingText || text == RedirectingText
    ensures 0 <= progress <= 100 ==> (text == RedirectingText <==> ShowsCheckIcon(progress))
    ensures 0 <= progress <= 100 ==> (text == AnalyzingText <==> !ShowsCheckIcon(progress))
    ensures text == AnalyzingText <==> progress < 100
    ensures text == RedirectingText <==> progress >= 100
  {
    if progress < 100 then AnalyzingText else RedirectingText
  }

  /**
   * While one timer runs from a meter below 100, the panel reads "Analyzing"
   * with the image icon; from the tick that clears the timer and schedules
   * the completion on, it reads "Redirecting" with the check icon.
   */
  lemma StatusFollowsTimer(p: int, increment: int, n: nat)
    requires 0 <= p < 100 && increment > 0
    ensures StatusText(RunTicks(Start(p), increment, n).progress) == RedirectingText
            <==> !RunTicks(Start(p), increment, n).active
    ensures ShowsCheckIcon(RunTicks(Start(p), increment, n).progress)
            <==> RunTicks(Start(p), increment, n).scheduled == 1
  {
    RunTicksClosedForm(p, increment, n);
  }

  /** The file list holds a first file (`files?.[0]` is defined). */
  predicate HasFirst(files: Option<seq<File>>) {
    files.Some? && |files.value| > 0
  }

  /** The widget's rendering: the drop zone until a file is set, then the status panel. */
  datatype UploadView =
    | Dropzone(dragging: bool, inputEnabled: bool, prompt: string)
    | StatusPanel(fileName: string, barWidth: int, checkIcon: bool, statusText: string)

  /** `s` without its element at `k`. */
  function RemoveAt<T>(s: seq<T>, k: nat): (r: seq<T>)
    requires k < |s|
    ensures |r| == |s| - 1
    ensures forall i :: 0 <= i < k ==> r[i] == s[i]
    ensures forall i :: k <= i < |r| ==> r[i] == s[i + 1]
  {
    s[..k] + s[k + 1..]
  }

  // ---------------------------------------------------------------------------
  // The controller
  // ---------------------------------------------------------------------------

  class UploadController {
    /** PROGRESS_INCREMENT: the amount added on every timer tick. */
    const increment: int
    /** Whether the user may upload (supplied by the authentication context). */
    var isSignedIn: bool

    var file: Option<File>
    var isDragging: bool
    var progress: int

    /** Files whose `readAsDataURL` has started and whose load has not fired yet. */
    var pendingReads: seq<File>
    /** Timers started by a load and not cleared yet; no timer is ever cancelled by a new file. */
    var intervals: seq<Interval>
    /** The id the next timer gets. */
    var nextInterval: nat
    /** Completion timeouts scheduled and not yet fired: the data URL each one hands over. */
    var timeouts: seq<string>
    /** The `onComplete` calls made so far, in order. */
    var completions: seq<string>
    /** The ids of the timers that scheduled a completion, in order. */
    ghost var scheduled: seq<nat>

    ghost predicate Valid()
      reads this
    {
      && increment > 0
      && 0 <= progress <= 100
      && (forall i :: 0 <= i < |intervals| ==>
            intervals[i].id < nextInterval && intervals[i].id !in scheduled)
      && (forall i, j :: 0 <= i < j < |intervals| ==> intervals[i].id != intervals[j].id)
      && (forall i :: 0 <= i < |scheduled| ==> scheduled[i] < nextInterval)
      && (forall i, j :: 0 <= i < j < |scheduled| ==> scheduled[i] != scheduled[j])
      && |scheduled| == |timeouts| + |completions|
      && (file.None? ==> pendingReads == [] && intervals == [] && scheduled == [])
    }

    /** True while some timer is still running. */
    predicate IntervalActive()
      reads this
    {
      intervals != []
    }

    constructor (increment: int, isSignedIn: bool)
      requires increment > 0
      ensures Valid()
      ensures this.increment == increment && this.isSignedIn == isSignedIn
      ensures file == None && !isDragging && progress == 0
      ensures pendingReads == [] && intervals == [] && timeouts == [] && completions == []
      ensures !IntervalActive()
    {
      this.increment := increment;
      this.isSignedIn := isSignedIn;
      file := None;
      isDragging := false;
      progress := 0;
      pendingReads := [];
      intervals := [];
      nextInterval := 0;
      timeouts := [];
      completions := [];
      scheduled := [];
    }

    /** What the widget renders for the current state. */
    function View(): (v: UploadView)
      reads this
      ensures v.Dropzone? <==> file.None?
      ensures v.Dropzone? ==> v.dragging == isDragging && v.inputEnabled == isSignedIn
      ensures v.Dropzone? ==> (v.prompt == SignedInPrompt <==> isSignedIn)
      ensures v.StatusPanel? ==> v.fileName == file.value.name && v.barWidth == progress
      ensures v.StatusPanel? ==> (v.checkIcon <==> progress == 100)
      ensures v.StatusPanel? ==> (v.statusText == AnalyzingText <==> progress < 100)
    {
      match file
      case None =>
        Dropzone(isDragging, isSignedIn, if isSignedIn then SignedInPrompt else SignedOutPrompt)
      case Some(f) =>
        StatusPanel(f.name, progress, ShowsCheckIcon(progress), StatusText(progress))
    }

    /**
     * Accepts a file when signed in: records it, resets the meter to 0 and
     * starts reading it. Timers of an earlier file keep running.
     */
    method ProcessFile(selected: File)
      requires Valid()
      modifies this
      ensures Valid()
      ensures !old(isSignedIn) ==> unchanged(this)
      ensures old(isSignedIn) ==>
        && file == Some(selected)
        && progress == 0
        && pendingReads == old(pendingReads) + [selected]
        && intervals == old(intervals) && nextInterval == old(nextInterval)
        && timeouts == old(timeouts) && completions == old(completions)
        && scheduled == old(scheduled)
        && isDragging == old(isDragging) && isSignedIn == old(isSignedIn)
    {
      if !isSignedIn {
        return;
      }
      file := Some(selected);
      progress := 0;
      pendingReads := pendingReads + [selected];
    }

    /** The file input's change event: the first chosen file, if any, when signed in. */
    method HandleChange(files: Option<seq<File>>)
      requires Valid()
      modifies this
      ensures Valid()
      ensures !old(isSignedIn) || !HasFirst(files) ==> unchanged(this)
      ensures old(isSignedIn) && HasFirst(files) ==>
        && file == Some(files.value[0])
        && progress == 0
        && pendingReads == old(pendingReads) + [files.value[0]]
        && intervals == old(intervals) && nextInterval == old(nextInterval)
        && timeouts == old(timeouts) && completions == old(completions)
        && scheduled == old(scheduled)
        && isDragging == old(isDragging) && isSignedIn == old(isSignedIn)
    {
      if !isSignedIn {
        return;
      }
      if HasFirst(files) {
        ProcessFile(files.value[0]);
      }
    }

    /** Dragging over the drop zone highlights it, but only when signed in. */
    method HandleDragOver()
      requires Valid()
      modifies this
      ensures Valid()
      ensures isDragging == (old(isSignedIn) || old(isDragging))
      ensures file == old(file) && progress == old(progress) && pendingReads == old(pendingReads)
      ensures intervals == old(intervals) && nextInterval == old(nextInterval)
      ensures timeouts == old(timeouts) && completions == old(completions)
      ensures scheduled == old(scheduled) && isSignedIn == old(isSignedIn)
    {
      if !isSignedIn {
        return;
      }
      isDragging := true;
    }

    /** Leaving the drop zone always removes the highlight. */
    method HandleDragLeave()
      requires Valid()
      modifies this
      ensures Valid()
      ensures !isDragging
      ensures file == old(file) && progress == old(progress) && pendingReads == old(pendingReads)
      ensures intervals == old(intervals) && nextInterval == old(nextInterval)
      ensures timeouts == old(timeouts) && completions == old(completions)
      ensures scheduled == old(scheduled) && isSignedIn == old(isSignedIn)
    {
      isDragging := false;
    }

    /**
     * A drop always removes the highlight first; only then is sign-in checked
     * and the first dropped file, if any, processed.
     */
    method HandleDrop(files: Option<seq<File>>)
      requires Valid()
      modifies this
      ensures Valid()
      ensures !isDragging
      ensures !old(isSignedIn) || !HasFirst(files) ==>
        && file == old(file) && progress == old(progress) && pendingReads == old(pendingReads)
      ensures old(isSignedIn) && HasFirst(files) ==>
        && file == Some(files.value[0])
        && progress == 0
        && pendingReads == old(pendingReads) + [files.value[0]]
      ensures intervals == old(intervals) && nextInterval == old(nextInterval)
      ensures timeouts == old(timeouts) && completions == old(completions)
      ensures scheduled == old(scheduled) && isSignedIn == old(isSignedIn)
    {
      isDragging := false;
      if !isSignedIn {
        return;
      }
      if HasFirst(files) {
        ProcessFile(files.value[0]);
      }
    }

    /** The read of `pendingReads[k]` has loaded as `base64`: a new timer starts. */
    method ReaderLoaded(k: nat, base64: string)
      requires Valid() && k < |pendingReads|
      modifies this
      ensures Valid()
      ensures pendingReads == RemoveAt(old(pendingReads), k)
      ensures intervals == old(intervals) + [Interval(old(nextInterval), base64)]
      ensures nextInterval == old(nextInterval) + 1
      ensures IntervalActive()
      ensures file == old(file) && progress == old(progress) && isDragging == old(isDragging)
      ensures timeouts == old(timeouts) && completions == old(completions)
      ensures scheduled == old(scheduled) && isSignedIn == old(isSignedIn)
    {
      pendingReads := RemoveAt(pendingReads, k);
      intervals := intervals + [Interval(nextInterval, base64)];
      nextInterval := nextInterval + 1;
    }

    /**
     * Timer `intervals[k]` ticks. Below 100 the meter grows by the increment
     * and the timer keeps running; otherwise the meter is clamped to 100, the
     * timer is cleared and a completion carrying its data URL is scheduled.
     */
    method Tick(k: nat)
      requires Valid() && k < |intervals|
      modifies this
      ensures Valid()
      ensures progress == NextProgress(old(progress), increment)
      ensures !Completes(old(progress), increment) ==>
        intervals == old(intervals) && timeouts == old(timeouts) && scheduled == old(scheduled)
      ensures Completes(old(progress), increment) ==>
        && intervals == RemoveAt(old(intervals), k)
        && timeouts == old(timeouts) + [old(intervals)[k].base64]
        && old(intervals)[k].id !in old(scheduled)
        && scheduled == old(scheduled) + [old(intervals)[k].id]
        && (forall i :: 0 <= i < |intervals| ==> intervals[i].id != old(intervals)[k].id)
      ensures file == old(file) && pendingReads == old(pendingReads) && isDragging == old(isDragging)
      ensures nextInterval == old(nextInterval)
      ensures completions == old(completions) && isSignedIn == old(isSignedIn)
    {
      var next := progress + increment;
      if next >= 100 {
        var done := intervals[k];
        intervals := RemoveAt(intervals, k);
        timeouts := timeouts + [done.base64];
        scheduled := scheduled + [done.id];
        progress := 100;
      } else {
        progress := next;
      }
    }

    /**
     * The timer, when it is the only one running, over `n` periods: each
     * period ticks it while it still runs. The controller then is where the
     * pure timer `RunTicks` says: the meter is the clamped sum, the timer runs
     * exactly while the sum is below 100, and the completion with its data URL
     * has been scheduled once from the tick that reached 100 on.
     */
    method RunTimer(n: nat)
      requires Valid() && |intervals| == 1 && progress < 100
      modifies this
      ensures Valid()
      ensures var t := RunTicks(Start(old(progress)), increment, n);
        && progress == t.progress
        && (IntervalActive() <==> t.active)
        && |scheduled| == |old(scheduled)| + t.scheduled
      ensures progress == (if old(progress) + n * increment < 100 then old(progress) + n * increment else 100)
      ensures old(progress) + n * increment < 100 ==>
        intervals == old(intervals) && timeouts == old(timeouts) && scheduled == old(scheduled)
      ensures old(progress) + n * increment >= 100 ==>
        && intervals == []
        && timeouts == old(timeouts) + [old(intervals)[0].base64]
        && scheduled == old(scheduled) + [old(intervals)[0].id]
      ensures file == old(file) && pendingReads == old(pendingReads) && isDragging == old(isDragging)
      ensures nextInterval == old(nextInterval)
      ensures completions == old(completions) && isSignedIn == old(isSignedIn)
    {
      var p0 := progress;
      var i := 0;
      while i < n
        invariant 0 <= i <= n
        invariant Valid()
        invariant progress == RunTicks(Start(p0), increment, i).progress
        invariant RunTicks(Start(p0), increment, i).active ==>
          intervals == old(intervals) && timeouts == old(timeouts) && scheduled == old(scheduled)
        invariant !RunTicks(Start(p0), increment, i).active ==>
          && intervals == []
          && timeouts == old(timeouts) + [old(intervals)[0].base64]
          && scheduled == old(scheduled) + [old(intervals)[0].id]
        invariant RunTicks(Start(p0), increment, i).scheduled == (if RunTicks(Start(p0), increment, i).active then 0 else 1)
        invariant file == old(file) && pendingReads == old(pendingReads) && isDragging == old(isDragging)
        invariant nextInterval == old(nextInterval)
        invariant completions == old(completions) && isSignedIn == old(isSignedIn)
      {
        RunTicksClosedForm(p0, increment, i);
        if IntervalActive() {
          Tick(0);
        }
        i := i + 1;
      }
      RunTicksClosedForm(p0, increment, n);
    }

    /** The completion timeout `timeouts[k]` fires: `onComplete` receives its data URL. */
    method TimeoutFired(k: nat)
      requires Valid() && k < |timeouts|
      modifies this
      ensures Valid()
      ensures completions == old(completions) + [old(timeouts)[k]]
      ensures timeouts == RemoveAt(old(timeouts), k)
      ensures file == old(file) && progress == old(progress) && pendingReads == old(pendingReads)
      ensures intervals == old(intervals) && nextInterval == old(nextInterval)
      ensures isDragging == old(isDragging)
      ensures scheduled == old(scheduled) && isSignedIn == old(isSignedIn)
    {
      completions := completions + [timeouts[k]];
      timeouts := RemoveAt(timeouts, k);
    }
  }
}
