/**
 * The prayer-session screen: a fixed deck of prayer requests worked through one swipe at
 * a time. A commit counts the card at once and, after the exit animation, either moves to
 * the next card or (on the last card) reports completion. While a commit is in flight a
 * guard makes every gesture a no-op.
 */
module PrayerSession {
  import opened Wrappers
  import opened SwipeGesture
  import opened PrayerCard

  /** The six sample requests the session works through. */
  const SamplePrayers: seq<PrayerRequest> := [
    PrayerRequest(1, "Health & Healing", "Recovery Prayer",
      "Please pray for my mother who is recovering from surgery. She needs strength and healing during this difficult time. The doctors say she's doing well, but I know the power of prayer can help her heal completely. She has been such a pillar of strength for our family, and now it's our turn to lift her up in prayer.",
      "Sarah M.", true, "2 hours ago"),
    PrayerRequest(2, "Job Opportunities", "Career Guidance",
      "I've been searching for a job for months now. Please pray that God opens the right doors and guides me to the position He has planned for me. I trust in His timing but need strength to keep going. The financial pressure is mounting, but I believe God has a plan for my life and career.",
      "Michael R.", false, "5 hours ago"),
    PrayerRequest(3, "Spiritual Growth", "Faith Journey",
      "I'm going through a season of doubt and need prayer for my faith to be strengthened. Please pray that I can feel God's presence more clearly and that His word becomes alive in my heart again. I want to grow closer to Him but feel distant lately.",
      "Anonymous", false, "1 day ago"),
    PrayerRequest(4, "Marriage & Relationships", "Marriage Restoration",
      "My marriage is going through a very difficult time. Please pray for healing, forgiveness, and restoration. We both want to work things out but need God's wisdom and grace to guide us through this challenging season. Our children need to see us united in love.",
      "Jennifer L.", true, "3 hours ago"),
    PrayerRequest(5, "Family & Children", "Prodigal Son",
      "Please pray for my teenage son who has walked away from his faith and is making dangerous choices. Pray for his protection and that God would draw him back to Himself. I believe in the power of a mother's prayers and trust God will restore our relationship.",
      "Maria G.", false, "6 hours ago"),
    PrayerRequest(6, "Financial Breakthrough", "Provision Needed",
      "Our family is facing financial hardship after unexpected medical bills. Please pray for God's provision and wisdom in managing our resources. We trust that He will provide for all our needs according to His riches in glory.",
      "David K.", true, "4 hours ago")
  ]

  /** The sample deck: six requests with distinct ids, each in a category that has its own colours. */
  lemma SampleDeckShape()
    ensures |SamplePrayers| == 6
    ensures forall i, j :: 0 <= i < j < |SamplePrayers| ==> SamplePrayers[i].id != SamplePrayers[j].id
    ensures forall i :: 0 <= i < |SamplePrayers| ==> SamplePrayers[i].category in ColouredCategories
  {
  }

  // ---------------------------------------------------------------------------------------
  // Session progress

  /** The delayed effect a commit schedules: advance to the next card, or report completion. */
  datatype PendingTimer = NoTimer | AdvanceTimer | CompleteTimer

  /** Cursor, count, guard, the scheduled timeout and whether completion has been reported. */
  datatype Progress = Progress(
    currentIndex: nat,
    prayedForCount: nat,
    isAnimating: bool,
    timer: PendingTimer,
    completed: bool)

  const InitialProgress: Progress := Progress(0, 0, false, NoTimer, false)

  /**
   * The reachable progress states for a deck of `length` cards: the cursor stays on a card;
   * with the guard clear the count equals the cursor; with it set the count is one ahead,
   * and either a timeout is pending or completion has been reported on the last card.
   */
  predicate Consistent(p: Progress, length: nat) {
    && length > 0
    && p.currentIndex <= length - 1
    && (!p.isAnimating ==> p.prayedForCount == p.currentIndex && p.timer == NoTimer && !p.completed)
    && (p.isAnimating ==> p.prayedForCount == p.currentIndex + 1)
    && (p.timer == AdvanceTimer ==> p.isAnimating && p.currentIndex < length - 1)
    && (p.timer == CompleteTimer ==> p.isAnimating && p.currentIndex == length - 1 && !p.completed)
    && (p.isAnimating && p.timer == NoTimer ==> p.completed)
    && (p.completed ==> p.currentIndex == length - 1)
  }

  /**
   * The immediate effect of a commit (`handleCardSwiped`): the guard is set and the card is
   * counted at once; the timeout scheduled depends on whether this was the last card.
   */
  function Swiped(p: Progress, length: nat): (r: Progress)
    ensures r.isAnimating && r.prayedForCount == p.prayedForCount + 1
    ensures r.currentIndex == p.currentIndex && r.completed == p.completed
    ensures r.timer == (if p.currentIndex + 1 < length then AdvanceTimer else CompleteTimer)
  {
    p.(isAnimating := true,
       prayedForCount := p.prayedForCount + 1,
       timer := if p.currentIndex < length - 1 then AdvanceTimer else CompleteTimer)
  }

  /**
   * The delayed effect of a commit: move to the next card and clear the guard, or, after
   * the last card, report completion and leave cursor and guard as they are.
   */
  function TimerFired(p: Progress): (r: Progress)
    requires p.timer != NoTimer
    ensures r.timer == NoTimer && r.prayedForCount == p.prayedForCount
    ensures p.timer == AdvanceTimer ==>
      r.currentIndex == p.currentIndex + 1 && !r.isAnimating && r.completed == p.completed
    ensures p.timer == CompleteTimer ==>
      r.currentIndex == p.currentIndex && r.isAnimating == p.isAnimating && r.completed
  {
    match p.timer
    case AdvanceTimer => p.(currentIndex := p.currentIndex + 1, isAnimating := false, timer := NoTimer)
    case CompleteTimer => p.(completed := true, timer := NoTimer)
  }

  /** A commit with the guard clear keeps the progress consistent. */
  lemma SwipedKeepsConsistent(p: Progress, length: nat)
    requires Consistent(p, length) && !p.isAnimating
    ensures Consistent(Swiped(p, length), length)
  {
  }

  /** A pending timeout keeps the progress consistent when it fires. */
  lemma TimerFiredKeepsConsistent(p: Progress, length: nat)
    requires Consistent(p, length) && p.timer != NoTimer
    ensures Consistent(TimerFired(p), length)
  {
  }

  /** One whole commit: the immediate effect, then the timeout. */
  function CommitCycle(p: Progress, length: nat): Progress {
    TimerFired(Swiped(p, length))
  }

  /** The progress after `k` commits from the start of a session. */
  function AfterCommits(k: nat, length: nat): Progress {
    if k == 0 then InitialProgress else CommitCycle(AfterCommits(k - 1, length), length)
  }

  /**
   * Walking the deck: after fewer commits than cards the cursor and count both equal the
   * number of commits and the guard is clear; the commit on the last card leaves the cursor
   * on that card, the count at the deck size, the guard set and completion reported.
   */
  lemma {:induction false} CommitsWalkTheDeck(k: nat, length: nat)
    requires 0 < length && k <= length
    ensures k < length ==> AfterCommits(k, length) == Progress(k, k, false, NoTimer, false)
    ensures k == length ==> AfterCommits(k, length) == Progress(length - 1, length, true, NoTimer, true)
  {
    if k > 0 {
      CommitsWalkTheDeck(k - 1, length);
    }
  }

  /** Every state reached by commits from the start is consistent. */
  lemma {:induction false} CommitsStayConsistent(k: nat, length: nat)
    requires 0 < length && k <= length
    ensures Consistent(AfterCommits(k, length), length)
  {
    CommitsWalkTheDeck(k, length);
  }

  // ---------------------------------------------------------------------------------------
  // The screen: progress plus the nine animated values, and the gesture events

  datatype Screen = Screen(progress: Progress, visuals: CardVisuals)

  const InitialScreen: Screen := Screen(InitialProgress, RestVisuals)

  /** Drag start: ignored while the guard is set, otherwise the pop. */
  function DragStarted(s: Screen): (r: Screen)
    ensures s.progress.isAnimating ==> r == s
    ensures r.progress == s.progress
    ensures !s.progress.isAnimating ==> r.visuals == StartDrag(s.visuals)
  {
    if s.progress.isAnimating then s else s.(visuals := StartDrag(s.visuals))
  }

  /** Drag update: ignored while the guard is set, otherwise the drag-time maps. */
  function DragMoved(s: Screen, dx: real, dy: real, screenWidth: real): (r: Screen)
    requires screenWidth > 0.0
    ensures s.progress.isAnimating ==> r == s
    ensures r.progress == s.progress
    ensures !s.progress.isAnimating ==> r.visuals.translateX == dx && r.visuals.rotate == Rotation(dx, screenWidth)
    ensures !s.progress.isAnimating ==> r.visuals == ActiveDrag(s.visuals, dx, dy, screenWidth)
  {
    if s.progress.isAnimating then s else s.(visuals := ActiveDrag(s.visuals, dx, dy, screenWidth))
  }

  /** The decision a release makes: none while the guard is set. */
  function ReleaseDecision(s: Screen, dx: real, velocityX: real, screenWidth: real): (d: Option<Release>)
    ensures d.None? <==> s.progress.isAnimating
    ensures d.Some? ==> (d.value.Commit? <==> Abs(dx) > SwipeThreshold(screenWidth) || Abs(velocityX) > FlickVelocity)
    ensures d.Some? ==> d.value == Decide(dx, velocityX, screenWidth)
  {
    if s.progress.isAnimating then None else Some(Decide(dx, velocityX, screenWidth))
  }

  /**
   * Drag release: ignored while the guard is set; a cancel restores the resting stack and
   * changes no progress; a commit starts the exit animation in the decided direction and
   * counts the card at once, with the cursor not yet moved.
   */
  function DragEnded(s: Screen, dx: real, velocityX: real, screenWidth: real, length: nat): (r: Screen)
    ensures s.progress.isAnimating ==> r == s
    ensures ReleaseDecision(s, dx, velocityX, screenWidth) == Some(Cancel) ==>
      r.progress == s.progress && r.visuals == RestVisuals
    ensures ReleaseDecision(s, dx, velocityX, screenWidth) == Some(Commit(Left)) ==>
      r.progress == Swiped(s.progress, length) && r.visuals == ExitVisuals(s.visuals, Left, screenWidth)
    ensures ReleaseDecision(s, dx, velocityX, screenWidth) == Some(Commit(Right)) ==>
      r.progress == Swiped(s.progress, length) && r.visuals == ExitVisuals(s.visuals, Right, screenWidth)
  {
    match ReleaseDecision(s, dx, velocityX, screenWidth)
    case None => s
    case Some(Cancel) => Screen(s.progress, CancelledVisuals(s.visuals))
    case Some(Commit(direction)) => Screen(Swiped(s.progress, length), ExitVisuals(s.visuals, direction, screenWidth))
  }

  /**
   * The commit's timeout: on advancing, every animated value snaps back to the resting
   * stack for the new top card; on completion the exit values stay.
   */
  function TimeoutFired(s: Screen): (r: Screen)
    requires s.progress.timer != NoTimer
    ensures r.progress == TimerFired(s.progress)
    ensures s.progress.timer == AdvanceTimer ==> r.visuals == RestVisuals
    ensures s.progress.timer == CompleteTimer ==> r.visuals == s.visuals
  {
    Screen(TimerFired(s.progress), if s.progress.timer == AdvanceTimer then RestVisuals else s.visuals)
  }

  /** Every gesture event and every timeout keeps the progress consistent. */
  lemma EventsKeepConsistent(s: Screen, dx: real, dy: real, velocityX: real, screenWidth: real, length: nat)
    requires Consistent(s.progress, length) && screenWidth > 0.0
    ensures Consistent(DragStarted(s).progress, length)
    ensures Consistent(DragMoved(s, dx, dy, screenWidth).progress, length)
    ensures Consistent(DragEnded(s, dx, velocityX, screenWidth, length).progress, length)
    ensures s.progress.timer != NoTimer ==> Consistent(TimeoutFired(s).progress, length)
  {
    if !s.progress.isAnimating {
      SwipedKeepsConsistent(s.progress, length);
    }
    if s.progress.timer != NoTimer {
      TimerFiredKeepsConsistent(s.progress, length);
    }
  }

  /**
   * A commit before the last card, followed by its timeout: cursor and count both one
   * further, guard clear, the whole stack at rest for the next card.
   */
  lemma CommitBeforeLastCard(s: Screen, dx: real, velocityX: real, screenWidth: real, length: nat)
    requires Consistent(s.progress, length) && !s.progress.isAnimating
    requires s.progress.currentIndex < length - 1
    requires Decide(dx, velocityX, screenWidth).Commit?
    ensures DragEnded(s, dx, velocityX, screenWidth, length).progress.timer == AdvanceTimer
    ensures TimeoutFired(DragEnded(s, dx, velocityX, screenWidth, length)) ==
      Screen(Progress(s.progress.currentIndex + 1, s.progress.currentIndex + 1, false, NoTimer, false), RestVisuals)
  {
  }

  /**
   * A commit on the last card, followed by its timeout: the count reaches the deck size,
   * the cursor stays on the last card, the guard stays set and completion is reported.
   */
  lemma CommitOnLastCard(s: Screen, dx: real, velocityX: real, screenWidth: real, length: nat)
    requires Consistent(s.progress, length) && !s.progress.isAnimating
    requires s.progress.currentIndex == length - 1
    requires Decide(dx, velocityX, screenWidth).Commit?
    ensures DragEnded(s, dx, velocityX, screenWidth, length).progress.timer == CompleteTimer
    ensures TimeoutFired(DragEnded(s, dx, velocityX, screenWidth, length)).progress ==
      Progress(length - 1, length, true, NoTimer, true)
  {
  }

  /** After completion nothing is pending and every gesture is ignored for good. */
  lemma CompletionIsFinal(s: Screen, dx: real, dy: real, velocityX: real, screenWidth: real, length: nat)
    requires Consistent(s.progress, length) && s.progress.completed && screenWidth > 0.0
    ensures s.progress.timer == NoTimer && s.progress.prayedForCount == length
    ensures DragStarted(s) == s && DragMoved(s, dx, dy, screenWidth) == s
    ensures DragEnded(s, dx, velocityX, screenWidth, length) == s
    ensures ReleaseDecision(s, dx, velocityX, screenWidth).None?
  {
  }

  // ---------------------------------------------------------------------------------------
  // What the screen derives for display

  /** The three stacked cards: top, next and third, each present only if the deck reaches it. */
  datatype CardStack = CardStack(top: Option<PrayerRequest>, next: Option<PrayerRequest>, third: Option<PrayerRequest>)

  function CardAt(deck: seq<PrayerRequest>, i: nat): (c: Option<PrayerRequest>)
    ensures c.Some? <==> i < |deck|
    ensures c.Some? ==> c.value == deck[i]
  {
    if i < |deck| then Some(deck[i]) else None
  }

  function VisibleCards(deck: seq<PrayerRequest>, currentIndex: nat): (stack: CardStack)
    ensures stack.top.Some? <==> currentIndex < |deck|
    ensures stack.next.Some? <==> currentIndex + 1 < |deck|
    ensures stack.third.Some? <==> currentIndex + 2 < |deck|
    ensures stack.top.Some? ==> stack.top.value == deck[currentIndex]
    ensures stack.next.Some? ==> stack.next.value == deck[currentIndex + 1]
    ensures stack.third.Some? ==> stack.third.value == deck[currentIndex + 2]
  {
    CardStack(CardAt(deck, currentIndex), CardAt(deck, currentIndex + 1), CardAt(deck, currentIndex + 2))
  }

  function CountPresent(stack: CardStack): nat {
    (if stack.top.Some? then 1 else 0) + (if stack.next.Some? then 1 else 0) + (if stack.third.Some? then 1 else 0)
  }

  /**
   * In every consistent state the top card is the cursor's card, and the stack shows
   * min(3, cards from the cursor on) cards.
   */
  lemma StackShowsCardsFromCursor(deck: seq<PrayerRequest>, p: Progress)
    requires Consistent(p, |deck|)
    ensures VisibleCards(deck, p.currentIndex).top == Some(deck[p.currentIndex])
    ensures CountPresent(VisibleCards(deck, p.currentIndex)) ==
      if |deck| - p.currentIndex < 3 then |deck| - p.currentIndex else 3
  {
  }

  /** The "Remaining" figure: cards from the cursor on. */
  function Remaining(p: Progress, length: nat): (r: int)
    ensures p.currentIndex < length ==> r >= 1
    ensures p.currentIndex + r == length
  {
    length - p.currentIndex
  }

  /**
   * "Remaining" is at least one in every consistent state; it adds up with "Prayed" to the
   * deck size while the guard is clear, and to one more while a commit is in flight or after
   * completion, because the count moves before the cursor (and the cursor never moves past
   * the last card).
   */
  lemma RemainingAndPrayed(p: Progress, length: nat)
    requires Consistent(p, length)
    ensures 1 <= Remaining(p, length) <= length
    ensures p.prayedForCount + Remaining(p, length) == if p.isAnimating then length + 1 else length
  {
  }

  /** JavaScript's `Math.round`: the nearest integer, halves rounded up. */
  function Round(x: real): (r: int)
    ensures r as real - 0.5 <= x < r as real + 0.5
  {
    (x + 0.5).Floor
  }

  /** The progress bar's width, in percent of the deck prayed for. */
  function ProgressFraction(prayedForCount: nat, length: nat): (pct: real)
    requires 0 < length && prayedForCount <= length
    ensures 0.0 <= pct <= 100.0
    ensures pct == 100.0 <==> prayedForCount == length
    ensures pct == 0.0 <==> prayedForCount == 0
  {
    FractionInUnit(prayedForCount as real, length as real);
    assert prayedForCount as real / length as real == 1.0 <==> prayedForCount == length by {
      DivisionDistributes(0.0, length as real, length as real);
      DivisionInverse(prayedForCount as real, length as real);
    }
    (prayedForCount as real / length as real) * 100.0
  }

  /** The "% Complete" label: the bar's width rounded, from 0 at the start to 100 at the end. */
  function PercentComplete(prayedForCount: nat, length: nat): (pct: int)
    requires 0 < length && prayedForCount <= length
    ensures 0 <= pct <= 100
    ensures prayedForCount == 0 ==> pct == 0
    ensures prayedForCount == length ==> pct == 100
    ensures (pct as real) - 0.5 <= ProgressFraction(prayedForCount, length) < (pct as real) + 0.5
  {
    Round(ProgressFraction(prayedForCount, length))
  }

  /** Whole minutes between two millisecond timestamps, rounded as the header timer shows them. */
  function ElapsedMinutes(startMs: int, nowMs: int): (minutes: int)
    ensures minutes * 60000 - 30000 <= nowMs - startMs < minutes * 60000 + 30000
  {
    var m := Round((nowMs - startMs) as real / 60000.0);
    assert (m as real - 0.5) * 60000.0 <= (nowMs - startMs) as real < (m as real + 0.5) * 60000.0;
    m
  }

  // ---------------------------------------------------------------------------------------
  // The screen object

  /**
   * The session screen's state: the deck and screen width it was opened with, the progress
   * fields and the nine shared animation values, updated by the gesture callbacks and the
   * commit's timeout.
   */
  class PrayerSessionScreen {
    const deck: seq<PrayerRequest>
    const screenWidth: real

    var currentIndex: nat
    var prayedForCount: nat
    var isAnimating: bool
    var timer: PendingTimer
    var completed: bool

    var translateX: real
    var translateY: real
    var rotate: real
    var scale: real
    var opacity: real
    var nextCardScale: real
    var nextCardOpacity: real
    var thirdCardScale: real
    var thirdCardOpacity: real

    /** The fields as one value of the screen model. */
    function Model(): Screen
      reads this
    {
      Screen(Progress(currentIndex, prayedForCount, isAnimating, timer, completed),
             CardVisuals(translateX, translateY, rotate, scale, opacity,
                         nextCardScale, nextCardOpacity, thirdCardScale, thirdCardOpacity))
    }

    ghost predicate Valid()
      reads this
    {
      screenWidth > 0.0 && Consistent(Model().progress, |deck|)
    }

    method SetVisuals(v: CardVisuals)
      modifies this
      ensures Model() == Screen(old(Model()).progress, v)
    {
      translateX, translateY, rotate, scale, opacity := v.translateX, v.translateY, v.rotate, v.scale, v.opacity;
      nextCardScale, nextCardOpacity := v.nextScale, v.nextOpacity;
      thirdCardScale, thirdCardOpacity := v.thirdScale, v.thirdOpacity;
    }

    /** A session opens on the first card with nothing counted and the stack at rest. */
    constructor (deck: seq<PrayerRequest>, screenWidth: real)
      requires |deck| > 0 && screenWidth > 0.0
      ensures Valid() && this.deck == deck && this.screenWidth == screenWidth
      ensures Model() == InitialScreen
    {
      this.deck := deck;
      this.screenWidth := screenWidth;
      currentIndex, prayedForCount, isAnimating, timer, completed := 0, 0, false, NoTimer, false;
      translateX, translateY, rotate, scale, opacity := 0.0, 0.0, 0.0, 1.0, 1.0;
      nextCardScale, nextCardOpacity, thirdCardScale, thirdCardOpacity := 0.94, 0.7, 0.88, 0.5;
    }

    /** Spring the top card back into place (`resetCardPosition`); the previews are not touched. */
    method ResetCardPosition()
      modifies this
      ensures Model().progress == old(Model()).progress
      ensures Model().visuals == old(Model()).visuals.(translateX := 0.0, translateY := 0.0, rotate := 0.0,
                                                       scale := 1.0, opacity := 1.0)
    {
      translateX, translateY, rotate, scale, opacity := 0.0, 0.0, 0.0, 1.0, 1.0;
    }

    /** Fly the top card out and move the previews up one rank (`animateCardOut`). */
    method AnimateCardOut(direction: Direction)
      modifies this
      ensures Model().progress == old(Model()).progress
      ensures Model().visuals == ExitVisuals(old(Model()).visuals, direction, screenWidth)
    {
      translateX := if direction == Left then -screenWidth * 1.5 else screenWidth * 1.5;
      rotate := if direction == Left then -60.0 else 60.0;
      opacity := 0.0;
      scale := 0.7;
      nextCardScale, nextCardOpacity := 1.0, 1.0;
      thirdCardScale, thirdCardOpacity := 0.94, 0.7;
    }

    /** The immediate part of a commit (`handleCardSwiped`). */
    method HandleCardSwiped()
      modifies this
      ensures Model() == Screen(Swiped(old(Model()).progress, |deck|), old(Model()).visuals)
    {
      isAnimating := true;
      prayedForCount := prayedForCount + 1;
      if currentIndex < |deck| - 1 {
        timer := AdvanceTimer;
      } else {
        timer := CompleteTimer;
      }
    }

    /** The finger touches the card. */
    method OnDragStart()
      requires Valid()
      modifies this
      ensures Valid() && Model() == DragStarted(old(Model()))
    {
      if isAnimating {
        return;
      }
      scale := 1.05;
    }

    /** The finger has moved to offset (dx, dy). */
    method OnDragActive(dx: real, dy: real)
      requires Valid()
      modifies this
      ensures Valid() && Model() == DragMoved(old(Model()), dx, dy, screenWidth)
    {
      if isAnimating {
        return;
      }
      translateX := dx;
      translateY := dy * 0.1;
      rotate := Rotation(dx, screenWidth);
      opacity := TopOpacity(dx, screenWidth);
      var progress := SwipeProgress(dx, screenWidth);
      nextCardScale := Interpolate(progress, 0.0, 1.0, 0.94, 1.0);
      nextCardOpacity := Interpolate(progress, 0.0, 1.0, 0.7, 1.0);
      thirdCardScale := Interpolate(progress, 0.0, 1.0, 0.88, 0.94);
      thirdCardOpacity := Interpolate(progress, 0.0, 1.0, 0.5, 0.7);
    }

    /** The finger lifts at offset dx with horizontal speed velocityX; returns the decision made. */
    method OnDragEnd(dx: real, velocityX: real) returns (decision: Option<Release>)
      requires Valid()
      modifies this
      ensures Valid() && Model() == DragEnded(old(Model()), dx, velocityX, screenWidth, |deck|)
      ensures decision == ReleaseDecision(old(Model()), dx, velocityX, screenWidth)
    {
      if isAnimating {
        return None;
      }
      var shouldSwipe := Abs(dx) > SwipeThreshold(screenWidth) || Abs(velocityX) > FlickVelocity;
      if shouldSwipe {
        var direction := if dx > 0.0 then Right else Left;
        AnimateCardOut(direction);
        SwipedKeepsConsistent(old(Model()).progress, |deck|);
        HandleCardSwiped();
        decision := Some(Commit(direction));
      } else {
        ResetCardPosition();
        nextCardScale, nextCardOpacity := 0.94, 0.7;
        thirdCardScale, thirdCardOpacity := 0.88, 0.5;
        decision := Some(Cancel);
      }
    }

    /** The commit's 500 ms timeout fires. */
    method OnSwipeTimeout()
      requires Valid() && timer != NoTimer
      modifies this
      ensures Valid() && Model() == TimeoutFired(old(Model()))
    {
      TimerFiredKeepsConsistent(Model().progress, |deck|);
      if timer == AdvanceTimer {
        currentIndex := currentIndex + 1;
        SetVisuals(RestVisuals);
        isAnimating := false;
      } else {
        completed := true;
      }
      timer := NoTimer;
    }

    /** The cards the screen shows now. */
    function Stack(): (stack: CardStack)
      reads this
      requires Valid()
      ensures stack.top == Some(deck[currentIndex])
      ensures stack == VisibleCards(deck, currentIndex)
    {
      VisibleCards(deck, currentIndex)
    }
  }
}
