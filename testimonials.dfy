/**
 * The testimonial carousel: an index into the fixed list of testimonials that
 * the previous/next buttons, the dots, the preview cards and an autoplay tick
 * move, and the autoplay flag that any manual navigation switches off.
 */
module Testimonials {

  datatype Testimonial = Testimonial(id: int, author: string, role: string, rating: nat)

  /** The list the carousel shows (quotes and avatars are markup here). */
  const Entries: seq<Testimonial> := [
    Testimonial(1, "Maya R.", "People Ops, Globex", 5),
    Testimonial(2, "Priya S.", "Finance Lead, Initech", 5),
    Testimonial(3, "Alex Chen", "Operations Director, TechCorp", 5),
    Testimonial(4, "Sarah Kim", "VP Operations, InnovateLabs", 5)
  ]

  /** `testimonials.length`. */
  const Count: nat := |Entries|

  /** `(prev + 1) % testimonials.length`, used by the next button and the autoplay tick. */
  function Next(i: nat): (r: nat)
    ensures r < Count
    ensures i + 1 < Count ==> r == i + 1
    ensures i + 1 == Count ==> r == 0
  {
    (i + 1) % Count
  }

  /**
   * `(prev - 1 + testimonials.length) % testimonials.length`. The operand is
   * never negative for an index, so the truncating `%` of the source and the
   * Euclidean one agree.
   */
  function Previous(i: nat): (r: nat)
    ensures r < Count
    ensures 0 < i <= Count ==> r == i - 1
    ensures i == 0 ==> r == Count - 1
  {
    (i - 1 + Count) % Count
  }

  /** Previous undoes next. */
  lemma PreviousOfNext(i: nat)
    requires i < Count
    ensures Previous(Next(i)) == i
  {
  }

  /** Next undoes previous. */
  lemma NextOfPrevious(i: nat)
    requires i < Count
    ensures Next(Previous(i)) == i
  {
  }

  /** The index after `k` next steps from `i`. */
  function Advance(i: nat, k: nat): nat {
    if k == 0 then i else Next(Advance(i, k - 1))
  }

  /** `k` next steps from an index move it `k` places round the list. */
  lemma {:induction false} AdvanceIsModular(i: nat, k: nat)
    requires i < Count
    ensures Advance(i, k) == (i + k) % Count
  {
    if k > 0 {
      AdvanceIsModular(i, k - 1);
      var p := (i + k - 1) % Count;
      assert i + k - 1 == (i + k - 1) / Count * Count + p;
      if p + 1 == Count {
        assert i + k == ((i + k - 1) / Count + 1) * Count;
      } else {
        assert i + k == (i + k - 1) / Count * Count + (p + 1);
      }
    }
  }

  /** A full round of next steps comes back to the start. */
  lemma FullRound(i: nat)
    requires i < Count
    ensures Advance(i, Count) == i
  {
    AdvanceIsModular(i, Count);
  }

  /** The carousel's two state variables. */
  datatype State = State(index: nat, autoPlaying: bool)

  const Initial := State(0, true)

  /** What can happen to the carousel: a button, a dot or card click, or an interval tick. */
  datatype Event = GoPrevious | GoNext | Pick(position: nat) | Tick

  /** Dots and preview cards exist only for the positions of the list. */
  predicate ValidEvent(e: Event) {
    e.Pick? ==> e.position < Count
  }

  /** The state after one event. */
  function Step(s: State, e: Event): (r: State)
    ensures e != Tick ==> !r.autoPlaying
    ensures e == Tick ==> r.autoPlaying == s.autoPlaying
    ensures e == GoNext ==> r.index == Next(s.index)
    ensures e == GoPrevious ==> r.index == Previous(s.index)
    ensures e.Pick? ==> r.index == e.position
    ensures e == Tick && !s.autoPlaying ==> r == s
    ensures e == Tick && s.autoPlaying ==> r.index == Next(s.index)
  {
    match e
    case GoPrevious => State(Previous(s.index), false)
    case GoNext => State(Next(s.index), false)
    case Pick(p) => State(p, false)
    case Tick => if s.autoPlaying then State(Next(s.index), true) else s
  }

  /** The state after a sequence of events. */
  function Run(s: State, events: seq<Event>): State {
    if events == [] then s else Step(Run(s, events[..|events| - 1]), events[|events| - 1])
  }

  /** From the initial state the index always points into the list. */
  lemma {:induction false} RunInRange(events: seq<Event>)
    requires forall i :: 0 <= i < |events| ==> ValidEvent(events[i])
    ensures Run(Initial, events).index < Count
  {
    if events != [] {
      RunInRange(events[..|events| - 1]);
    }
  }

  /** Nothing turns autoplay back on: once paused, the carousel stays paused. */
  lemma {:induction false} PausedStaysPaused(s: State, events: seq<Event>)
    requires !s.autoPlaying
    ensures !Run(s, events).autoPlaying
  {
    if events != [] {
      PausedStaysPaused(s, events[..|events| - 1]);
    }
  }

  /** Autoplay is on exactly while only ticks have happened. */
  lemma {:induction false} AutoPlayingIffOnlyTicks(events: seq<Event>)
    ensures Run(Initial, events).autoPlaying <==> forall i :: 0 <= i < |events| ==> events[i] == Tick
  {
    if events != [] {
      var front := events[..|events| - 1];
      AutoPlayingIffOnlyTicks(front);
      assert forall i :: 0 <= i < |front| ==> front[i] == events[i];
    }
  }

  /** `k` ticks of the interval from the initial state show testimonial `k mod n`. */
  lemma {:induction false} TicksAdvance(k: nat)
    ensures Run(Initial, seq(k, _ => Tick)) == State(Advance(0, k), true)
  {
    if k > 0 {
      var ticks := seq(k, _ => Tick);
      assert ticks[..k - 1] == seq(k - 1, _ => Tick);
      TicksAdvance(k - 1);
    }
  }

  /** The carousel component's state. */
  class Carousel {
    var currentIndex: nat
    var isAutoPlaying: bool

    predicate Valid()
      reads this
    {
      currentIndex < Count
    }

    function Current(): State
      reads this
    {
      State(currentIndex, isAutoPlaying)
    }

    constructor ()
      ensures Valid() && Current() == Initial
    {
      currentIndex, isAutoPlaying := 0, true;
    }

    /** The previous button. */
    method GoToPrevious()
      requires Valid()
      modifies this
      ensures Valid() && Current() == Step(old(Current()), GoPrevious)
    {
      currentIndex := (currentIndex - 1 + Count) % Count;
      isAutoPlaying := false;
    }

    /** The next button. */
    method GoToNext()
      requires Valid()
      modifies this
      ensures Valid() && Current() == Step(old(Current()), GoNext)
    {
      currentIndex := (currentIndex + 1) % Count;
      isAutoPlaying := false;
    }

    /** A dot or a preview card: both jump to their position and stop autoplay. */
    method Select(index: nat)
      requires Valid() && index < Count
      modifies this
      ensures Valid() && Current() == Step(old(Current()), Pick(index))
    {
      currentIndex := index;
      isAutoPlaying := false;
    }

    /** The interval callback; the interval exists only while autoplay is on. */
    method Tick()
      requires Valid()
      modifies this
      ensures Valid() && Current() == Step(old(Current()), Event.Tick)
    {
      if isAutoPlaying {
        currentIndex := (currentIndex + 1) % Count;
      }
    }

    /** The testimonial on show. */
    function Shown(): (t: Testimonial)
      requires Valid()
      reads this
      ensures t in Entries
    {
      Entries[currentIndex]
    }
  }
}
