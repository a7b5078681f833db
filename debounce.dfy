/** The debounce of the search box. Every keystroke clears the timer whose
    handle the page keeps and arms a new one DELAY milliseconds out; when a
    timer fires, its callback searches for the value the search field holds at
    that moment. Time is an abstract integer clock and the browser's timer
    table is a map from timer id to deadline. */
module Debounce {
  import opened Backend

  /** The delay of the `setTimeout` armed on every keystroke, in milliseconds. */
  const DELAY: nat := 500

  /** The debounce machinery: the clock, the browser's armed timers (id to
      deadline), the handle the page keeps in its `debounceTimeout` state, the
      next id the browser hands out, and the current text of the search field. */
  datatype Timers = Timers(now: int, armed: map<nat, int>, handle: Option<nat>, nextId: nat, text: string)

  /** A keystroke in the search field, or time passing with no keystroke. */
  datatype Event = Type(text: string) | Wait(dt: nat)

  /** Single-slot invariant: the only timer that can be armed is the one the
      handle names, the handle names an id that was already handed out, and
      ids are positive, as browser timer ids are (an id of 0 would be falsy,
      and the page's `if (debounceTimeout)` would then skip clearing it). */
  predicate Valid(s: Timers)
  {
    && (forall id :: id in s.armed ==> s.handle == Some(id))
    && (s.handle.Some? ==> 0 < s.handle.value < s.nextId)
    && s.nextId > 0
  }

  /** `debounceSearch`: clear the timer the handle names, arm a fresh one
      DELAY after now, and keep its id as the new handle. The field now holds
      the typed text. */
  function Keystroke(s: Timers, text: string): (r: Timers)
    ensures Valid(s) ==> Valid(r)
    ensures r.now == s.now && r.text == text
    ensures r.handle == Some(s.nextId) && s.nextId in r.armed && r.armed[s.nextId] == s.now + DELAY
    ensures s.handle.Some? && s.handle.value != s.nextId ==> s.handle.value !in r.armed
    ensures forall id :: id in r.armed && id != s.nextId ==> id in s.armed && Some(id) != s.handle
  {
    var cleared := if s.handle.Some? then s.armed - {s.handle.value} else s.armed;
    s.(armed := cleared[s.nextId := s.now + DELAY], handle := Some(s.nextId), nextId := s.nextId + 1, text := text)
  }

  /** Time passes by `dt`; a timer that comes due fires once, is removed from
      the browser's table and issues a search for the field's current text.
      The page's handle still names it afterwards. */
  function Elapse(s: Timers, dt: nat): (r: (Timers, seq<string>))
    ensures Valid(s) ==> Valid(r.0)
    ensures r.0.now == s.now + dt && r.0.text == s.text && r.0.handle == s.handle && r.0.nextId == s.nextId
    ensures r.1 == [] || r.1 == [s.text]
    ensures r.1 != [] <==> s.handle.Some? && s.handle.value in s.armed && s.armed[s.handle.value] <= s.now + dt
    ensures r.1 != [] ==> r.0.armed == s.armed - {s.handle.value}
    ensures r.1 == [] ==> r.0.armed == s.armed
  {
    var t := s.now + dt;
    if s.handle.Some? && s.handle.value in s.armed && s.armed[s.handle.value] <= t then
      (s.(now := t, armed := s.armed - {s.handle.value}), [s.text])
    else
      (s.(now := t), [])
  }

  /** One event; the second component lists the searches it issues. */
  function Step(s: Timers, e: Event): (r: (Timers, seq<string>))
    ensures Valid(s) ==> Valid(r.0)
    ensures |r.1| <= 1
    ensures e.Type? ==> r.1 == [] && r.0.text == e.text && r.0.now == s.now
    ensures e.Wait? ==> r.0.now == s.now + e.dt && r.0.text == s.text && (r.1 == [] || r.1 == [s.text])
  {
    match e
    case Type(text) => (Keystroke(s, text), [])
    case Wait(dt) => Elapse(s, dt)
  }

  /** A sequence of events, with every search issued, in order. */
  function Run(s: Timers, es: seq<Event>): (r: (Timers, seq<string>))
    decreases |es|
  {
    if es == [] then (s, [])
    else
      var r1 := Step(s, es[0]);
      var r2 := Run(r1.0, es[1..]);
      (r2.0, r1.1 + r2.1)
  }

  /** Exactly one timer armed, due DELAY from now, for the given text. */
  predicate Pending(s: Timers, text: string)
  {
    && Valid(s)
    && s.handle.Some?
    && s.armed == map[s.handle.value := s.now + DELAY]
    && s.text == text
  }

  /** At most one timer is ever armed. */
  lemma AtMostOneArmed(s: Timers)
    requires Valid(s)
    ensures |s.armed.Keys| <= 1
  {
    if s.handle.Some? && s.handle.value in s.armed {
      assert s.armed.Keys == {s.handle.value};
    } else {
      assert s.armed.Keys == {};
    }
  }

  /** A keystroke cancels whatever was pending and leaves exactly one timer,
      under a fresh id, due DELAY after the keystroke. */
  lemma KeystrokeReplacesPending(s: Timers, text: string)
    requires Valid(s)
    ensures Pending(Keystroke(s, text), text)
    ensures Keystroke(s, text).handle == Some(s.nextId) && s.nextId !in s.armed
  {
  }

  /** Running two event sequences one after the other. */
  lemma {:induction false} RunAppend(s: Timers, a: seq<Event>, b: seq<Event>)
    ensures Run(s, a + b).0 == Run(Run(s, a).0, b).0
    ensures Run(s, a + b).1 == Run(s, a).1 + Run(Run(s, a).0, b).1
    decreases |a|
  {
    if a == [] {
      assert a + b == b;
    } else {
      var r1 := Step(s, a[0]);
      assert (a + b)[0] == a[0];
      assert (a + b)[1..] == a[1..] + b;
      RunAppend(r1.0, a[1..], b);
      var mid := Run(r1.0, a[1..]);
      assert Run(s, a).0 == mid.0 && Run(s, a).1 == r1.1 + mid.1;
      assert Run(s, a + b).1 == r1.1 + (mid.1 + Run(mid.0, b).1);
    }
  }

  /** A burst: `texts[i]` is typed, then the user pauses `gaps[i]` before
      typing `texts[i + 1]`. */
  function Burst(texts: seq<string>, gaps: seq<nat>): (es: seq<Event>)
    requires |gaps| + 1 == |texts|
    decreases |gaps|
  {
    if gaps == [] then [Type(texts[0])]
    else [Type(texts[0]), Wait(gaps[0])] + Burst(texts[1..], gaps[1..])
  }

  /** During a burst whose pauses are all shorter than DELAY no search is
      issued, and afterwards exactly one timer is pending, for the last text. */
  lemma {:induction false} BurstLeavesOnePending(s: Timers, texts: seq<string>, gaps: seq<nat>)
    requires Valid(s) && |gaps| + 1 == |texts|
    requires forall i :: 0 <= i < |gaps| ==> gaps[i] < DELAY
    ensures Run(s, Burst(texts, gaps)).1 == []
    ensures Pending(Run(s, Burst(texts, gaps)).0, texts[|texts| - 1])
    decreases |gaps|
  {
    var s1 := Keystroke(s, texts[0]);
    KeystrokeReplacesPending(s, texts[0]);
    if gaps == [] {
      assert Burst(texts, gaps) == [Type(texts[0])];
      assert [Type(texts[0])][1..] == [];
      assert Run(s, [Type(texts[0])]).0 == s1 && Run(s, [Type(texts[0])]).1 == [];
    } else {
      var rest := Burst(texts[1..], gaps[1..]);
      var es := [Type(texts[0]), Wait(gaps[0])] + rest;
      assert Burst(texts, gaps) == es;
      var s2 := Elapse(s1, gaps[0]).0;
      assert Elapse(s1, gaps[0]) == (s2, []);
      assert Valid(s2);
      BurstLeavesOnePending(s2, texts[1..], gaps[1..]);
      assert es[0] == Type(texts[0]) && es[1..] == [Wait(gaps[0])] + rest;
      assert ([Wait(gaps[0])] + rest)[0] == Wait(gaps[0]) && ([Wait(gaps[0])] + rest)[1..] == rest;
      assert Run(s1, [Wait(gaps[0])] + rest).0 == Run(s2, rest).0;
      assert Run(s1, [Wait(gaps[0])] + rest).1 == Run(s2, rest).1;
    }
  }

  /** Throttle collapsing: a burst of keystrokes less than DELAY apart issues
      no search while it lasts, and exactly one search, for the text typed
      last, once DELAY has passed after the last keystroke. Until then it
      issues nothing. */
  lemma BurstIssuesOneSearch(s: Timers, texts: seq<string>, gaps: seq<nat>, pause: nat)
    requires Valid(s) && |gaps| + 1 == |texts|
    requires forall i :: 0 <= i < |gaps| ==> gaps[i] < DELAY
    ensures Run(s, Burst(texts, gaps) + [Wait(pause)]).1 == (if pause >= DELAY then [texts[|texts| - 1]] else [])
  {
    var b := Burst(texts, gaps);
    BurstLeavesOnePending(s, texts, gaps);
    RunAppend(s, b, [Wait(pause)]);
    var sb := Run(s, b).0;
    assert [Wait(pause)][1..] == [];
    assert Run(sb, [Wait(pause)]).1 == Elapse(sb, pause).1;
  }

  /** The converse: a pause of at least DELAY after a keystroke lets its timer
      fire before the next keystroke, so that text is searched. */
  lemma PauseSeparatesSearches(s: Timers, x: string, pause: nat, y: string)
    requires Valid(s) && pause >= DELAY
    ensures Run(s, [Type(x), Wait(pause), Type(y)]).1 == [x]
  {
    KeystrokeReplacesPending(s, x);
    var s1 := Keystroke(s, x);
    var s2 := Elapse(s1, pause).0;
    assert Elapse(s1, pause).1 == [x];
    assert [Type(x), Wait(pause), Type(y)][1..] == [Wait(pause), Type(y)];
    assert [Wait(pause), Type(y)][1..] == [Type(y)];
    assert [Type(y)][1..] == [];
    assert Run(s2, [Type(y)]).1 == [];
  }
}
