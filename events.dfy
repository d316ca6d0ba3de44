/** Pitch events and the row filters of get_matchup: the date window, the
    pitcher-and-batter matchup, and the (balls, strikes) group of groupby. */
module Events {

  /** One pitch: the dataset columns the core reads. `outcome` is the `type`
      column; `date` is the game date as a day number. */
  datatype Event = Event(balls: int, strikes: int, outcome: string, pitchType: string,
                         playerName: string, batterName: string, date: int)

  /** A row condition. */
  datatype Selector =
    | DateWindow(start: int, end: int)      // start <= date < end
    | Matchup(pitcher: string, batter: string)
    | CountState(balls: int, strikes: int)

  predicate Keeps(sel: Selector, e: Event)
  {
    match sel
    case DateWindow(start, end) => start <= e.date < end
    case Matchup(pitcher, batter) => e.playerName == pitcher && e.batterName == batter
    case CountState(balls, strikes) => e.balls == balls && e.strikes == strikes
  }

  /** The rows that satisfy the condition, in their original order. */
  function Select(events: seq<Event>, sel: Selector): (r: seq<Event>)
    ensures |r| <= |events|
    ensures forall e :: e in r ==> e in events && Keeps(sel, e)
  {
    if events == [] then []
    else (if Keeps(sel, events[0]) then [events[0]] else []) + Select(events[1..], sel)
  }

  /** Filtering distributes over concatenation: relative order is kept. */
  lemma {:induction false} SelectAppend(a: seq<Event>, b: seq<Event>, sel: Selector)
    ensures Select(a + b, sel) == Select(a, sel) + Select(b, sel)
  {
    if a == [] {
      assert a + b == b;
    } else {
      assert (a + b)[0] == a[0];
      assert (a + b)[1..] == a[1..] + b;
      SelectAppend(a[1..], b, sel);
    }
  }

  /** Every satisfying row is kept as often as it occurs; no other row is kept. */
  lemma {:induction false} SelectMultiplicity(events: seq<Event>, sel: Selector, e: Event)
    ensures multiset(Select(events, sel))[e] == if Keeps(sel, e) then multiset(events)[e] else 0
  {
    if events != [] {
      assert events == [events[0]] + events[1..];
      SelectMultiplicity(events[1..], sel, e);
    }
  }

  /** Membership in the filtered rows, both directions. */
  lemma SelectMembership(events: seq<Event>, sel: Selector, e: Event)
    ensures e in Select(events, sel) <==> e in events && Keeps(sel, e)
  {
    SelectMultiplicity(events, sel, e);
  }

  /** Filtering twice by the same condition is filtering once. */
  lemma {:induction false} SelectIdempotent(events: seq<Event>, sel: Selector)
    ensures Select(Select(events, sel), sel) == Select(events, sel)
  {
    if events != [] {
      var head := if Keeps(sel, events[0]) then [events[0]] else [];
      SelectAppend(head, Select(events[1..], sel), sel);
      SelectIdempotent(events[1..], sel);
    }
  }

  /** Two filters may be applied in either order. */
  lemma {:induction false} SelectCommute(events: seq<Event>, x: Selector, y: Selector)
    ensures Select(Select(events, x), y) == Select(Select(events, y), x)
  {
    if events != [] {
      var e := events[0];
      var hx := if Keeps(x, e) then [e] else [];
      var hy := if Keeps(y, e) then [e] else [];
      SelectAppend(hx, Select(events[1..], x), y);
      SelectAppend(hy, Select(events[1..], y), x);
      SelectCommute(events[1..], x, y);
    }
  }

  /** A filter keeps nothing exactly when no row satisfies it. */
  lemma SelectEmpty(events: seq<Event>, sel: Selector)
    ensures Select(events, sel) == [] <==> forall e :: e in events ==> !Keeps(sel, e)
  {
    if Select(events, sel) != [] {
      assert Select(events, sel)[0] in Select(events, sel);
    } else {
      forall e | e in events ensures !Keeps(sel, e) {
        SelectMembership(events, sel, e);
      }
    }
  }

  /** The date window is half-open: the start day is in, the end day is out. */
  lemma DateWindowBounds(events: seq<Event>, start: int, end: int, e: Event)
    requires e in events
    ensures e.date == start && start < end ==> e in Select(events, DateWindow(start, end))
    ensures e.date == end ==> e !in Select(events, DateWindow(start, end))
  {
    SelectMembership(events, DateWindow(start, end), e);
  }
}
