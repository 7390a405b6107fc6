/**
  From tenant-local wall time to instants: two looks at the zone's offset, and what they achieve.

  A zone is any function from an instant to its offset, in milliseconds.
 */
module LocalTime {
  const SECOND := 1000
  const MINUTE := 60000
  const DAY := 86400000

  type Zone = int -> int

  /** Wall time on calendar day `day` (days since the epoch) at `minute`, as if it were UTC. */
  function Wall(day: int, minute: int): int {
    day * DAY + minute * MINUTE
  }

  /** The offset the formatter yields: it prints whole seconds, so milliseconds drop out of the wall time. */
  function FormattedOffset(zone: Zone, utc: int): int {
    (utc + zone(utc)) / SECOND * SECOND - utc
  }

  /** A first guess with the offset at the wall time itself, then once more with the offset at the guess. */
  function LocalMinute(zone: Zone, day: int, minute: int): int {
    var wall := Wall(day, minute);
    var guess := wall - FormattedOffset(zone, wall);
    wall - FormattedOffset(zone, guess)
  }

  /** The tenant-local calendar day of an instant. */
  function LocalDay(zone: Zone, utc: int): int {
    (utc + zone(utc)) / DAY
  }

  /** Offsets are whole seconds. */
  ghost predicate WholeSeconds(zone: Zone) {
    forall u :: zone(u) % SECOND == 0
  }

  /** Around wall time `w` the zone has one transition at most: offset `a` before `t`, `b` from `t` on. */
  ghost predicate OneTransition(zone: Zone, w: int, reach: int, t: int, a: int, b: int) {
    && (forall u :: -reach <= zone(u) <= reach)
    && (forall u | w - reach <= u <= w + reach :: zone(u) == if u < t then a else b)
  }

  /** Some clock in the zone shows wall time `w` at instant `u`. */
  predicate ShownAt(zone: Zone, w: int, u: int) {
    u + zone(u) == w
  }

  ghost predicate Exists(zone: Zone, w: int) {
    exists u :: ShownAt(zone, w, u)
  }

  lemma FormattedWhole(zone: Zone, utc: int)
    requires WholeSeconds(zone) && utc % SECOND == 0
    ensures FormattedOffset(zone, utc) == zone(utc)
  {
    DifferenceWhole(utc, -zone(utc));
  }

  lemma WallWhole(day: int, minute: int)
    ensures Wall(day, minute) % SECOND == 0
  {
    assert Wall(day, minute) == (day * 86400 + minute * 60) * SECOND;
  }

  lemma DifferenceWhole(a: int, b: int)
    requires a % SECOND == 0 && b % SECOND == 0
    ensures (a - b) % SECOND == 0
  {
  }

  lemma LocalMinuteWhole(zone: Zone, day: int, minute: int)
    requires WholeSeconds(zone)
    ensures var w := Wall(day, minute);
            LocalMinute(zone, day, minute) == w - zone(w - zone(w))
  {
    hide FormattedOffset;
    var w := Wall(day, minute);
    WallWhole(day, minute);
    FormattedWhole(zone, w);
    DifferenceWhole(w, zone(w));
    FormattedWhole(zone, w - zone(w));
  }

  /**
    Inversion: around at most one transition, the conversion finds an instant at which the clock
    shows the requested time, unless no clock ever shows it.
   */
  lemma Inverts(zone: Zone, day: int, minute: int, reach: int, t: int, a: int, b: int)
    requires WholeSeconds(zone) && OneTransition(zone, Wall(day, minute), reach, t, a, b)
    ensures ShownAt(zone, Wall(day, minute), LocalMinute(zone, day, minute)) <==> Exists(zone, Wall(day, minute))
  {
    var w := Wall(day, minute);
    LocalMinuteWhole(zone, day, minute);
    if Exists(zone, w) {
      var u :| ShownAt(zone, w, u);
      assert w - reach <= u <= w + reach;
      Lands(zone, w, reach, t, a, b, u);
    }
  }

  lemma Lands(zone: Zone, w: int, reach: int, t: int, a: int, b: int, u: int)
    requires OneTransition(zone, w, reach, t, a, b) && ShownAt(zone, w, u)
    ensures ShownAt(zone, w, w - zone(w - zone(w)))
  {
    var o := zone(w);
    assert -reach <= o <= reach;
    assert w - reach <= w <= w + reach;
    assert zone(w) == if w < t then a else b;
    assert -reach <= zone(w - o) <= reach;
    assert zone(w - o) == if w - o < t then a else b;
    var r := w - zone(w - o);
    assert zone(r) == if r < t then a else b;
    assert -reach <= zone(u) <= reach && zone(u) == if u < t then a else b;
  }

  /** Different wall times that are both shown are found at different instants. */
  lemma FoundApart(zone: Zone, day0: int, minute0: int, day1: int, minute1: int)
    requires ShownAt(zone, Wall(day0, minute0), LocalMinute(zone, day0, minute0))
    requires ShownAt(zone, Wall(day1, minute1), LocalMinute(zone, day1, minute1))
    requires 0 <= minute0 < 1440 && 0 <= minute1 < 1440 && (day0, minute0) != (day1, minute1)
    ensures LocalMinute(zone, day0, minute0) != LocalMinute(zone, day1, minute1)
  {
  }

  /** A clock put forward by an hour at `t`. */
  function Forward(t: int): Zone {
    u => if u < t then 0 else 60 * MINUTE
  }

  /** In the gap the promise fails: the skipped minute and a real one an hour apart are found at one instant. */
  lemma GapCollides()
    ensures !Exists(Forward(120 * MINUTE), Wall(0, 120))
    ensures LocalMinute(Forward(120 * MINUTE), 0, 120) == LocalMinute(Forward(120 * MINUTE), 0, 180)
  {
    var zone := Forward(120 * MINUTE);
    forall u ensures !ShownAt(zone, Wall(0, 120), u) { }
    LocalMinuteWhole(zone, 0, 120);
    LocalMinuteWhole(zone, 0, 180);
  }

  /** Any two offsets of the zone differ by a day at most (a zone may cross the date line). */
  ghost predicate WithinADay(zone: Zone) {
    forall u, v :: zone(u) - zone(v) <= DAY
  }

  /** An instant between `lo` and `hi` comes from a calendar day no more than one off their local days. */
  lemma DayIsNear(zone: Zone, day: int, minute: int, lo: int, hi: int)
    requires WholeSeconds(zone) && WithinADay(zone) && 0 <= minute < 1440
    requires lo <= LocalMinute(zone, day, minute) <= hi
    ensures LocalDay(zone, lo) - 1 <= day <= LocalDay(zone, hi) + 1
  {
    var w := Wall(day, minute);
    LocalMinuteWhole(zone, day, minute);
    var v := w - zone(w);
    assert zone(lo) - zone(v) <= DAY && zone(v) - zone(hi) <= DAY;
    assert day * DAY <= w < (day + 1) * DAY;
    assert LocalDay(zone, lo) * DAY <= lo + zone(lo);
    assert hi + zone(hi) < (LocalDay(zone, hi) + 1) * DAY;
  }
}
