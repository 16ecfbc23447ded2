/** The status window: spending ability points, the active-day count, the
    monthly activity heatmap and its colour buckets. */
module StatusWindow {
  import opened Types
  import Text
  import opened Millis

  function StatValue(s: Stats, n: StatName): int {
    match n
    case Strength => s.strength
    case Vitality => s.vitality
    case Agility => s.agility
    case Intelligence => s.intelligence
  }

  /** Maximum HP as the vitality stat dictates. */
  function MaxHpFor(vitality: int): int {
    100 + (vitality - 10) * 15
  }

  predicate MaxHpConsistent(p: Profile) {
    p.maxHp == MaxHpFor(p.stats.vitality)
  }

  /** `upgradeStat(statName)`: without points nothing happens; otherwise one
      point moves into the named stat, the others stay, maximum HP is
      recomputed from vitality whichever stat was chosen, and HP follows the
      maximum only if it was full. */
  method UpgradeStat(p: Profile, stat: StatName) returns (q: Profile)
    ensures p.stats.unspentPoints <= 0 ==> q == p
    ensures p.stats.unspentPoints > 0 ==>
      && StatValue(q.stats, stat) == StatValue(p.stats, stat) + 1
      && (forall n :: n != stat ==> StatValue(q.stats, n) == StatValue(p.stats, n))
      && q.stats.unspentPoints == p.stats.unspentPoints - 1
      && MaxHpConsistent(q)
      && (p.hp == p.maxHp ==> q.hp == q.maxHp)
      && (p.hp != p.maxHp ==> q.hp == p.hp)
      && q == p.(stats := q.stats, maxHp := q.maxHp, hp := q.hp)
    ensures MaxHpConsistent(p) && p.hp <= p.maxHp ==> MaxHpConsistent(q) && q.hp <= q.maxHp
  {
    if p.stats.unspentPoints > 0 {
      var newStats := p.stats;
      match stat {
        case Strength => newStats := newStats.(strength := newStats.strength + 1);
        case Vitality => newStats := newStats.(vitality := newStats.vitality + 1);
        case Agility => newStats := newStats.(agility := newStats.agility + 1);
        case Intelligence => newStats := newStats.(intelligence := newStats.intelligence + 1);
      }
      newStats := newStats.(unspentPoints := newStats.unspentPoints - 1);
      var newMaxHp := 100 + (newStats.vitality - 10) * 15;
      q := p.(stats := newStats, maxHp := newMaxHp, hp := if p.hp == p.maxHp then newMaxHp else p.hp);
    } else {
      q := p;
    }
  }

  /** `Math.max(1, Math.ceil((now - startDate) / 86400000))`: the days begun
      since the start, at least one. */
  function ActiveDays(now: int, startDate: int): (r: int)
    ensures r >= 1
    ensures now - startDate > 0 ==> (r - 1) * DayMs < now - startDate <= r * DayMs
    ensures now - startDate <= 0 ==> r == 1
  {
    Max(1, -((startDate - now) / DayMs))
  }

  /** The `YYYY-MM-DD` key of a calendar day: the year as printed, month and
      day zero-padded to two digits. */
  function CalendarKey(year: nat, month: nat, day: nat): DateKey {
    Text.NatToString(year) + "-" + Text.PadStart2(Text.NatToString(month)) + "-"
      + Text.PadStart2(Text.NatToString(day))
  }

  /** For a four-digit year, a month and a day below 100, the key is the
      complete extended calendar-date representation of section 4.1.2.2 of
      ISO 8601:2004: ten characters, hyphens at 4 and 7, and each field reads
      back as its number. */
  lemma CalendarKeyFormat(year: nat, month: nat, day: nat)
    requires 1000 <= year <= 9999 && month < 100 && day < 100
    ensures var k := CalendarKey(year, month, day);
      && |k| == 10 && k[4] == '-' && k[7] == '-'
      && (forall i :: 0 <= i < 10 && i != 4 && i != 7 ==> '0' <= k[i] <= '9')
      && Text.ParseNat(k[..4]) == year
      && Text.ParseNat(k[5..7]) == month
      && Text.ParseNat(k[8..]) == day
  {
    Text.DigitCount(year);
    Text.ParseNatToString(year);
    Text.TwoDigits(month);
    Text.TwoDigits(day);
    PaddedDigits(month);
    PaddedDigits(day);
    KeyLayout(Text.NatToString(year), Text.PadStart2(Text.NatToString(month)),
              Text.PadStart2(Text.NatToString(day)));
  }

  lemma PaddedDigits(n: nat)
    requires n < 100
    ensures forall i :: 0 <= i < |Text.PadStart2(Text.NatToString(n))| ==>
      '0' <= Text.PadStart2(Text.NatToString(n))[i] <= '9'
  {
    var s := Text.NatToString(n);
    var p := Text.PadStart2(s);
    forall i | 0 <= i < |p|
      ensures '0' <= p[i] <= '9'
    {
      if i >= |p| - |s| {
        assert p[i] == p[|p| - |s|..][i - (|p| - |s|)];
      }
    }
  }

  /** Where the three fields and the hyphens sit in the key. */
  lemma KeyLayout(y: string, m: string, d: string)
    requires |y| == 4 && |m| == 2 && |d| == 2
    ensures var k := y + "-" + m + "-" + d;
      && |k| == 10 && k[4] == '-' && k[7] == '-'
      && k[..4] == y && k[5..7] == m && k[8..] == d
      && (forall i :: 0 <= i < 4 ==> k[i] == y[i])
      && (forall i :: 5 <= i < 7 ==> k[i] == m[i - 5])
      && (forall i :: 8 <= i < 10 ==> k[i] == d[i - 8])
  {
  }

  /** Different days of four-digit years get different keys. */
  lemma CalendarKeyInjective(y1: nat, m1: nat, d1: nat, y2: nat, m2: nat, d2: nat)
    requires 1000 <= y1 <= 9999 && m1 < 100 && d1 < 100
    requires 1000 <= y2 <= 9999 && m2 < 100 && d2 < 100
    requires CalendarKey(y1, m1, d1) == CalendarKey(y2, m2, d2)
    ensures y1 == y2 && m1 == m2 && d1 == d2
  {
    CalendarKeyFormat(y1, m1, d1);
    CalendarKeyFormat(y2, m2, d2);
  }

  datatype Cell = Cell(day: int, count: int, date: DateKey)

  /** `activityHistory[dateStr] || 0`. */
  function CountOn(history: map<DateKey, int>, key: DateKey): int {
    if key in history then history[key] else 0
  }

  /** The cell for day `d` of the month whose `getMonth()` is `month`. */
  function DayCell(year: nat, month: nat, d: nat, history: map<DateKey, int>): Cell {
    var key := CalendarKey(year, month + 1, d);
    Cell(d, CountOn(history, key), key)
  }

  /** `getHeatmapGrid()`: `firstDay` blank cells (the weekday of the 1st),
      then one cell per day of the month with its key and activity count.
      The calendar readings are inputs. */
  method HeatmapGrid(year: nat, month: nat, firstDay: nat, daysInMonth: nat, history: map<DateKey, int>)
    returns (grid: seq<Option<Cell>>)
    ensures |grid| == firstDay + daysInMonth
    ensures forall i :: 0 <= i < firstDay ==> grid[i].None?
    ensures forall d :: 1 <= d <= daysInMonth ==> grid[firstDay + d - 1] == Some(DayCell(year, month, d, history))
  {
    grid := [];
    var i := 0;
    while i < firstDay
      invariant 0 <= i <= firstDay && |grid| == i
      invariant forall j :: 0 <= j < i ==> grid[j].None?
    {
      grid := grid + [None];
      i := i + 1;
    }
    var d := 1;
    while d <= daysInMonth
      invariant 1 <= d <= daysInMonth + 1
      invariant |grid| == firstDay + d - 1
      invariant forall j :: 0 <= j < firstDay ==> grid[j].None?
      invariant forall e :: 1 <= e < d ==> grid[firstDay + e - 1] == Some(DayCell(year, month, e, history))
    {
      var dateStr := CalendarKey(year, month + 1, d);
      var count := CountOn(history, dateStr);
      grid := grid + [Some(Cell(d, count, dateStr))];
      d := d + 1;
    }
  }

  datatype Intensity = Empty | Low | Mid | High

  /** The colour bucket of a heatmap cell. */
  function Bucket(count: int): (r: Intensity)
    ensures count >= 0 ==>
      && (r == Empty <==> count == 0)
      && (r == Low <==> 1 <= count <= 2)
      && (r == Mid <==> 3 <= count <= 5)
      && (r == High <==> count >= 6)
  {
    if count == 0 then Empty
    else if count < 3 then Low
    else if count < 6 then Mid
    else High
  }

  function IntensityIndex(i: Intensity): nat {
    match i case Empty => 0 case Low => 1 case Mid => 2 case High => 3
  }

  /** More activity never shows a paler cell. */
  lemma BucketMonotone(c1: int, c2: int)
    requires 0 <= c1 <= c2
    ensures IntensityIndex(Bucket(c1)) <= IntensityIndex(Bucket(c2))
  {
  }
}
