/**
 * The restaurant owner's dashboard: how long ago each order came in, the
 * pending/accepted/completed counters, and the status buttons each order card
 * offers. The current time is a parameter.
 */
module OwnerDashboard {
  import opened Common
  import opened Seqs
  import opened Text
  import opened Schema

  const MinuteMs := 60000
  const HourMs := 3600000
  const DayMs := 86400000

  /** The bucket `getTimeAgo` picks; the number is the whole count of that unit. */
  datatype Ago = JustNow | Minutes(m: nat) | Hours(h: nat) | Days(d: nat)

  /**
   * `getTimeAgo`'s bucketing of `diff` milliseconds, with each division
   * rounded down: under a minute (also any negative difference) is "just now",
   * then whole minutes below an hour, whole hours below a day, whole days.
   */
  function TimeAgo(diff: int): (a: Ago)
    ensures a.JustNow? <==> diff < MinuteMs
    ensures a.Minutes? <==> MinuteMs <= diff < HourMs
    ensures a.Hours? <==> HourMs <= diff < DayMs
    ensures a.Days? <==> DayMs <= diff
    ensures a.Minutes? ==> 1 <= a.m < 60 && a.m * MinuteMs <= diff < (a.m + 1) * MinuteMs
    ensures a.Hours? ==> 1 <= a.h < 24 && a.h * HourMs <= diff < (a.h + 1) * HourMs
    ensures a.Days? ==> 1 <= a.d && a.d * DayMs <= diff < (a.d + 1) * DayMs
  {
    var minutes := diff / MinuteMs;
    if minutes < 1 then JustNow
    else if minutes < 60 then Minutes(minutes)
    else
      var hours := minutes / 60;
      FloorTwice(diff);
      if hours < 24 then Hours(hours)
      else
        Days(hours / 24)
  }

  /** Whole minutes then whole hours is whole hours; whole hours then whole days is whole days. */
  lemma FloorTwice(x: int)
    ensures x / MinuteMs / 60 == x / HourMs
    ensures x / HourMs / 24 == x / DayMs
  {
    var q := x / HourMs;
    assert q * HourMs <= x < (q + 1) * HourMs;
    assert q * 60 * MinuteMs <= x < (q + 1) * 60 * MinuteMs;
    var d := x / DayMs;
    assert d * 24 * HourMs <= x < (d + 1) * 24 * HourMs;
  }

  /** The text shown. */
  function Render(a: Ago): string {
    match a
    case JustNow => "Just now"
    case Minutes(m) => NatToString(m) + " min ago"
    case Hours(h) => NatToString(h) + "h ago"
    case Days(d) => NatToString(d) + "d ago"
  }

  /** `getTimeAgo(createdAt)` at time `now`. */
  function GetTimeAgo(now: int, createdAt: int): string {
    Render(TimeAgo(now - createdAt))
  }

  /** The boundaries: 59 minutes, one hour, and one day. */
  lemma TimeAgoBoundaries(createdAt: int)
    ensures GetTimeAgo(createdAt + 59 * MinuteMs, createdAt) == "59 min ago"
    ensures GetTimeAgo(createdAt + 60 * MinuteMs, createdAt) == "1h ago"
    ensures GetTimeAgo(createdAt + 24 * HourMs, createdAt) == "1d ago"
    ensures GetTimeAgo(createdAt + MinuteMs - 1, createdAt) == "Just now"
  {
    assert TimeAgo(59 * MinuteMs) == Minutes(59);
    assert NatToString(59) == "59";
    assert TimeAgo(60 * MinuteMs) == Hours(1);
    assert TimeAgo(24 * HourMs) == Days(1);
  }

  /** Different buckets never show the same text. */
  lemma RenderInjective(a: Ago, b: Ago)
    requires Render(a) == Render(b)
    ensures a == b
  {
    RenderShape(a);
    RenderShape(b);
    if !a.JustNow? {
      var s := Render(a);
      assert Suffix(a) == Suffix(b);
      assert NatToString(Number(a)) == s[..|s| - |Suffix(a)|] == NatToString(Number(b));
      NatToStringInjective(Number(a), Number(b));
    }
  }

  /** "Just now" is the only text starting with a letter; the others end in their unit's suffix. */
  lemma RenderShape(a: Ago)
    ensures Render(a)[0] == 'J' <==> a.JustNow?
    ensures !a.JustNow? ==> Render(a) == NatToString(Number(a)) + Suffix(a)
    ensures !a.JustNow? ==> |Render(a)| >= 6 && Render(a)[|Render(a)| - 5] == UnitMark(a)
  {
    if !a.JustNow? {
      var digits := NatToString(Number(a));
      assert Render(a) == digits + Suffix(a);
      assert Render(a)[0] == digits[0];
    }
  }

  function Number(a: Ago): nat {
    match a
    case JustNow => 0
    case Minutes(m) => m
    case Hours(h) => h
    case Days(d) => d
  }

  function Suffix(a: Ago): string {
    match a
    case JustNow => ""
    case Minutes(_) => " min ago"
    case Hours(_) => "h ago"
    case Days(_) => "d ago"
  }

  /** The character five from the end, which tells the units apart. */
  function UnitMark(a: Ago): char {
    match a
    case JustNow => ' '
    case Minutes(_) => 'n'
    case Hours(_) => 'h'
    case Days(_) => 'd'
  }

  /** The three counters above the order list. */
  datatype Counts = Counts(pending: nat, accepted: nat, completed: nat)

  function CountStatus(orders: seq<Order>, s: Status): nat {
    |Filter(orders, (o: Order) => o.status == Some(s))|
  }

  /** Each counter, and their sum, is at most the number of orders. */
  function StatusCounts(orders: seq<Order>): (c: Counts)
    ensures c == Counts(CountStatus(orders, Pending), CountStatus(orders, Accepted), CountStatus(orders, Completed))
    ensures c.pending + c.accepted + c.completed <= |orders|
  {
    CountExclusive3(orders, (o: Order) => o.status == Some(Pending), (o: Order) => o.status == Some(Accepted),
      (o: Order) => o.status == Some(Completed));
    Counts(CountStatus(orders, Pending), CountStatus(orders, Accepted), CountStatus(orders, Completed))
  }

  /**
   * The buttons an order card offers, as the status each would set: a pending
   * order can be rejected or accepted, an accepted one completed, and the rest
   * offer nothing.
   */
  function OfferedActions(status: Option<Status>): (r: seq<Status>)
    ensures Pending !in r
    ensures status == Some(Pending) <==> r == [Rejected, Accepted]
    ensures status == Some(Accepted) <==> r == [Completed]
    ensures r == [] <==> status != Some(Pending) && status != Some(Accepted)
  {
    match status
    case Some(Pending) => [Rejected, Accepted]
    case Some(Accepted) => [Completed]
    case _ => []
  }

  /** Following the buttons, every order is finished after at most two clicks. */
  lemma AtMostTwoClicks(s: Option<Status>, t: Status, u: Status)
    requires t in OfferedActions(s) && u in OfferedActions(Some(t))
    ensures s == Some(Pending) && t == Accepted && u == Completed
    ensures OfferedActions(Some(u)) == []
  {
  }
}
