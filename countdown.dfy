/** The arrival countdown of the tracking screen: a number of seconds that
    goes down by one per tick until it reaches zero, after which completion
    of the booking is scheduled, and its display as "mm:ss". */
module BookingCountdown {
  import opened Domain
  import opened Numerals

  /** The countdown's state. One `Tick` is one run of the screen's effect
      together with the timeout it sets going off. */
  class ArrivalCountdown {
    const totalSeconds: int
    var etaSeconds: int
    /** How many times completion of the booking has been scheduled. */
    var completions: nat

    /** The countdown stays between zero and where it started, and
        completion is scheduled only once it is no longer positive. A
        non-positive start never moves. */
    ghost predicate Valid()
      reads this
    {
      && (totalSeconds > 0 ==> 0 <= etaSeconds <= totalSeconds)
      && (totalSeconds <= 0 ==> etaSeconds == totalSeconds)
      && (completions > 0 ==> etaSeconds <= 0)
    }

    /** The screen opens with the van's estimate in seconds. */
    constructor (etaMinutes: int)
      ensures Valid()
      ensures totalSeconds == etaMinutes * 60 && etaSeconds == totalSeconds
      ensures completions == 0
    {
      totalSeconds := etaMinutes * 60;
      etaSeconds := etaMinutes * 60;
      completions := 0;
    }

    /** While the countdown is positive a tick takes one second off and
        schedules nothing; once it is not, a tick leaves it where it is and
        schedules completion. */
    method Tick()
      requires Valid()
      modifies this
      ensures Valid()
      ensures old(etaSeconds) > 0 ==> etaSeconds == old(etaSeconds) - 1 && completions == old(completions)
      ensures old(etaSeconds) <= 0 ==> etaSeconds == old(etaSeconds) && completions == old(completions) + 1
    {
      if etaSeconds > 0 {
        etaSeconds := etaSeconds - 1;
      } else {
        completions := completions + 1;
      }
    }
  }

  /** A countdown run from the start until completion is first scheduled:
      a positive estimate takes exactly its number of seconds in ticks, a
      non-positive one none, and completion is scheduled once. */
  method RunToArrival(etaMinutes: int) returns (ticks: nat, completions: nat)
    ensures ticks == if etaMinutes > 0 then etaMinutes * 60 else 0
    ensures completions == 1
  {
    var c := new ArrivalCountdown(etaMinutes);
    ticks := 0;
    while c.etaSeconds > 0
      invariant c.Valid()
      invariant c.completions == 0
      invariant c.totalSeconds == etaMinutes * 60
      invariant c.totalSeconds > 0 ==> ticks + c.etaSeconds == c.totalSeconds
      invariant c.totalSeconds <= 0 ==> ticks == 0
      decreases c.etaSeconds
    {
      c.Tick();
      ticks := ticks + 1;
    }
    c.Tick();
    completions := c.completions;
  }

  /** Minutes and seconds left: the minutes are `Math.floor(e / 60)` (which
      Dafny's division by a positive number is) and the seconds JavaScript's
      `%`, whose result has the sign of the dividend. */
  function Split(e: int): (ms: (int, int))
    ensures e >= 0 ==> ms.0 >= 0 && ms.0 * 60 + ms.1 == e && 0 <= ms.1 < 60
    ensures e < 0 ==> -60 < ms.1 <= 0
  {
    (e / 60, if e >= 0 then e % 60 else -((-e) % 60))
  }

  /** `padStart(2, '0')`: zeros in front up to two characters; a longer
      numeral is left alone. */
  function Pad2(s: string): (r: string)
    requires AllDigits(s)
    ensures AllDigits(r) && |r| == (if |s| >= 2 then |s| else 2)
    ensures Value(r) == Value(s)
    ensures r[|r| - |s|..] == s
  {
    if |s| >= 2 then s
    else if |s| == 1 then
      ValueZeroPadded(s);
      assert ("0" + s)[1..] == s;
      "0" + s
    else
      assert Value("0") == 0;
      "00"
  }

  /** The timer text for a non-negative number of seconds. */
  function Clock(e: nat): (t: string)
    ensures |t| >= 5 && t[|t| - 3] == ':'
  {
    var ms := Split(e);
    assert 0 <= ms.0 && 0 <= ms.1 < 60;
    ShowBelowHundred(ms.1);
    var mm, ss := Pad2(Show(ms.0)), Pad2(Show(ms.1));
    mm + ":" + ss
  }

  /** Reading a timer text back: minutes and a two-digit seconds field
      below 60 around the colon three places from the end. */
  function ReadClock(t: string): Option<nat> {
    if |t| < 5 || t[|t| - 3] != ':' then None
    else
      var mm, ss := t[..|t| - 3], t[|t| - 2..];
      if AllDigits(mm) && AllDigits(ss) && Value(ss) < 60 then Some(Value(mm) * 60 + Value(ss))
      else None
  }

  /** The text shown denotes exactly the seconds left. */
  lemma {:induction false} ClockRoundTrip(e: nat)
    ensures ReadClock(Clock(e)) == Some(e)
  {
    var (m, sec) := Split(e);
    ShowBelowHundred(sec);
    var mm, ss := Pad2(Show(m)), Pad2(Show(sec));
    var t := mm + ":" + ss;
    assert t == Clock(e);
    assert |ss| == 2;
    assert t[..|t| - 3] == mm;
    assert t[|t| - 2..] == ss;
  }

  datatype TimerDisplay = Arriving(clock: string) | PartnerArrived

  /** The timer is shown while seconds are left, and it reads back as the
      seconds left; afterwards the screen says the partner has arrived. */
  function Display(e: int): (d: TimerDisplay)
    ensures d.Arriving? <==> e > 0
    ensures d.Arriving? ==> ReadClock(d.clock) == Some(e)
  {
    if e > 0 then ClockRoundTrip(e); Arriving(Clock(e)) else PartnerArrived
  }
}
