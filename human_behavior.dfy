/**
 * The pure rules of the human-behaviour helpers: randomised delays drawn from
 * a per-kind range, the interpolation curves used for pointer motion, and the
 * ban-indicator check over a page's title, visible text and address.
 * The two `Math.random()` draws of a delay are parameters `r1`, `r2` in [0, 1).
 */
module HumanBehavior {
  import opened Common

  /** A delay range in milliseconds, `{ min, max }`. */
  datatype DelayRange = DelayRange(min: int, max: int)

  /** The configured delay kinds: between actions, before a scroll, after a
      page load, between typed characters, and reading a post. */
  function DelayTable(): map<string, DelayRange>
  {
    map[
      "betweenActions" := DelayRange(2000, 5000),
      "beforeScroll" := DelayRange(1000, 3000),
      "afterPageLoad" := DelayRange(3000, 8000),
      "typingSpeed" := DelayRange(50, 150),
      "readingTime" := DelayRange(500, 2000)
    ]
  }

  /** The range for a kind; an unknown kind falls back to 1-3 s. */
  function DelayFor(kind: string): (d: DelayRange)
    ensures kind in DelayTable() ==> d == DelayTable()[kind]
    ensures kind !in DelayTable() ==> d == DelayRange(1000, 3000)
    ensures 50 <= d.min < d.max
  {
    if kind in DelayTable() then DelayTable()[kind] else DelayRange(1000, 3000)
  }

  /** The first draw: `floor(r1 * (max - min) + min)`. */
  function BaseDelay(d: DelayRange, r1: real): (ms: int)
    requires 0.0 <= r1 < 1.0
    requires d.min < d.max
    ensures d.min <= ms < d.max
  {
    var span := (d.max - d.min) as real;
    MulMonotone(r1, 1.0, span);
    MulNonNegative(r1, span);
    assert r1 * span < span by {
      MulMonotone(r1, 1.0, span);
      assert (1.0 - r1) * span > 0.0 by { StrictPositive(1.0 - r1, span); }
    }
    (r1 * span + d.min as real).Floor
  }

  lemma StrictPositive(a: real, b: real)
    requires a > 0.0 && b > 0.0
    ensures a * b > 0.0
  {
  }

  /** `humanDelay(kind)`: the base delay moved by up to 10% either way by the
      second draw, rounded down. */
  function HumanDelay(kind: string, r1: real, r2: real): (ms: int)
    requires 0.0 <= r1 < 1.0 && 0.0 <= r2 < 1.0
    ensures var base := BaseDelay(DelayFor(kind), r1);
            (0.9 * base as real).Floor <= ms <= (1.1 * base as real).Floor
    ensures ms > 0
  {
    var delay := BaseDelay(DelayFor(kind), r1);
    Jittered(delay, r2);
    Jitter(delay, r2).Floor
  }

  /** `floor(delay + (r2 - 0.5) * (delay * 0.2))`. */
  function Jitter(delay: int, r2: real): real
  {
    delay as real + Share(delay as real * 0.2, r2 - 0.5)
  }

  lemma Jittered(delay: int, r2: real)
    requires delay >= 50 && 0.0 <= r2 < 1.0
    ensures (0.9 * delay as real).Floor <= Jitter(delay, r2).Floor <= (1.1 * delay as real).Floor
    ensures Jitter(delay, r2).Floor > 0
  {
    var x := Jitter(delay, r2);
    JitterWithin(delay as real, r2);
    assert 0.9 * delay as real <= x <= 1.1 * delay as real;
    FloorMonotone(0.9 * delay as real, x);
    FloorMonotone(x, 1.1 * delay as real);
    FloorMonotone(1.0, 0.9 * delay as real);
  }

  /** The shift `(r2 - 0.5) * (d * 0.2)` is at most 10% of `d` either way. */
  lemma JitterWithin(d: real, r2: real)
    requires d >= 0.0 && 0.0 <= r2 < 1.0
    ensures -0.1 * d <= Share(d * 0.2, r2 - 0.5) <= 0.1 * d
  {
    var scaled := d * 0.2;
    var shift := r2 - 0.5;
    MulMonotone(-0.5, shift, scaled);
    MulMonotone(shift, 0.5, scaled);
    assert Share(scaled, shift) == shift * scaled;
  }

  lemma FloorMonotone(a: real, b: real)
    requires a <= b
    ensures a.Floor <= b.Floor
  {
  }

  /** The share `t` of `a`; naming the product keeps the bound proofs linear. */
  function Share(a: real, t: real): real
  {
    a * t
  }

  lemma ShareMonotone(a: real, b: real, t: real)
    requires a <= b && t >= 0.0
    ensures Share(a, t) <= Share(b, t)
  {
    MulMonotone(a, b, t);
  }

  /** The shares `1 - t` and `t` of `a` make up `a`. */
  lemma ShareSplit(a: real, t: real)
    ensures Share(a, 1.0 - t) + Share(a, t) == a
  {
    assert a * (1.0 - t) + a * t == a * 1.0;
  }

  /** Linear interpolation `start * (1 - t) + end * t`. */
  function Lerp(start: real, end: real, t: real): (r: real)
    ensures t == 0.0 ==> r == start
    ensures t == 1.0 ==> r == end
    ensures 0.0 <= t <= 1.0 && start <= end ==> start <= r <= end
    ensures 0.0 <= t <= 1.0 && end <= start ==> end <= r <= start
  {
    ShareSplit(start, t);
    ShareSplit(end, t);
    if 0.0 <= t <= 1.0 && start <= end then
      ShareMonotone(start, end, t);
      ShareMonotone(start, end, 1.0 - t);
      Share(start, 1.0 - t) + Share(end, t)
    else if 0.0 <= t <= 1.0 then
      ShareMonotone(end, start, t);
      ShareMonotone(end, start, 1.0 - t);
      Share(start, 1.0 - t) + Share(end, t)
    else
      Share(start, 1.0 - t) + Share(end, t)
  }

  /** The ease-in-out curve: quadratic acceleration, then deceleration. */
  function EaseInOut(t: real): (r: real)
    ensures t == 0.0 ==> r == 0.0
    ensures t == 1.0 ==> r == 1.0
    ensures 0.0 <= t <= 1.0 ==> 0.0 <= r <= 1.0
  {
    if t < 0.5 then
      assert 0.0 <= t ==> 0.0 <= 2.0 * t * t <= 1.0 by {
        if 0.0 <= t {
          MulNonNegative(t, t);
          MulMonotone(t, 0.5, t);
          MulMonotone(t, 0.5, 0.5);
        }
      }
      2.0 * t * t
    else
      var u := 1.0 - t;
      var r := -1.0 + (4.0 - 2.0 * t) * t;
      assert r == 1.0 - 2.0 * u * u;
      assert t <= 1.0 ==> 0.0 <= r <= 1.0 by {
        if t <= 1.0 {
          MulNonNegative(u, u);
          MulMonotone(u, 0.5, u);
          MulMonotone(u, 0.5, 0.5);
        }
      }
      r
  }

  /** Both branches of `EaseInOut` meet at the midpoint, and the curve never
      turns back: a later point of the motion is never behind an earlier one. */
  lemma EaseInOutMonotone(s: real, t: real)
    requires 0.0 <= s <= t <= 1.0
    ensures EaseInOut(0.5) == 0.5
    ensures EaseInOut(s) <= EaseInOut(t)
  {
    EaseInOutSquares(0.5);
    EaseInOutSquares(s);
    EaseInOutSquares(t);
    if t < 0.5 {
      SqMonotone(s, t);
    } else if s >= 0.5 {
      SqMonotone(1.0 - t, 1.0 - s);
    } else {
      SqMonotone(s, 0.5);
      SqMonotone(1.0 - t, 0.5);
    }
  }

  function Sq(x: real): real { x * x }

  lemma SqMonotone(a: real, b: real)
    requires 0.0 <= a <= b
    ensures Sq(a) <= Sq(b)
  {
    MulMonotone(a, b, a);
    MulMonotone(a, b, b);
  }

  /** Each branch of the curve as a square: `2t²` and `1 - 2(1 - t)²`. */
  lemma EaseInOutSquares(t: real)
    ensures EaseInOut(t) == if t < 0.5 then 2.0 * Sq(t) else 1.0 - 2.0 * Sq(1.0 - t)
  {
    if t >= 0.5 {
      var u := 1.0 - t;
      assert -1.0 + (4.0 - 2.0 * t) * t == 1.0 - 2.0 * (u * u);
    }
  }

  /** Page titles that signal a block or a forced login. */
  const BannedTitles: seq<string> := [
    "You’re Temporarily Blocked",
    "Account Locked",
    "Zablokowano Cię tymczasowo",
    "Potwierdź swoją tożsamość",
    "Log into Facebook"
  ]

  /** Visible phrases a blocked user is shown. */
  const BanPhrases: seq<string> := [
    "Twoje konto zostało zablokowane",
    "Wykryliśmy podejrzaną aktywność",
    "Potwierdź swoją tożsamość",
    "Please Verify Your Identity",
    "Account Disabled"
  ]

  /** Some entry of `needles` occurs in `text` (the early-return search loops). */
  function AnyIncluded(text: string, needles: seq<string>): (r: bool)
    ensures r <==> exists i :: 0 <= i < |needles| && Occurs(text, needles[i])
  {
    if |needles| == 0 then false
    else if Includes(text, needles[0]) then true
    else
      var r := AnyIncluded(text, needles[1..]);
      assert forall i :: 1 <= i < |needles| ==> needles[i] == needles[1..][i - 1];
      r
  }

  /** `checkBanRisk` over the values the page reports. */
  function CheckBanRisk(title: string, bodyText: string, url: string): (banned: bool)
    ensures banned <==>
      (exists t :: t in BannedTitles && Occurs(title, t)) ||
      (exists p :: p in BanPhrases && Occurs(bodyText, p)) ||
      Occurs(url, "checkpoint") || Occurs(url, "challenge")
  {
    AnyIncluded(title, BannedTitles)
    || AnyIncluded(bodyText, BanPhrases)
    || Includes(url, "checkpoint") || Includes(url, "challenge")
  }

  /** A page whose address is a checkpoint is reported as banned, whatever its text. */
  lemma CheckpointUrlIsBan(title: string, bodyText: string, prefix: string, suffix: string)
    ensures CheckBanRisk(title, bodyText, prefix + "checkpoint" + suffix)
  {
    var url := prefix + "checkpoint" + suffix;
    assert OccursAt(url, "checkpoint", |prefix|) by {
      assert url[|prefix|..|prefix| + 10] == "checkpoint";
    }
  }
}
