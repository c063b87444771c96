/**
 * The behaviour-parameter learner: a table of tunable parameters, each with a
 * range and a current value that is nudged toward observed values, the log
 * of the current session, cumulative session counters, per-action-type
 * effectiveness counters, and the trend and recommendation rules read from
 * them. Clock readings and `Math.random()` draws are parameters; the JSON
 * files the learner loads and saves are not modelled.
 */
module BehavioralLearning {
  import opened Common

  /** A JavaScript number that is either finite or `NaN`. */
  datatype Ratio = Finite(value: real) | NotANumber

  /** A tunable parameter: a `{min, max, current}` range, or the scroll
      direction split `{up, down, current}`, which has no range and whose
      current value can become `NaN`. */
  datatype Param = Ranged(min: real, max: real, current: real) | Split(up: real, down: real, share: Ratio)

  /** Category name to parameter name to parameter. */
  type Patterns = map<string, map<string, Param>>

  /** The default parameter table. */
  function Defaults(): Patterns
  {
    map[
      "mouseMovements" := map[
        "averageSpeed" := Ranged(50.0, 200.0, 100.0),
        "pauseFrequency" := Ranged(0.1, 0.3, 0.2),
        "microMovements" := Ranged(2.0, 8.0, 5.0)],
      "scrolling" := map[
        "scrollSpeed" := Ranged(100.0, 400.0, 200.0),
        "scrollDirection" := Split(0.3, 0.7, Finite(0.7)),
        "scrollPauses" := Ranged(500.0, 2000.0, 1000.0)],
      "typing" := map[
        "typingSpeed" := Ranged(50.0, 150.0, 100.0),
        "errorRate" := Ranged(0.01, 0.05, 0.02),
        "backspaceFrequency" := Ranged(0.05, 0.15, 0.1)],
      "timing" := map[
        "actionDelay" := Ranged(500.0, 3000.0, 1500.0),
        "readingTime" := Ranged(1000.0, 5000.0, 2500.0),
        "thinkingTime" := Ranged(2000.0, 8000.0, 4000.0)],
      "navigation" := map[
        "pathVariety" := Ranged(3.0, 8.0, 5.0),
        "backtrackFrequency" := Ranged(0.1, 0.3, 0.2),
        "explorationRate" := Ranged(0.2, 0.6, 0.4)]
    ]
  }

  /** Two parameters of the same kind with the same fixed bounds. */
  predicate SameBounds(p: Param, q: Param)
  {
    match p
    case Ranged(lo, hi, _) => q.Ranged? && q.min == lo && q.max == hi
    case Split(up, down, _) => q.Split? && q.up == up && q.down == down
  }

  /** A ranged parameter's current value lies within its range. */
  predicate InRange(p: Param)
  {
    p.Ranged? ==> p.min <= p.current <= p.max
  }

  /** The table has the default layout and every current value is in range. */
  ghost predicate Conforms(ps: Patterns)
  {
    ps.Keys == Defaults().Keys &&
    forall c :: c in ps ==>
      ps[c].Keys == Defaults()[c].Keys &&
      forall p :: p in ps[c] ==> SameBounds(Defaults()[c][p], ps[c][p]) && InRange(ps[c][p])
  }

  lemma DefaultsConform()
    ensures Conforms(Defaults())
  {
  }

  /** Every default range is non-empty. */
  lemma DefaultRangesNonEmpty(c: string, p: string)
    requires c in Defaults() && p in Defaults()[c]
    ensures Defaults()[c][p].Ranged? ==> Defaults()[c][p].min < Defaults()[c][p].max
    ensures Defaults()[c][p].Split? <==> c == "scrolling" && p == "scrollDirection"
  {
  }

  /** A conforming table holds every default parameter, within its default range. */
  lemma CurrentWithin(ps: Patterns, c: string, p: string)
    requires Conforms(ps) && c in Defaults() && p in Defaults()[c] && Defaults()[c][p].Ranged?
    ensures c in ps && p in ps[c] && ps[c][p].Ranged?
    ensures Defaults()[c][p].min <= ps[c][p].current <= Defaults()[c][p].max
  {
  }

  /** `Math.max(lo, Math.min(hi, x))`. */
  function Clamp(x: real, lo: real, hi: real): (r: real)
    ensures lo <= hi ==> lo <= r <= hi
    ensures lo <= x <= hi ==> r == x
  {
    var m := if hi < x then hi else x;
    if lo > m then lo else m
  }

  /** The value adaptation starts from: `current`, or the midpoint when it is 0. */
  function StartValue(p: Param): real
    requires p.Ranged?
  {
    if p.current != 0.0 then p.current else (p.min + p.max) / 2.0
  }

  /** One adaptation step of a parameter toward `value` at `rate`. A split
      parameter has no `min` and `max`, so `Math.max(undefined, ...)` makes
      its current value `NaN`. */
  function Adapted(p: Param, value: real, rate: real): (q: Param)
    ensures SameBounds(p, q)
    ensures p.Ranged? && p.min <= p.max ==> InRange(q)
    ensures p.Ranged? ==> q.current == Clamp(Step(StartValue(p), value, rate), p.min, p.max)
    ensures p.Split? ==> q == Split(p.up, p.down, NotANumber)
  {
    match p
    case Ranged(lo, hi, _) => Ranged(lo, hi, Clamp(Step(StartValue(p), value, rate), lo, hi))
    case Split(up, down, _) => Split(up, down, NotANumber)
  }

  /** The smoothed value `c + (v - c) * rate`. */
  function Step(c: real, v: real, rate: real): real
  {
    c + (v - c) * rate
  }

  /** `x` lies between `a` and `b`, whichever is smaller. */
  predicate Between(x: real, a: real, b: real)
  {
    (a <= b ==> a <= x <= b) && (b <= a ==> b <= x <= a)
  }

  /** With an in-range start, a target in range and a rate in [0, 1], the
      adapted value lies between the old value and the target. */
  lemma AdaptedMovesTowardTarget(p: Param, value: real, rate: real)
    requires p.Ranged? && p.min <= p.current <= p.max && p.current != 0.0
    requires p.min <= value <= p.max && 0.0 <= rate <= 1.0
    ensures Between(Adapted(p, value, rate).current, p.current, value)
  {
    StepBetween(p.current, value, rate);
    assert StartValue(p) == p.current;
    var x := p.current + (value - p.current) * rate;
    assert Between(x, p.current, value);
    assert p.min <= x <= p.max;
    assert Adapted(p, value, rate).current == x;
  }

  /** A step from `c` toward `v` at a rate in [0, 1] ends between the two. */
  lemma StepBetween(c: real, v: real, rate: real)
    requires 0.0 <= rate <= 1.0
    ensures Between(c + (v - c) * rate, c, v)
  {
    var d := v - c;
    var x := c + d * rate;
    if d > 0.0 {
      MulNonNegative(d, rate);
      MulMonotone(rate, 1.0, d);
      assert d * rate <= d;
      assert c <= x <= v;
    } else if d == 0.0 {
      assert d * rate == 0.0;
      assert x == c && c == v;
    } else {
      MulMonotone(d, 0.0, rate);
      MulMonotone(d, 0.0, 1.0 - rate);
      assert 0.0 * rate == 0.0 && 0.0 * (1.0 - rate) == 0.0;
      assert d * (1.0 - rate) <= 0.0;
      assert d * (1.0 - rate) == d - d * rate;
      assert v <= x <= c;
    }
  }

  /** `adaptPattern(category, parameter, value, rate)` on the table. */
  function AdaptIn(ps: Patterns, cat: string, param: string, value: real, rate: real): (r: Patterns)
    ensures cat !in ps || param !in ps[cat] ==> r == ps
    ensures r.Keys == ps.Keys
    ensures forall c :: c in ps ==> r[c].Keys == ps[c].Keys
    ensures forall c, p :: c in ps && p in ps[c] && (c != cat || p != param) ==> r[c][p] == ps[c][p]
    ensures cat in ps && param in ps[cat] ==> r[cat][param] == Adapted(ps[cat][param], value, rate)
  {
    if cat in ps && param in ps[cat] then ps[cat := ps[cat][param := Adapted(ps[cat][param], value, rate)]]
    else ps
  }

  lemma AdaptInConforms(ps: Patterns, cat: string, param: string, value: real, rate: real)
    requires Conforms(ps)
    ensures Conforms(AdaptIn(ps, cat, param, value, rate))
  {
    var r := AdaptIn(ps, cat, param, value, rate);
    forall c, p | c in r && p in r[c]
      ensures SameBounds(Defaults()[c][p], r[c][p]) && InRange(r[c][p])
    {
      DefaultRangesNonEmpty(c, p);
    }
  }

  /** The parameter an observed action adapts, the detail it reads and the
      value used when that detail is missing or zero. */
  datatype Target = Target(category: string, parameter: string, detail: string, fallback: real)

  function ActionTarget(kind: string): Option<Target>
  {
    if kind == "mouse_move" then Some(Target("mouseMovements", "averageSpeed", "speed", 100.0))
    else if kind == "scroll" then Some(Target("scrolling", "scrollSpeed", "speed", 200.0))
    else if kind == "type" then Some(Target("typing", "typingSpeed", "speed", 100.0))
    else if kind == "click" then Some(Target("timing", "actionDelay", "delay", 1500.0))
    else None
  }

  /** `details[key] || fallback`. */
  function Observed(details: map<string, real>, key: string, fallback: real): real
  {
    if key in details && details[key] != 0.0 then details[key] else fallback
  }

  /** The rate at which observed actions are learnt. */
  const AdaptationRate: real := 0.01

  /** `updatePatternsFromAction`. */
  function PatternsAfterAction(ps: Patterns, kind: string, details: map<string, real>): Patterns
  {
    match ActionTarget(kind)
    case None => ps
    case Some(t) => AdaptIn(ps, t.category, t.parameter, Observed(details, t.detail, t.fallback), AdaptationRate)
  }

  /** Every parameter other than `cat.param` is the same in `ps` and `r`. */
  ghost predicate OthersUnchanged(ps: Patterns, r: Patterns, cat: string, param: string)
  {
    forall c, p :: c in ps && p in ps[c] && (c != cat || p != param) ==> c in r && p in r[c] && r[c][p] == ps[c][p]
  }

  /** `after` moved from `before` toward `v`, when `v` lies in the range. */
  predicate MovedToward(before: Param, after: Param, v: real)
  {
    before.Ranged? && before.min <= v <= before.max ==> after.Ranged? && Between(after.current, before.current, v)
  }

  /** An action of a learnt kind moves exactly its one parameter, toward the
      observed value, and leaves every other parameter as it was; any other
      kind of action changes nothing. */
  lemma ActionAdaptsOneParameter(ps: Patterns, kind: string, details: map<string, real>)
    requires Conforms(ps)
    ensures Conforms(PatternsAfterAction(ps, kind, details))
    ensures ActionTarget(kind).None? ==> PatternsAfterAction(ps, kind, details) == ps
    ensures ActionTarget(kind).Some? ==>
      var t := ActionTarget(kind).value;
      var r := PatternsAfterAction(ps, kind, details);
      OthersUnchanged(ps, r, t.category, t.parameter) &&
      t.category in ps && t.parameter in ps[t.category] &&
      MovedToward(ps[t.category][t.parameter], r[t.category][t.parameter], Observed(details, t.detail, t.fallback))
  {
    if ActionTarget(kind).Some? {
      var t := ActionTarget(kind).value;
      var v := Observed(details, t.detail, t.fallback);
      AdaptInConforms(ps, t.category, t.parameter, v, AdaptationRate);
      CurrentWithin(ps, t.category, t.parameter);
      DefaultRangesNonEmpty(t.category, t.parameter);
      var p := ps[t.category][t.parameter];
      if p.min <= v <= p.max {
        AdaptedMovesTowardTarget(p, v, AdaptationRate);
      }
    }
  }

  /** The rate at which risk events are learnt. */
  const AvoidanceRate: real := 0.1

  /** A parameter with fresh draw `r`: `r * (max - min) + min`; the split
      parameter has no range and is kept. */
  function Randomized(p: Param, r: real): (q: Param)
    requires 0.0 <= r < 1.0
    ensures SameBounds(p, q)
    ensures p.Ranged? && p.min < p.max ==> p.min <= q.current < p.max
    ensures p.Split? ==> q == p
  {
    match p
    case Ranged(lo, hi, _) =>
      assert lo < hi ==> r * (hi - lo) < hi - lo by {
        if lo < hi {
          MulMonotone(r, 1.0, hi - lo);
          assert (1.0 - r) * (hi - lo) > 0.0 by {
            assert 1.0 - r > 0.0 && hi - lo > 0.0;
          }
        }
      }
      MulNonNegative(r, if lo < hi then hi - lo else 0.0);
      Ranged(lo, hi, r * (hi - lo) + lo)
    case Split(_, _, _) => p
  }

  /** Draws for `randomizeCurrentPatterns`, indexed by category and parameter. */
  ghost predicate DrawsValid(draw: (string, string) -> real)
  {
    forall c, p :: 0.0 <= draw(c, p) < 1.0
  }

  /** `randomizeCurrentPatterns` on the table. */
  function RandomizedPatterns(ps: Patterns, draw: (string, string) -> real): (r: Patterns)
    requires DrawsValid(draw)
    ensures r.Keys == ps.Keys
    ensures forall c :: c in ps ==> r[c].Keys == ps[c].Keys && r[c] == RandomizedCategory(c, ps[c], draw)
    ensures forall c, p :: c in ps && p in ps[c] ==> r[c][p] == Randomized(ps[c][p], draw(c, p))
  {
    map c | c in ps :: RandomizedCategory(c, ps[c], draw)
  }

  function RandomizedCategory(c: string, params: map<string, Param>, draw: (string, string) -> real): (r: map<string, Param>)
    requires DrawsValid(draw)
    ensures r.Keys == params.Keys
    ensures forall p :: p in params ==> r[p] == Randomized(params[p], draw(c, p))
  {
    map p | p in params :: Randomized(params[p], draw(c, p))
  }

  /** Randomisation keeps the layout, puts every ranged value in [min, max)
      and leaves the scroll direction alone. */
  lemma RandomizedConforms(ps: Patterns, draw: (string, string) -> real)
    requires Conforms(ps) && DrawsValid(draw)
    ensures Conforms(RandomizedPatterns(ps, draw))
    ensures forall c, p :: c in ps && p in ps[c] && ps[c][p].Ranged? ==>
      ps[c][p].min <= RandomizedPatterns(ps, draw)[c][p].current < ps[c][p].max
    ensures RandomizedPatterns(ps, draw)["scrolling"]["scrollDirection"] == ps["scrolling"]["scrollDirection"]
  {
    var r := RandomizedPatterns(ps, draw);
    forall c, p | c in ps && p in ps[c]
      ensures SameBounds(Defaults()[c][p], r[c][p]) && InRange(r[c][p])
      ensures ps[c][p].Ranged? ==> ps[c][p].min <= r[c][p].current < ps[c][p].max
    {
      DefaultRangesNonEmpty(c, p);
    }
    DefaultRangesNonEmpty("scrolling", "scrollDirection");
  }

  /** `adaptPatternsToAvoidRisk`: a too-fast warning raises the action delay
      toward 2 s, a too-repetitive one raises path variety toward 7, a
      detected pattern re-draws every ranged parameter. */
  function PatternsAfterRisk(ps: Patterns, kind: string, draw: (string, string) -> real): Patterns
    requires DrawsValid(draw)
  {
    if kind == "too_fast" then AdaptIn(ps, "timing", "actionDelay", 2000.0, AvoidanceRate)
    else if kind == "too_repetitive" then AdaptIn(ps, "navigation", "pathVariety", 7.0, AvoidanceRate)
    else if kind == "detected_pattern" then RandomizedPatterns(ps, draw)
    else ps
  }

  /** A too-fast warning makes the bot slower whenever its action delay is
      below 2 s, and never pushes the delay past 2 s. */
  lemma TooFastSlowsDown(ps: Patterns, draw: (string, string) -> real)
    requires Conforms(ps) && DrawsValid(draw)
    ensures var before := ps["timing"]["actionDelay"].current;
            var after := PatternsAfterRisk(ps, "too_fast", draw)["timing"]["actionDelay"].current;
            (before < 2000.0 ==> before < after <= 2000.0) && (before >= 2000.0 ==> 2000.0 <= after <= before)
  {
    var p := ps["timing"]["actionDelay"];
    assert p.min == 500.0 && p.max == 3000.0;
    var c := p.current;
    AdaptedMovesTowardTarget(p, 2000.0, AvoidanceRate);
    if c < 2000.0 {
      assert (2000.0 - c) * AvoidanceRate > 0.0;
    }
  }

  lemma PatternsAfterRiskConforms(ps: Patterns, kind: string, draw: (string, string) -> real)
    requires Conforms(ps) && DrawsValid(draw)
    ensures Conforms(PatternsAfterRisk(ps, kind, draw))
  {
    if kind == "too_fast" {
      AdaptInConforms(ps, "timing", "actionDelay", 2000.0, AvoidanceRate);
    } else if kind == "too_repetitive" {
      AdaptInConforms(ps, "navigation", "pathVariety", 7.0, AvoidanceRate);
    } else if kind == "detected_pattern" {
      RandomizedConforms(ps, draw);
    }
  }

  /** A recorded action: its type, clock reading, details and time since the session began. */
  datatype Action = Action(kind: string, timestamp: int, details: map<string, real>, sessionTime: int)

  /** A transition between two consecutive actions of a session. */
  datatype Transition = Transition(fromType: string, toType: string, timeDiff: int, timestamp: int)

  /** A success or risk event of the session. */
  datatype Event = Event(kind: string, severity: string, timestamp: int)

  /** The session in progress. */
  datatype Session = Session(
    startTime: int,
    actions: seq<Action>,
    timingPatterns: seq<Transition>,
    successEvents: seq<Event>,
    riskEvents: seq<Event>)

  /** A finished session as kept in the history. */
  datatype SessionRecord = SessionRecord(session: Session, endTime: int, duration: int, success: bool, banned: bool)

  /** Every timing transition links two consecutive actions. */
  ghost predicate TimingConsistent(s: Session)
  {
    |s.timingPatterns| == (if |s.actions| == 0 then 0 else |s.actions| - 1) &&
    forall i :: 0 <= i < |s.timingPatterns| ==>
      s.timingPatterns[i] == Transition(s.actions[i].kind, s.actions[i + 1].kind,
                                        s.actions[i + 1].timestamp - s.actions[i].timestamp,
                                        s.actions[i + 1].timestamp)
  }

  /** `recordAction` followed by `analyzeTimingPattern` on the session log. */
  function SessionAfterAction(s: Session, kind: string, details: map<string, real>, now: int): (r: Session)
    ensures r.actions == s.actions + [Action(kind, now, details, now - s.startTime)]
    ensures |s.actions| == 0 ==> r.timingPatterns == s.timingPatterns
    ensures |s.actions| > 0 ==>
      (|r.timingPatterns| == |s.timingPatterns| + 1 &&
       r.timingPatterns[..|s.timingPatterns|] == s.timingPatterns &&
       r.timingPatterns[|s.timingPatterns|].timeDiff == now - s.actions[|s.actions| - 1].timestamp)
    ensures r.startTime == s.startTime && r.successEvents == s.successEvents && r.riskEvents == s.riskEvents
    ensures TimingConsistent(s) ==> TimingConsistent(r)
  {
    var action := Action(kind, now, details, now - s.startTime);
    var actions := s.actions + [action];
    if |actions| < 2 then s.(actions := actions)
    else
      var prev := actions[|actions| - 2];
      s.(actions := actions,
         timingPatterns := s.timingPatterns + [Transition(prev.kind, kind, now - prev.timestamp, now)])
  }

  /** Effectiveness counters of one action type. */
  datatype Effectiveness = Effectiveness(uses: nat, successes: nat, effectiveness: real)

  /** The cumulative success metrics. */
  datatype Metrics = Metrics(
    totalSessions: nat,
    successfulSessions: nat,
    bannedSessions: nat,
    averageSuccessRate: real,
    patternEffectiveness: map<string, Effectiveness>)

  /** Every action type seen has been reinforced as often as it was used. */
  ghost predicate EffectivenessValid(eff: map<string, Effectiveness>)
  {
    forall k :: k in eff ==> eff[k].uses >= 1 && eff[k].successes == eff[k].uses && eff[k].effectiveness == 1.0
  }

  /** `reinforceActionPattern` for one action type. */
  function Reinforced(eff: map<string, Effectiveness>, kind: string): map<string, Effectiveness>
  {
    var e := if kind in eff then eff[kind] else Effectiveness(0, 0, 0.0);
    eff[kind := Effectiveness(e.uses + 1, e.successes + 1, (e.successes + 1) as real / (e.uses + 1) as real)]
  }

  /** Reinforcing each of `acts` in turn. */
  function ReinforcedAll(eff: map<string, Effectiveness>, acts: seq<Action>): map<string, Effectiveness>
  {
    if |acts| == 0 then eff else Reinforced(ReinforcedAll(eff, acts[..|acts| - 1]), acts[|acts| - 1].kind)
  }

  /** The number of actions of type `kind`. */
  function CountKind(acts: seq<Action>, kind: string): nat
  {
    if |acts| == 0 then 0
    else CountKind(acts[..|acts| - 1], kind) + (if acts[|acts| - 1].kind == kind then 1 else 0)
  }

  /** One reinforcement adds one use and one success to its type, which keeps
      every type's effectiveness at 1. */
  lemma ReinforcedValid(eff: map<string, Effectiveness>, kind: string)
    requires EffectivenessValid(eff)
    ensures EffectivenessValid(Reinforced(eff, kind))
    ensures Reinforced(eff, kind)[kind].uses == (if kind in eff then eff[kind].uses else 0) + 1
  {
    var e := if kind in eff then eff[kind] else Effectiveness(0, 0, 0.0);
    assert e.successes == e.uses;
    CountRatio(e.uses + 1, e.uses + 1);
    var r := Reinforced(eff, kind);
    forall k | k in r
      ensures r[k].uses >= 1 && r[k].successes == r[k].uses && r[k].effectiveness == 1.0
    {
      if k != kind {
        assert r[k] == eff[k];
      }
    }
  }

  /** Reinforcing a run of actions keeps `successes == uses` and effectiveness
      1 for every type. */
  lemma {:induction false} ReinforcedAllValid(eff: map<string, Effectiveness>, acts: seq<Action>)
    requires EffectivenessValid(eff)
    ensures EffectivenessValid(ReinforcedAll(eff, acts))
  {
    if |acts| > 0 {
      ReinforcedAllValid(eff, acts[..|acts| - 1]);
      ReinforcedValid(ReinforcedAll(eff, acts[..|acts| - 1]), acts[|acts| - 1].kind);
    }
  }

  /** Reinforcing a run of actions raises the uses of each type by its number
      of actions in the run, and adds exactly the types that occur in it. */
  lemma {:induction false} ReinforcedAllUses(eff: map<string, Effectiveness>, acts: seq<Action>, kind: string)
    ensures kind in ReinforcedAll(eff, acts) <==> kind in eff || CountKind(acts, kind) > 0
    ensures kind in ReinforcedAll(eff, acts) ==>
      ReinforcedAll(eff, acts)[kind].uses == (if kind in eff then eff[kind].uses else 0) + CountKind(acts, kind)
  {
    if |acts| > 0 {
      ReinforcedAllUses(eff, acts[..|acts| - 1], kind);
    }
  }

  /** The loop of `reinforceSuccessfulPatterns`: each action in turn
      reinforces its type. */
  method ReinforceEach(eff: map<string, Effectiveness>, acts: seq<Action>) returns (r: map<string, Effectiveness>)
    ensures r == ReinforcedAll(eff, acts)
  {
    r := eff;
    for i := 0 to |acts|
      invariant r == ReinforcedAll(eff, acts[..i])
    {
      assert acts[..i + 1][..i] == acts[..i];
      r := Reinforced(r, acts[i].kind);
    }
    assert acts[..|acts|] == acts;
  }

  /** The actions `reinforceSuccessfulPatterns` credits: the last five. */
  function RecentActions(acts: seq<Action>): (r: seq<Action>)
    ensures |r| == (if |acts| < 5 then |acts| else 5)
    ensures r == acts[|acts| - |r|..]
  {
    if |acts| > 5 then acts[|acts| - 5..] else acts
  }

  /** `updateSuccessMetrics` after a session with the given outcome. */
  function MetricsAfterSession(m: Metrics, success: bool, banned: bool): (r: Metrics)
    ensures r.totalSessions == m.totalSessions + 1
    ensures r.successfulSessions == m.successfulSessions + (if success then 1 else 0)
    ensures r.bannedSessions == m.bannedSessions + (if banned then 1 else 0)
    ensures r.averageSuccessRate * r.totalSessions as real == r.successfulSessions as real
    ensures r.patternEffectiveness == m.patternEffectiveness
    ensures MetricsValid(m) ==> MetricsValid(r)
  {
    var total := m.totalSessions + 1;
    var successful := m.successfulSessions + (if success then 1 else 0);
    assert MetricsValid(m) ==> successful <= total;
    CountRatio(successful, total);
    var rate := successful as real / total as real;
    m.(totalSessions := total,
       successfulSessions := successful,
       bannedSessions := m.bannedSessions + (if banned then 1 else 0),
       averageSuccessRate := rate)
  }

  /** The counters never exceed the number of sessions, and the average is
      their quotient (0 before the first session). */
  ghost predicate MetricsValid(m: Metrics)
  {
    m.successfulSessions <= m.totalSessions && m.bannedSessions <= m.totalSessions &&
    (m.totalSessions == 0 ==> m.averageSuccessRate == 0.0) &&
    (m.totalSessions > 0 ==> m.averageSuccessRate == m.successfulSessions as real / m.totalSessions as real) &&
    0.0 <= m.averageSuccessRate <= 1.0 &&
    EffectivenessValid(m.patternEffectiveness)
  }

  /** Replacing valid effectiveness counters keeps the metrics valid. */
  lemma MetricsWithEffectiveness(m: Metrics, eff: map<string, Effectiveness>)
    requires MetricsValid(m) && EffectivenessValid(eff)
    ensures MetricsValid(m.(patternEffectiveness := eff))
  {
  }

  /** How a session ended: whether it succeeded and whether it was banned. */
  datatype SessionOutcome = SessionOutcome(success: bool, banned: bool)

  /** The metrics after ending each session of `run` in turn. */
  function AfterSessions(m: Metrics, run: seq<SessionOutcome>): Metrics
  {
    if |run| == 0 then m
    else
      var last := run[|run| - 1];
      MetricsAfterSession(AfterSessions(m, run[..|run| - 1]), last.success, last.banned)
  }

  function Successes(run: seq<SessionOutcome>): nat
  {
    if |run| == 0 then 0 else Successes(run[..|run| - 1]) + (if run[|run| - 1].success then 1 else 0)
  }

  function Bans(run: seq<SessionOutcome>): nat
  {
    if |run| == 0 then 0 else Bans(run[..|run| - 1]) + (if run[|run| - 1].banned then 1 else 0)
  }

  /** From fresh metrics, any run of sessions leaves counters equal to the
      number of sessions, successes and bans in the run, and a success rate
      equal to successes over sessions. */
  lemma {:induction false} SessionRunMetrics(run: seq<SessionOutcome>)
    ensures var r := AfterSessions(Metrics(0, 0, 0, 0.0, map[]), run);
            && r.totalSessions == |run| && r.successfulSessions == Successes(run) && r.bannedSessions == Bans(run)
            && MetricsValid(r)
            && (|run| > 0 ==> r.averageSuccessRate == Successes(run) as real / |run| as real)
  {
    if |run| > 0 {
      SessionRunMetrics(run[..|run| - 1]);
    }
  }

  /** A value `getOptimalParameters` reports: a number or a scroll direction. */
  datatype Setting = Number(value: real) | Direction(name: string)

  /** `params[key]` is a number in [lo, hi]. */
  predicate NumberWithin(params: map<string, Setting>, key: string, lo: real, hi: real)
  {
    key in params && params[key].Number? && lo <= params[key].value <= hi
  }

  /** `params[key]` is a whole number. */
  predicate WholeNumber(params: map<string, Setting>, key: string)
  {
    key in params && params[key].Number? && params[key].value.Floor as real == params[key].value
  }

  /** `params[key]` is the learnt current value of `cat.name`, passed through
      `Math.floor` when `floor` holds. */
  predicate Reports(params: map<string, Setting>, key: string, ps: Patterns, cat: string, name: string, floor: bool)
  {
    key in params && cat in ps && name in ps[cat] && ps[cat][name].Ranged? &&
    params[key] == Number(if floor then ps[cat][name].current.Floor as real else ps[cat][name].current)
  }

  /** `Math.random() < scrollDirection.current ? 'down' : 'up'`; a comparison
      with `NaN` is false. */
  function ScrollDirection(p: Param, r: real): (d: string)
    ensures d == "down" <==> p.Split? && p.share.Finite? && r < p.share.value
    ensures d == "down" || d == "up"
  {
    if p.Split? && p.share.Finite? && r < p.share.value then "down" else "up"
  }

  /** `getOptimalParameters(actionType)`, with the draw `r` that picks the scroll
      direction: each reported number is the learnt current value it is read
      from, and lies in that parameter's default range. */
  function OptimalParameters(ps: Patterns, actionType: string, r: real): (params: map<string, Setting>)
    requires Conforms(ps)
    ensures actionType == "mouse_move" ==>
      params.Keys == {"speed", "pauseFrequency", "microMovements"} &&
      Reports(params, "speed", ps, "mouseMovements", "averageSpeed", false) &&
      Reports(params, "pauseFrequency", ps, "mouseMovements", "pauseFrequency", false) &&
      Reports(params, "microMovements", ps, "mouseMovements", "microMovements", true) &&
      NumberWithin(params, "speed", 50.0, 200.0) && NumberWithin(params, "pauseFrequency", 0.1, 0.3) &&
      NumberWithin(params, "microMovements", 2.0, 8.0) && WholeNumber(params, "microMovements")
    ensures actionType == "scroll" ==>
      params.Keys == {"speed", "direction", "pause"} &&
      Reports(params, "speed", ps, "scrolling", "scrollSpeed", false) &&
      Reports(params, "pause", ps, "scrolling", "scrollPauses", false) &&
      NumberWithin(params, "speed", 100.0, 400.0) && NumberWithin(params, "pause", 500.0, 2000.0) &&
      params["direction"] == Direction(ScrollDirection(ps["scrolling"]["scrollDirection"], r))
    ensures actionType == "type" ==>
      params.Keys == {"speed", "errorRate", "backspaceFrequency"} &&
      Reports(params, "speed", ps, "typing", "typingSpeed", false) &&
      Reports(params, "errorRate", ps, "typing", "errorRate", false) &&
      Reports(params, "backspaceFrequency", ps, "typing", "backspaceFrequency", false) &&
      NumberWithin(params, "speed", 50.0, 150.0) && NumberWithin(params, "errorRate", 0.01, 0.05) &&
      NumberWithin(params, "backspaceFrequency", 0.05, 0.15)
    ensures actionType == "delay" ==>
      params.Keys == {"actionDelay", "readingTime", "thinkingTime"} &&
      Reports(params, "actionDelay", ps, "timing", "actionDelay", false) &&
      Reports(params, "readingTime", ps, "timing", "readingTime", false) &&
      Reports(params, "thinkingTime", ps, "timing", "thinkingTime", false) &&
      NumberWithin(params, "actionDelay", 500.0, 3000.0) && NumberWithin(params, "readingTime", 1000.0, 5000.0) &&
      NumberWithin(params, "thinkingTime", 2000.0, 8000.0)
    ensures actionType == "navigate" ==>
      params.Keys == {"pathVariety", "backtrackFrequency", "explorationRate"} &&
      Reports(params, "pathVariety", ps, "navigation", "pathVariety", true) &&
      Reports(params, "backtrackFrequency", ps, "navigation", "backtrackFrequency", false) &&
      Reports(params, "explorationRate", ps, "navigation", "explorationRate", false) &&
      NumberWithin(params, "pathVariety", 3.0, 8.0) && WholeNumber(params, "pathVariety") &&
      NumberWithin(params, "backtrackFrequency", 0.1, 0.3) && NumberWithin(params, "explorationRate", 0.2, 0.6)
    ensures actionType !in {"mouse_move", "scroll", "type", "delay", "navigate"} ==> params == map[]
  {
    if actionType == "mouse_move" then MouseParameters(ps)
    else if actionType == "scroll" then ScrollParameters(ps, r)
    else if actionType == "type" then TypingParameters(ps)
    else if actionType == "delay" then DelayParameters(ps)
    else if actionType == "navigate" then NavigationParameters(ps)
    else map[]
  }

  function MouseParameters(ps: Patterns): (params: map<string, Setting>)
    requires Conforms(ps)
    ensures params.Keys == {"speed", "pauseFrequency", "microMovements"}
    ensures Reports(params, "speed", ps, "mouseMovements", "averageSpeed", false)
    ensures Reports(params, "pauseFrequency", ps, "mouseMovements", "pauseFrequency", false)
    ensures Reports(params, "microMovements", ps, "mouseMovements", "microMovements", true)
    ensures NumberWithin(params, "speed", 50.0, 200.0) && NumberWithin(params, "pauseFrequency", 0.1, 0.3)
    ensures NumberWithin(params, "microMovements", 2.0, 8.0) && WholeNumber(params, "microMovements")
  {
    CurrentWithin(ps, "mouseMovements", "averageSpeed");
    CurrentWithin(ps, "mouseMovements", "pauseFrequency");
    CurrentWithin(ps, "mouseMovements", "microMovements");
    var m := ps["mouseMovements"];
    map["speed" := Number(m["averageSpeed"].current),
        "pauseFrequency" := Number(m["pauseFrequency"].current),
        "microMovements" := Number(m["microMovements"].current.Floor as real)]
  }

  function ScrollParameters(ps: Patterns, r: real): (params: map<string, Setting>)
    requires Conforms(ps)
    ensures params.Keys == {"speed", "direction", "pause"}
    ensures Reports(params, "speed", ps, "scrolling", "scrollSpeed", false)
    ensures Reports(params, "pause", ps, "scrolling", "scrollPauses", false)
    ensures NumberWithin(params, "speed", 100.0, 400.0) && NumberWithin(params, "pause", 500.0, 2000.0)
    ensures params["direction"] == Direction(ScrollDirection(ps["scrolling"]["scrollDirection"], r))
  {
    CurrentWithin(ps, "scrolling", "scrollSpeed");
    CurrentWithin(ps, "scrolling", "scrollPauses");
    assert "scrollDirection" in ps["scrolling"];
    var s := ps["scrolling"];
    map["speed" := Number(s["scrollSpeed"].current),
        "direction" := Direction(ScrollDirection(s["scrollDirection"], r)),
        "pause" := Number(s["scrollPauses"].current)]
  }

  /** With the default table a draw below 0.7 scrolls down. */
  lemma DefaultScrollDirection(r: real)
    ensures ScrollParameters(Defaults(), r)["direction"] == Direction(if r < 0.7 then "down" else "up")
  {
    DefaultsConform();
    assert Defaults()["scrolling"]["scrollDirection"] == Split(0.3, 0.7, Finite(0.7));
  }

  /** Once `scrollDirection` has been adapted its current value is `NaN`, and
      every later draw scrolls up. */
  lemma AdaptedScrollDirectionIsUp(ps: Patterns, value: real, rate: real, r: real)
    requires Conforms(ps)
    ensures ScrollParameters(AdaptIn(ps, "scrolling", "scrollDirection", value, rate), r)["direction"] == Direction("up")
  {
    AdaptInConforms(ps, "scrolling", "scrollDirection", value, rate);
    DefaultRangesNonEmpty("scrolling", "scrollDirection");
    assert "scrollDirection" in ps["scrolling"];
    var q := AdaptIn(ps, "scrolling", "scrollDirection", value, rate);
    assert q["scrolling"]["scrollDirection"] == Adapted(ps["scrolling"]["scrollDirection"], value, rate);
    assert q["scrolling"]["scrollDirection"].share == NotANumber;
  }

  function TypingParameters(ps: Patterns): (params: map<string, Setting>)
    requires Conforms(ps)
    ensures params.Keys == {"speed", "errorRate", "backspaceFrequency"}
    ensures Reports(params, "speed", ps, "typing", "typingSpeed", false)
    ensures Reports(params, "errorRate", ps, "typing", "errorRate", false)
    ensures Reports(params, "backspaceFrequency", ps, "typing", "backspaceFrequency", false)
    ensures NumberWithin(params, "speed", 50.0, 150.0) && NumberWithin(params, "errorRate", 0.01, 0.05)
    ensures NumberWithin(params, "backspaceFrequency", 0.05, 0.15)
  {
    CurrentWithin(ps, "typing", "typingSpeed");
    CurrentWithin(ps, "typing", "errorRate");
    CurrentWithin(ps, "typing", "backspaceFrequency");
    var t := ps["typing"];
    map["speed" := Number(t["typingSpeed"].current),
        "errorRate" := Number(t["errorRate"].current),
        "backspaceFrequency" := Number(t["backspaceFrequency"].current)]
  }

  function DelayParameters(ps: Patterns): (params: map<string, Setting>)
    requires Conforms(ps)
    ensures params.Keys == {"actionDelay", "readingTime", "thinkingTime"}
    ensures Reports(params, "actionDelay", ps, "timing", "actionDelay", false)
    ensures Reports(params, "readingTime", ps, "timing", "readingTime", false)
    ensures Reports(params, "thinkingTime", ps, "timing", "thinkingTime", false)
    ensures NumberWithin(params, "actionDelay", 500.0, 3000.0) && NumberWithin(params, "readingTime", 1000.0, 5000.0)
    ensures NumberWithin(params, "thinkingTime", 2000.0, 8000.0)
  {
    CurrentWithin(ps, "timing", "actionDelay");
    CurrentWithin(ps, "timing", "readingTime");
    CurrentWithin(ps, "timing", "thinkingTime");
    var t := ps["timing"];
    map["actionDelay" := Number(t["actionDelay"].current),
        "readingTime" := Number(t["readingTime"].current),
        "thinkingTime" := Number(t["thinkingTime"].current)]
  }

  function NavigationParameters(ps: Patterns): (params: map<string, Setting>)
    requires Conforms(ps)
    ensures params.Keys == {"pathVariety", "backtrackFrequency", "explorationRate"}
    ensures Reports(params, "pathVariety", ps, "navigation", "pathVariety", true)
    ensures Reports(params, "backtrackFrequency", ps, "navigation", "backtrackFrequency", false)
    ensures Reports(params, "explorationRate", ps, "navigation", "explorationRate", false)
    ensures NumberWithin(params, "pathVariety", 3.0, 8.0) && WholeNumber(params, "pathVariety")
    ensures NumberWithin(params, "backtrackFrequency", 0.1, 0.3) && NumberWithin(params, "explorationRate", 0.2, 0.6)
  {
    CurrentWithin(ps, "navigation", "pathVariety");
    CurrentWithin(ps, "navigation", "backtrackFrequency");
    CurrentWithin(ps, "navigation", "explorationRate");
    var n := ps["navigation"];
    map["pathVariety" := Number(n["pathVariety"].current.Floor as real),
        "backtrackFrequency" := Number(n["backtrackFrequency"].current),
        "explorationRate" := Number(n["explorationRate"].current)]
  }

  /** The classification `calculateTrend` returns. */
  datatype Trend = Improving | Declining | Stable

  /** `calculateTrend(values)`: the relative change from the mean of the first
      half to the mean of the rest. When the first mean is 0 the division gives
      an infinity of the sign of the second mean, or NaN when it is 0 too. */
  function CalculateTrend(values: seq<real>): (t: Trend)
    ensures |values| < 2 ==> t == Stable
  {
    if |values| < 2 then Stable
    else
      var first := Mean(values[..|values| / 2]);
      var second := Mean(values[|values| / 2..]);
      if first == 0.0 then
        (if second > 0.0 then Improving else if second < 0.0 then Declining else Stable)
      else
        var change := (second - first) / first;
        if change > 0.1 then Improving else if change < -0.1 then Declining else Stable
  }

  /** For a positive first-half mean the trend is "improving" exactly when the
      second half's mean is more than 10% above it, and "declining" exactly
      when it is more than 10% below. */
  lemma TrendAgainstFirstHalf(values: seq<real>)
    requires |values| >= 2
    requires Mean(values[..|values| / 2]) > 0.0
    ensures var first := Mean(values[..|values| / 2]);
            var second := Mean(values[|values| / 2..]);
            (CalculateTrend(values) == Improving <==> second > 1.1 * first) &&
            (CalculateTrend(values) == Declining <==> second < 0.9 * first)
  {
    var first := Mean(values[..|values| / 2]);
    var second := Mean(values[|values| / 2..]);
    QuotientCompare(second - first, first, 0.1);
    QuotientCompare(second - first, first, -0.1);
  }

  /** A constant series is stable. */
  lemma ConstantSeriesIsStable(values: seq<real>, c: real)
    requires forall i :: 0 <= i < |values| ==> values[i] == c
    ensures CalculateTrend(values) == Stable
  {
    if |values| >= 2 {
      var a := values[..|values| / 2];
      var b := values[|values| / 2..];
      SumConstant(a, c);
      SumConstant(b, c);
      assert ((|a| as real) * c) / (|a| as real) == c;
      assert ((|b| as real) * c) / (|b| as real) == c;
      assert Mean(a) == c && Mean(b) == c;
      if c != 0.0 {
        assert (c - c) / c == 0.0;
      }
    }
  }

  /** For a zero first-half mean the division gives an infinity of the sign of
      the second mean, or NaN: the trend is "improving" exactly when the second
      mean is positive, "declining" exactly when it is negative, and "stable"
      when it is 0 too. */
  lemma TrendAgainstZeroFirstHalf(values: seq<real>)
    requires |values| >= 2
    requires Mean(values[..|values| / 2]) == 0.0
    ensures var second := Mean(values[|values| / 2..]);
            (CalculateTrend(values) == Improving <==> second > 0.0) &&
            (CalculateTrend(values) == Declining <==> second < 0.0) &&
            (CalculateTrend(values) == Stable <==> second == 0.0)
  {
  }

  /** For a negative first-half mean the division by it flips both
      comparisons: "improving" exactly when the second mean is below 1.1 times
      the first, "declining" exactly when it is above 0.9 times the first. */
  lemma TrendAgainstNegativeFirstHalf(values: seq<real>)
    requires |values| >= 2
    requires Mean(values[..|values| / 2]) < 0.0
    ensures var first := Mean(values[..|values| / 2]);
            var second := Mean(values[|values| / 2..]);
            (CalculateTrend(values) == Improving <==> second < 1.1 * first) &&
            (CalculateTrend(values) == Declining <==> second > 0.9 * first)
  {
    var first := Mean(values[..|values| / 2]);
    var second := Mean(values[|values| / 2..]);
    assert (second - first) / first == (first - second) / (-first);
    QuotientCompare(first - second, -first, 0.1);
    QuotientCompare(first - second, -first, -0.1);
  }

  /** The three advice messages of `generateRecommendations`. */
  const IncreaseDelaysAdvice: string := "Consider increasing delays and reducing activity frequency"
  const ConservativeAdvice: string := "High ban rate detected - implement more conservative patterns"
  const BreakAdvice: string := "Multiple risk events in current session - consider taking a break"

  /** `generateRecommendations()`. The ban rate is banned / total; with no
      sessions it is NaN in the source, which compares false. */
  function Recommendations(m: Metrics, currentRisks: nat): (r: seq<string>)
    ensures IncreaseDelaysAdvice in r <==> m.averageSuccessRate < 0.8
    ensures ConservativeAdvice in r <==>
      m.totalSessions > 0 && m.bannedSessions as real > 0.05 * m.totalSessions as real
    ensures BreakAdvice in r <==> currentRisks > 3
    ensures forall i, j :: 0 <= i < j < |r| ==> r[i] != r[j]
  {
    var banRateHigh := m.totalSessions > 0 && m.bannedSessions as real / m.totalSessions as real > 0.05;
    assert banRateHigh <==> m.totalSessions > 0 && m.bannedSessions as real > 0.05 * m.totalSessions as real by {
      if m.totalSessions > 0 {
        QuotientCompare(m.bannedSessions as real, m.totalSessions as real, 0.05);
      }
    }
    (if m.averageSuccessRate < 0.8 then [IncreaseDelaysAdvice] else []) +
    (if banRateHigh then [ConservativeAdvice] else []) +
    (if currentRisks > 3 then [BreakAdvice] else [])
  }

  /** What `analyzeTrends` reports. */
  datatype Trends = Trends(successTrend: Trend, riskTrend: Trend, recommendations: seq<string>)

  /** The last ten sessions, or all of them. */
  function LastTen(history: seq<SessionRecord>): (r: seq<SessionRecord>)
    ensures |r| == (if |history| < 10 then |history| else 10)
    ensures r == history[|history| - |r|..]
  {
    if |history| > 10 then history[|history| - 10..] else history
  }

  /** `analyzeTrends()`: nothing below five sessions; otherwise the trends of
      success (1 or 0 per session) and of the number of risk events over the
      last ten sessions. */
  function AnalyzeTrends(history: seq<SessionRecord>, m: Metrics, currentRisks: nat): (r: Option<Trends>)
    ensures r.None? <==> |history| < 5
    ensures r.Some? ==>
      var recent := LastTen(history);
      r.value.successTrend == CalculateTrend(seq(|recent|, i requires 0 <= i < |recent| => if recent[i].success then 1.0 else 0.0)) &&
      r.value.riskTrend == CalculateTrend(seq(|recent|, i requires 0 <= i < |recent| => |recent[i].session.riskEvents| as real)) &&
      r.value.recommendations == Recommendations(m, currentRisks)
  {
    if |history| < 5 then None
    else
      var recent := LastTen(history);
      var successes := seq(|recent|, i requires 0 <= i < |recent| => if recent[i].success then 1.0 else 0.0);
      var risks := seq(|recent|, i requires 0 <= i < |recent| => |recent[i].session.riskEvents| as real);
      Some(Trends(CalculateTrend(successes), CalculateTrend(risks), Recommendations(m, currentRisks)))
  }

  /** The learner's state. */
  class Learner {
    var patterns: Patterns
    var sessionHistory: seq<SessionRecord>
    var metrics: Metrics
    var current: Session

    ghost predicate Valid()
      reads this
    {
      Conforms(patterns) && MetricsValid(metrics) && TimingConsistent(current) &&
      |sessionHistory| == metrics.totalSessions
    }

    /** A learner with the default table, no history and a session begun at `now`. */
    constructor(now: int)
      ensures Valid()
      ensures patterns == Defaults() && sessionHistory == [] && metrics == Metrics(0, 0, 0, 0.0, map[])
      ensures current == Session(now, [], [], [], [])
    {
      patterns := Defaults();
      sessionHistory := [];
      metrics := Metrics(0, 0, 0, 0.0, map[]);
      current := Session(now, [], [], [], []);
      DefaultsConform();
    }

    /** `adaptPattern(category, parameter, value, rate)`. */
    method AdaptPattern(cat: string, param: string, value: real, rate: real)
      requires Valid()
      modifies this
      ensures Valid()
      ensures patterns == AdaptIn(old(patterns), cat, param, value, rate)
      ensures sessionHistory == old(sessionHistory) && metrics == old(metrics) && current == old(current)
    {
      AdaptInConforms(patterns, cat, param, value, rate);
      if cat !in patterns || param !in patterns[cat] {
        return;
      }
      var p := patterns[cat][param];
      patterns := patterns[cat := patterns[cat][param := Adapted(p, value, rate)]];
    }

    /** `recordAction(actionType, details)` at clock reading `now`. */
    method RecordAction(kind: string, details: map<string, real>, now: int)
      requires Valid()
      modifies this
      ensures Valid()
      ensures current == SessionAfterAction(old(current), kind, details, now)
      ensures patterns == PatternsAfterAction(old(patterns), kind, details)
      ensures sessionHistory == old(sessionHistory) && metrics == old(metrics)
    {
      current := SessionAfterAction(current, kind, details, now);
      var t := ActionTarget(kind);
      if t.Some? {
        AdaptPattern(t.value.category, t.value.parameter,
                     Observed(details, t.value.detail, t.value.fallback), AdaptationRate);
      }
    }

    /** `reinforceSuccessfulPatterns()`: credits each of the last five actions. */
    method ReinforceSuccessfulPatterns()
      requires Valid()
      modifies this
      ensures Valid()
      ensures metrics == old(metrics).(patternEffectiveness :=
                ReinforcedAll(old(metrics.patternEffectiveness), RecentActions(current.actions)))
      ensures patterns == old(patterns) && sessionHistory == old(sessionHistory) && current == old(current)
    {
      var recent := RecentActions(current.actions);
      var eff := ReinforceEach(metrics.patternEffectiveness, recent);
      ReinforcedAllValid(metrics.patternEffectiveness, recent);
      MetricsWithEffectiveness(metrics, eff);
      ghost var ps, cur := patterns, current;
      assert Conforms(ps) && TimingConsistent(cur);
      metrics := metrics.(patternEffectiveness := eff);
      assert patterns == ps && current == cur;
    }

    /** `recordSuccess(successType)` at clock reading `now`. */
    method RecordSuccess(kind: string, now: int)
      requires Valid()
      modifies this
      ensures Valid()
      ensures current == old(current).(successEvents := old(current.successEvents) + [Event(kind, "", now)])
      ensures metrics == old(metrics).(patternEffectiveness :=
                ReinforcedAll(old(metrics.patternEffectiveness), RecentActions(old(current.actions))))
      ensures patterns == old(patterns) && sessionHistory == old(sessionHistory)
    {
      current := current.(successEvents := current.successEvents + [Event(kind, "", now)]);
      ReinforceSuccessfulPatterns();
    }

    /** `randomizeCurrentPatterns()`, one draw per category and parameter. */
    method RandomizeCurrentPatterns(draw: (string, string) -> real)
      requires Valid() && DrawsValid(draw)
      modifies this
      ensures Valid()
      ensures patterns == RandomizedPatterns(old(patterns), draw)
      ensures sessionHistory == old(sessionHistory) && metrics == old(metrics) && current == old(current)
    {
      RandomizedConforms(patterns, draw);
      patterns := RandomizeTable(patterns, draw);
    }

    /** The outer loop of `randomizeCurrentPatterns` over the categories. */
    static method RandomizeTable(ps: Patterns, draw: (string, string) -> real) returns (r: Patterns)
      requires DrawsValid(draw)
      ensures r == RandomizedPatterns(ps, draw)
    {
      r := ps;
      var todo := ps.Keys;
      while todo != {}
        invariant todo <= ps.Keys && r.Keys == ps.Keys
        invariant forall c :: c in todo ==> r[c] == ps[c]
        invariant forall c :: c in ps && c !in todo ==> r[c] == RandomizedCategory(c, ps[c], draw)
        decreases todo
      {
        var c :| c in todo;
        var params := RandomizeCategory(c, r[c], draw);
        r := r[c := params];
        todo := todo - {c};
      }
      assert forall c :: c in r ==> r[c] == RandomizedPatterns(ps, draw)[c];
    }

    /** The inner loop of `randomizeCurrentPatterns` over one category. */
    static method RandomizeCategory(c: string, params: map<string, Param>, draw: (string, string) -> real)
      returns (r: map<string, Param>)
      requires DrawsValid(draw)
      ensures r == RandomizedCategory(c, params, draw)
    {
      r := params;
      var left := params.Keys;
      while left != {}
        invariant left <= params.Keys && r.Keys == params.Keys
        invariant forall p :: p in left ==> r[p] == params[p]
        invariant forall p :: p in params && p !in left ==> r[p] == Randomized(params[p], draw(c, p))
        decreases left
      {
        var p :| p in left;
        r := r[p := Randomized(r[p], draw(c, p))];
        left := left - {p};
      }
    }

    /** `recordRisk(riskType, severity)` at clock reading `now`. */
    method RecordRisk(kind: string, severity: string, now: int, draw: (string, string) -> real)
      requires Valid() && DrawsValid(draw)
      modifies this
      ensures Valid()
      ensures current == old(current).(riskEvents := old(current.riskEvents) + [Event(kind, severity, now)])
      ensures patterns == PatternsAfterRisk(old(patterns), kind, draw)
      ensures sessionHistory == old(sessionHistory) && metrics == old(metrics)
    {
      current := current.(riskEvents := current.riskEvents + [Event(kind, severity, now)]);
      if kind == "too_fast" {
        AdaptPattern("timing", "actionDelay", 2000.0, AvoidanceRate);
      } else if kind == "too_repetitive" {
        AdaptPattern("navigation", "pathVariety", 7.0, AvoidanceRate);
      } else if kind == "detected_pattern" {
        RandomizeCurrentPatterns(draw);
      }
    }

    /** `endSession(success, banned)` at clock reading `now`: the session joins
        the history, the metrics count it, and a new session begins. */
    method EndSession(success: bool, banned: bool, now: int)
      requires Valid()
      modifies this
      ensures Valid()
      ensures sessionHistory == old(sessionHistory) + [SessionRecord(old(current), now, now - old(current.startTime), success, banned)]
      ensures metrics == MetricsAfterSession(old(metrics), success, banned)
      ensures current == Session(now, [], [], [], [])
      ensures patterns == old(patterns)
    {
      sessionHistory := sessionHistory + [SessionRecord(current, now, now - current.startTime, success, banned)];
      metrics := MetricsAfterSession(metrics, success, banned);
      current := Session(now, [], [], [], []);
    }
  }
}
