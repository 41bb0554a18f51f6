/** Choosing a channel for an attempt: predicates, one selection in a group, the walk
    over the auto groups, and the retry loop around it.

    The channel cache, the cooldown maps and the clock are read as one `Env` per
    attempt.  The repository's weighted draw is any accepted channel, of the highest
    priority when the retry index is 0. */
module ChannelSelect {
  datatype Option<T> = None | Some(value: T)

  /** One auto group: the channels that serve the model there, and when its parked
      multi-key channels recover, if there are any. */
  datatype Group = Group(candidates: seq<int>, recovery: Option<int>)

  datatype Env = Env(
    groups: seq<Group>,
    wrongKind: set<int>,      // the modality predicate rejects these
    filteredOut: set<int>,    // the provider filter rejects these
    cooling: map<int, int>,   // cooldown deadlines still ahead
    used: set<int>,           // this request has tried these
    priority: int -> int)
  {
    /** Passes the modality predicate, the provider filter and, when asked, the
        used-channel exclusion. */
    predicate Fits(c: int, exclude: bool) {
      c !in wrongKind && c !in filteredOut && !(exclude && c in used)
    }

    predicate Accepts(c: int, exclude: bool) { Fits(c, exclude) && c !in cooling }

    /** Some candidate of the group is accepted. */
    predicate Serves(g: Group, exclude: bool) {
      exists c | c in g.candidates :: Accepts(c, exclude)
    }

    /** `t` is the earliest deadline among the candidates that only cooldown rejects. */
    ghost predicate EarliestOf(cs: seq<int>, exclude: bool, t: int) {
      && (exists c | c in cs :: Fits(c, exclude) && c in cooling && cooling[c] == t)
      && (forall c | c in cs && Fits(c, exclude) && c in cooling :: t <= cooling[c])
    }

    predicate AnyCooling(cs: seq<int>, exclude: bool) {
      exists c | c in cs :: Fits(c, exclude) && c in cooling
    }

    predicate AllWrongKind(cs: seq<int>) {
      forall c | c in cs :: c in wrongKind
    }
  }

  datatype Miss = NoCandidates | NoneSatisfies | Cooling(until: int) | WrongKind

  datatype Pick = Chosen(id: int) | Missed(why: Miss)

  /** Why the group has nothing to offer. */
  ghost predicate Explains(env: Env, g: Group, exclude: bool, m: Miss) {
    !env.Serves(g, exclude) &&
    match m
    case NoCandidates => g.candidates == [] && g.recovery.None?
    case Cooling(t) => if g.candidates == [] then g.recovery == Some(t) else env.EarliestOf(g.candidates, exclude, t)
    case WrongKind => g.candidates != [] && env.AllWrongKind(g.candidates)
    case NoneSatisfies =>
      g.candidates != [] && !env.AnyCooling(g.candidates, exclude) && !env.AllWrongKind(g.candidates)
  }

  /** A legitimate draw from the group. */
  ghost predicate Draws(env: Env, g: Group, exclude: bool, top: bool, c: int) {
    && c in g.candidates && env.Accepts(c, exclude)
    && (top ==> forall d | d in g.candidates && env.Accepts(d, exclude) :: env.priority(d) <= env.priority(c))
  }

  // ---------------------------------------------------------------- one group

  /** filterChannelsWhere with the combined predicate and its probes: the modality
      probe counts what passed it, the cooldown probe keeps the earliest deadline. */
  method FilterWhere(env: Env, cs: seq<int>, exclude: bool) returns (accepted: seq<int>, earliest: Option<int>, passed: nat)
    ensures forall c :: c in accepted <==> c in cs && env.Accepts(c, exclude)
    ensures if earliest.Some? then env.EarliestOf(cs, exclude, earliest.value) else !env.AnyCooling(cs, exclude)
    ensures passed == 0 <==> env.AllWrongKind(cs)
  {
    accepted, earliest, passed := [], None, 0;
    for i := 0 to |cs|
      invariant forall c :: c in accepted <==> c in cs[..i] && env.Accepts(c, exclude)
      invariant if earliest.Some? then env.EarliestOf(cs[..i], exclude, earliest.value) else !env.AnyCooling(cs[..i], exclude)
      invariant passed == 0 <==> env.AllWrongKind(cs[..i])
    {
      var c := cs[i];
      assert cs[..i + 1] == cs[..i] + [c];
      if c !in env.wrongKind {
        passed := passed + 1;
        if c !in env.filteredOut && !(exclude && c in env.used) {
          if c in env.cooling {
            if earliest.None? || env.cooling[c] < earliest.value {
              earliest := Some(env.cooling[c]);
            }
          } else {
            accepted := accepted + [c];
          }
        }
      }
    }
    assert cs[..|cs|] == cs;
  }

  /** The repository's draw among accepted channels. */
  method Draw(env: Env, accepted: seq<int>, retry: nat) returns (c: int)
    requires accepted != []
    ensures c in accepted
    ensures retry == 0 ==> forall d | d in accepted :: env.priority(d) <= env.priority(c)
  {
    var best := accepted[0];
    for i := 1 to |accepted|
      invariant best in accepted && forall d | d in accepted[..i] :: env.priority(d) <= env.priority(best)
    {
      if env.priority(accepted[i]) > env.priority(best) {
        best := accepted[i];
      }
      assert accepted[..i + 1] == accepted[..i] + [accepted[i]];
    }
    assert accepted[..|accepted|] == accepted;
    if retry == 0 {
      return best;
    }
    c :| c in accepted;
  }

  /** selectChannelOnce. */
  method SelectOnce(env: Env, g: Group, retry: nat, excludeUsed: bool) returns (r: Pick)
    ensures r.Chosen? <==> env.Serves(g, excludeUsed)
    ensures r.Chosen? ==> Draws(env, g, excludeUsed, retry == 0 || (excludeUsed && env.used != {}), r.id)
    ensures r.Missed? ==> Explains(env, g, excludeUsed, r.why)
  {
    if g.candidates == [] {
      return Missed(if g.recovery.Some? then Cooling(g.recovery.value) else NoCandidates);
    }
    var index := if excludeUsed && env.used != {} then 0 else retry;
    var accepted, earliest, passed := FilterWhere(env, g.candidates, excludeUsed);
    if accepted != [] {
      var c := Draw(env, accepted, index);
      return Chosen(c);
    }
    assert !env.Serves(g, excludeUsed) by {
      assert forall c :: c in accepted <==> c in g.candidates && env.Accepts(c, excludeUsed);
    }
    if earliest.Some? {
      return Missed(Cooling(earliest.value));
    }
    return Missed(if passed == 0 then WrongKind else NoneSatisfies);
  }

  /** selectChannelWhere: used channels are excluded softly. */
  method SelectWhere(env: Env, g: Group, retry: nat) returns (r: Pick)
    ensures r.Chosen? <==> env.Serves(g, false)
    ensures r.Chosen? ==> Draws(env, g, env.Serves(g, true), retry == 0 || (env.Serves(g, true) && env.used != {}), r.id)
    ensures r.Missed? ==> Explains(env, g, false, r.why)
  {
    r := SelectOnce(env, g, retry, true);
    if r.Missed? && env.used != {} && (r.why.NoneSatisfies? || r.why.Cooling?) {
      r := SelectOnce(env, g, retry, false);
    }
  }

  /** One group of a walk: strictly without used channels, or softly. */
  method SelectFrom(env: Env, g: Group, retry: nat, strict: bool) returns (r: Pick)
    ensures r.Chosen? <==> env.Serves(g, strict)
    ensures r.Chosen? ==> Draws(env, g, strict || env.Serves(g, true), retry == 0 || (strict && env.used != {}), r.id)
    ensures r.Missed? && !strict ==> Explains(env, g, false, r.why)
  {
    if strict {
      r := SelectOnce(env, g, retry, true);
    } else {
      r := SelectWhere(env, g, retry);
    }
  }

  // ---------------------------------------------------------------- the walk

  /** What survives from one attempt of a request to the next. */
  datatype State = State(retry: nat, reset: bool, index: nat)

  datatype Outcome = Nothing | Pinned | InGroup(i: nat)

  const START := State(0, false, 0)

  /** The retry settings: how many groups, the retry budget, and whether a group that
      used it up hands over to the next. */
  datatype Rules = Rules(groups: nat, budget: nat, crossGroup: bool)

  predicate Possible(rules: Rules, s: State, o: Outcome) {
    match o
    case Nothing => true
    case Pinned => s.retry == 0
    case InGroup(i) => s.index <= i < rules.groups
  }

  /** Where an attempt leaves the walk. */
  function After(rules: Rules, s: State, o: Outcome): State {
    match o
    case Nothing => if s.index < rules.groups then State(0, s.reset, rules.groups) else s
    case Pinned => s
    case InGroup(i) =>
      var retry := if i > s.index then 0 else s.retry;
      if rules.crossGroup && retry >= rules.budget then State(0, true, i + 1) else State(retry, s.reset, i)
  }

  function Bumped(s: State): State {
    if s.reset then s.(reset := false) else s.(retry := s.retry + 1)
  }

  ghost predicate NoneServes(env: Env, from: nat, to: nat, exclude: bool) {
    forall k | from <= k < to && k < |env.groups| :: !env.Serves(env.groups[k], exclude)
  }

  ghost predicate FirstServing(env: Env, from: nat, exclude: bool, i: nat) {
    from <= i < |env.groups| && env.Serves(env.groups[i], exclude) && NoneServes(env, from, i, exclude)
  }

  /** One reason for each group from `from` on. */
  ghost predicate Reasons(env: Env, from: nat, to: nat, whys: seq<Miss>) {
    && |whys| == to - from
    && forall k | 0 <= k < |whys| :: from + k < |env.groups| && Explains(env, env.groups[from + k], false, whys[k])
  }

  ghost predicate Earliest(whys: seq<Miss>, cooling: Option<int>) {
    if cooling.Some? then Cooling(cooling.value) in whys && forall u | Cooling(u) in whys :: cooling.value <= u
    else forall u :: Cooling(u) !in whys
  }

  ghost predicate Tallied(whys: seq<Miss>, cooling: Option<int>, filterMiss: bool, wrongKind: bool) {
    Earliest(whys, cooling) && filterMiss == (NoneSatisfies in whys) && wrongKind == (WrongKind in whys)
  }

  /** The answer a refused request gets: back off until the earliest recovery if
      anything cools, else the provider filter, else the modality, else nothing. */
  ghost predicate RefusedFor(whys: seq<Miss>, why: Miss) {
    match why
    case Cooling(t) => Earliest(whys, Some(t))
    case NoneSatisfies => Earliest(whys, None) && NoneSatisfies in whys
    case WrongKind => Earliest(whys, None) && NoneSatisfies !in whys && WrongKind in whys
    case NoCandidates => forall w | w in whys :: w == NoCandidates
  }

  datatype Answer = Served(id: int, from: Outcome) | Refused(why: Miss) | NotEnabled

  /** RetryParam together with the group index kept in the request context. */
  class Walk {
    var retry: nat
    var resetNextTry: bool
    var groupIndex: nat

    ghost function View(): State
      reads this
    {
      State(retry, resetNextTry, groupIndex)
    }

    constructor ()
      ensures View() == State(0, false, 0)
    {
      retry, resetNextTry, groupIndex := 0, false, 0;
    }

    method IncreaseRetry()
      modifies this
      ensures View() == Bumped(old(View()))
    {
      if resetNextTry {
        resetNextTry := false;
        return;
      }
      retry := retry + 1;
    }

    /** runGroups.  Strictly, used channels never count; softly, they do where a group
        has nothing else. */
    method RunGroups(env: Env, strict: bool, crossGroup: bool, budget: nat)
      returns (channel: Option<int>, at: nat, cooling: Option<int>, filterMiss: bool, wrongKind: bool, ghost whys: seq<Miss>)
      modifies this
      ensures channel.Some? ==>
                && FirstServing(env, old(groupIndex), strict, at)
                && Draws(env, env.groups[at], strict || env.Serves(env.groups[at], true),
                         at > old(groupIndex) || old(retry) == 0 || (strict && env.used != {}), channel.value)
                && View() == After(Rules(|env.groups|, budget, crossGroup), old(View()), InGroup(at))
      ensures channel.None? ==>
                && NoneServes(env, old(groupIndex), |env.groups|, strict)
                && View() == After(Rules(|env.groups|, budget, crossGroup), old(View()), Nothing)
                && Tallied(whys, cooling, filterMiss, wrongKind)
      ensures channel.None? && !strict ==> Reasons(env, old(groupIndex), Max(old(groupIndex), |env.groups|), whys)
    {
      var start, i := groupIndex, groupIndex;
      channel, at, cooling, filterMiss, wrongKind, whys := None, 0, None, false, false, [];
      while i < |env.groups|
        invariant start <= i <= Max(start, |env.groups|)
        invariant NoneServes(env, start, i, strict)
        invariant View() == State(if i > start then 0 else old(retry), old(resetNextTry), i)
        invariant Tallied(whys, cooling, filterMiss, wrongKind)
        invariant !strict ==> Reasons(env, start, i, whys)
      {
        var priorityRetry := if i > start then 0 else retry;
        var r := SelectFrom(env, env.groups[i], priorityRetry, strict);
        if r.Chosen? {
          channel, at := Some(r.id), i;
          if crossGroup && priorityRetry >= budget {
            groupIndex, retry, resetNextTry := i + 1, 0, true;
          } else {
            groupIndex := i;
          }
          return;
        }
        cooling, filterMiss, wrongKind := Note(r.why, cooling, filterMiss, wrongKind, whys);
        whys := whys + [r.why];
        groupIndex, retry := i + 1, 0;
        i := i + 1;
      }
    }

    /** The soft pass, when no group has an untried channel or nothing was tried, and
        the answer if it too finds none. */
    method SoftPass(env: Env, crossGroup: bool, budget: nat) returns (answer: Answer, ghost whys: seq<Miss>)
      requires env.used == {} || NoneServes(env, groupIndex, |env.groups|, true)
      modifies this
      ensures Walks(env, old(View()), answer, whys)
      ensures View() == After(Rules(|env.groups|, budget, crossGroup), old(View()), OutcomeOf(answer))
    {
      if env.used == {} {
        NothingUsed(env);
      }
      var channel, at, cooling, filterMiss, wrongKind;
      channel, at, cooling, filterMiss, wrongKind, whys := RunGroups(env, false, crossGroup, budget);
      if channel.Some? {
        return Served(channel.value, InGroup(at)), whys;
      }
      answer := Refused(if cooling.Some? then Cooling(cooling.value)
                        else if filterMiss then NoneSatisfies
                        else if wrongKind then WrongKind else NoCandidates);
    }

    /** The strict pass first; if it finds nothing, its moves are rewound. */
    method WalkGroups(env: Env, crossGroup: bool, budget: nat) returns (answer: Answer, ghost whys: seq<Miss>)
      modifies this
      ensures Walks(env, old(View()), answer, whys)
      ensures View() == After(Rules(|env.groups|, budget, crossGroup), old(View()), OutcomeOf(answer))
    {
      if env.used != {} {
        var start, origRetry := groupIndex, retry;
        ghost var was := View();
        var channel, at, cooling, filterMiss, wrongKind;
        channel, at, cooling, filterMiss, wrongKind, whys := RunGroups(env, true, crossGroup, budget);
        if channel.Some? {
          return Served(channel.value, InGroup(at)), whys;
        }
        groupIndex, retry := start, origRetry;
        assert View() == was;
      }
      answer, whys := SoftPass(env, crossGroup, budget);
    }

    /** CacheGetRandomSatisfiedChannel for the auto group.  `pin` is the channel the
        session's affinity record leads to, if any. */
    method Select(env: Env, enabled: bool, pin: Option<int>, crossGroup: bool, budget: nat)
      returns (answer: Answer, ghost whys: seq<Miss>)
      modifies this
      ensures old(retry) == 0 && pin.Some? && pin.value !in env.wrongKind + env.filteredOut + env.cooling.Keys ==>
                answer == Served(pin.value, Pinned)
      ensures PinHolds(env, old(retry), pin) ==> answer == Served(pin.value, Pinned) && View() == old(View())
      ensures !PinHolds(env, old(retry), pin) && !enabled ==> answer == NotEnabled && View() == old(View())
      ensures !PinHolds(env, old(retry), pin) && enabled ==>
                && Walks(env, old(View()), answer, whys)
                && View() == After(Rules(|env.groups|, budget, crossGroup), old(View()), OutcomeOf(answer))
    {
      whys := [];
      if retry == 0 && pin.Some? && env.Accepts(pin.value, false) {
        return Served(pin.value, Pinned), whys;
      }
      if !enabled {
        return NotEnabled, whys;
      }
      answer, whys := WalkGroups(env, crossGroup, budget);
    }

    /** CacheGetRandomSatisfiedChannel for a token bound to one group. */
    method SelectInGroup(env: Env, g: Group, pin: Option<int>) returns (answer: Answer)
      ensures PinHolds(env, retry, pin) ==> answer == Served(pin.value, Pinned)
      ensures !PinHolds(env, retry, pin) && env.Serves(g, false) ==>
                && answer.Served? && !answer.from.Pinned?
                && Draws(env, g, env.Serves(g, true), retry == 0 || (env.Serves(g, true) && env.used != {}), answer.id)
      ensures !PinHolds(env, retry, pin) && !env.Serves(g, false) ==>
                answer.Refused? && Explains(env, g, false, answer.why)
    {
      if retry == 0 && pin.Some? && env.Accepts(pin.value, false) {
        return Served(pin.value, Pinned);
      }
      var r := SelectWhere(env, g, retry);
      return if r.Chosen? then Served(r.id, Nothing) else Refused(r.why);
    }
  }

  /** An attempt that walks the groups: an untried channel of the first group that has
      one; only if no group has, a tried one of the first group with any eligible
      channel; only if there is none, a refusal, for a reason of every group. */
  ghost predicate Walks(env: Env, s: State, answer: Answer, whys: seq<Miss>) {
    match answer
    case Served(c, InGroup(i)) =>
      var untried := !NoneServes(env, s.index, |env.groups|, true);
      && FirstServing(env, s.index, untried, i)
      && Draws(env, env.groups[i], untried, i > s.index || s.retry == 0 || (untried && env.used != {}), c)
    case Refused(why) =>
      && NoneServes(env, s.index, |env.groups|, false)
      && Reasons(env, s.index, Max(s.index, |env.groups|), whys) && RefusedFor(whys, why)
    case _ => false
  }

  /** The pin is consulted whenever the retry index is 0, and must pass the modality,
      provider-filter and cooldown predicates. */
  predicate PinHolds(env: Env, retry: nat, pin: Option<int>) {
    retry == 0 && pin.Some? && env.Accepts(pin.value, false)
  }

  function OutcomeOf(answer: Answer): Outcome {
    if answer.Served? then answer.from else Nothing
  }

  /** With nothing tried yet, every eligible channel is untried. */
  lemma NothingUsed(env: Env)
    requires env.used == {}
    ensures forall g: Group :: env.Serves(g, true) == env.Serves(g, false)
  {
    forall c: int
      ensures env.Accepts(c, true) == env.Accepts(c, false)
    {}
  }

  function Max(a: nat, b: nat): nat { if a < b then b else a }

  /** The miss of one group, taken into the tally. */
  method Note(why: Miss, cooling: Option<int>, filterMiss: bool, wrongKind: bool, ghost whys: seq<Miss>)
    returns (c: Option<int>, f: bool, w: bool)
    requires Tallied(whys, cooling, filterMiss, wrongKind)
    ensures Tallied(whys + [why], c, f, w)
  {
    c, f, w := cooling, filterMiss || why.NoneSatisfies?, wrongKind || why.WrongKind?;
    if why.Cooling? && (cooling.None? || why.until < cooling.value) {
      c := Some(why.until);
    }
  }

  // ---------------------------------------------------------------- whole requests

  /** What any served channel is known to pass, pinned or drawn. */
  lemma ServedPasses(env: Env, s: State, answer: Answer, whys: seq<Miss>, pin: Option<int>)
    requires answer.Served?
    requires (PinHolds(env, s.retry, pin) && answer == Served(pin.value, Pinned)) || Walks(env, s, answer, whys)
    ensures answer.id !in env.wrongKind && answer.id !in env.filteredOut && answer.id !in env.cooling
  {}

  /** A tried channel is drawn only when no group from the current one on has an
      eligible untried channel. */
  lemma TriedOnlyAsLastResort(env: Env, s: State, answer: Answer, whys: seq<Miss>, k: nat, c: int)
    requires Walks(env, s, answer, whys)
    requires s.index <= k < |env.groups| && c in env.groups[k].candidates
    requires c !in env.wrongKind && c !in env.filteredOut && c !in env.cooling && c !in env.used
    ensures answer.Served? && answer.id !in env.used && answer.from.i <= k
  {
    assert env.Accepts(c, true);
    assert env.Serves(env.groups[k], true);
    if answer.Refused? {
      assert env.Accepts(c, false);
      assert env.Serves(env.groups[k], false);
    }
  }

  /** As long as any group from the current one on has an eligible channel, tried or not,
      the walk serves one, from no later group. */
  lemma EligibleIsServed(env: Env, s: State, answer: Answer, whys: seq<Miss>, k: nat, c: int)
    requires Walks(env, s, answer, whys)
    requires s.index <= k < |env.groups| && c in env.groups[k].candidates
    requires c !in env.wrongKind && c !in env.filteredOut && c !in env.cooling
    ensures answer.Served? && (answer.id in env.used ==> answer.from.i <= k)
  {
    assert env.Accepts(c, false);
    assert env.Serves(env.groups[k], false);
  }

  /** On the first try of a group the channel served has the highest priority among the
      eligible ones, untried ones before tried ones. */
  lemma BestOfGroup(env: Env, s: State, answer: Answer, whys: seq<Miss>, d: int)
    requires Walks(env, s, answer, whys) && answer.Served? && (s.retry == 0 || answer.from.i > s.index)
    requires answer.from.i < |env.groups| && d in env.groups[answer.from.i].candidates
    requires d !in env.wrongKind && d !in env.filteredOut && d !in env.cooling && (d in env.used ==> answer.id in env.used)
    ensures env.priority(d) <= env.priority(answer.id)
  {
    assert env.Accepts(d, false) && (d !in env.used ==> env.Accepts(d, true));
    if d !in env.used {
      assert env.Serves(env.groups[answer.from.i], true);
    }
  }

  /** A refused request is told to wait exactly when waiting helps: if a channel of any
      group left is kept out by its cooldown alone, the answer is a wait, no longer than
      that channel's. */
  lemma RefusalWaits(env: Env, s: State, answer: Answer, whys: seq<Miss>, k: nat, c: int)
    requires Walks(env, s, answer, whys) && answer.Refused?
    requires s.index <= k < |env.groups| && c in env.groups[k].candidates
    requires c !in env.wrongKind && c !in env.filteredOut && c in env.cooling
    ensures answer.why.Cooling? && answer.why.until <= env.cooling[c]
  {
    var why := whys[k - s.index];
    assert Explains(env, env.groups[s.index + (k - s.index)], false, why);
    assert env.Fits(c, false) && why in whys;
    assert env.AnyCooling(env.groups[k].candidates, false);
  }

  /** And a wait is always for something: a channel kept out by its cooldown alone, or a
      group of parked keys, that recovers at that time. */
  lemma WaitIsForSomething(env: Env, s: State, answer: Answer, whys: seq<Miss>) returns (k: nat)
    requires Walks(env, s, answer, whys) && answer.Refused? && answer.why.Cooling?
    ensures s.index <= k < |env.groups|
    ensures var g := env.groups[k];
            if g.candidates == [] then g.recovery == Some(answer.why.until)
            else exists c | c in g.candidates ::
                   c !in env.wrongKind && c !in env.filteredOut && c in env.cooling && env.cooling[c] == answer.why.until
  {
    var i :| 0 <= i < |whys| && whys[i] == Cooling(answer.why.until);
    k := s.index + i;
    assert Explains(env, env.groups[s.index + i], false, whys[i]);
    if env.groups[k].candidates != [] {
      var c :| c in env.groups[k].candidates && env.Fits(c, false) && c in env.cooling && env.cooling[c] == answer.why.until;
    }
  }

  /** The retry loop: attempts while the retry index is within the budget. */
  predicate Legal(rules: Rules, pins: bool, s: State, outs: seq<Outcome>)
    decreases |outs|
  {
    outs == [] ||
    (&& s.retry <= rules.budget && Possible(rules, s, outs[0]) && (outs[0].Pinned? ==> pins)
     && Legal(rules, pins, Bumped(After(rules, s, outs[0])), outs[1..]))
  }

  function Finally(rules: Rules, s: State, outs: seq<Outcome>): State
    decreases |outs|
  {
    if outs == [] then s else Finally(rules, Bumped(After(rules, s, outs[0])), outs[1..])
  }

  function Successes(outs: seq<Outcome>): nat {
    if outs == [] then 0 else (if outs[0].Nothing? then 0 else 1) + Successes(outs[1..])
  }

  /** The attempts still ahead: full budgets of the groups from here on, less the
      retries spent in this one. */
  function Ahead(rules: Rules, s: State): int {
    Times(rules.groups - s.index, rules.budget + 1) - s.retry
  }

  function Times(a: int, b: int): int { a * b }

  lemma {:induction false} TimesSteps(a: int, b: int, k: nat)
    requires a < b
    ensures Times(a, k) + k <= Times(b, k)
    decreases b - a
  {
    assert Times(b, k) == Times(b - 1, k) + k;
    if a < b - 1 {
      TimesSteps(a, b - 1, k);
    }
  }

  predicate Resting(rules: Rules, s: State) { !s.reset && s.index <= rules.groups }

  /** One attempt and the bump after it: the index never moves back, a later group starts
      with a full budget, and each served attempt uses up at least one of those ahead. */
  lemma AttemptSpends(rules: Rules, s: State, o: Outcome)
    requires Resting(rules, s) && s.retry <= rules.budget && Possible(rules, s, o)
    ensures var t := Bumped(After(rules, s, o));
            && Resting(rules, t) && s.index <= t.index
            && Ahead(rules, t) <= Ahead(rules, s) - (if o.Nothing? then 0 else 1)
            && (o.InGroup? ==> t.index > s.index || (t.index == s.index && t.retry == s.retry + 1))
            && (o.InGroup? && o.i > s.index ==>
                  t == if rules.crossGroup && rules.budget == 0 then State(0, false, o.i + 1) else State(1, false, o.i))
            && (o.InGroup? ==> Ahead(rules, s) >= 1) && (o.Pinned? ==> Ahead(rules, s) >= 0)
  {
    var k, t := rules.budget + 1, Bumped(After(rules, s, o));
    if s.index < rules.groups {
      TimesSteps(0, rules.groups - s.index, k);
    }
    if s.index < t.index {
      TimesSteps(rules.groups - t.index, rules.groups - s.index, k);
    }
    assert Times(0, k) == 0;
  }

  function Positive(n: int): nat { if n < 0 then 0 else n }

  /** However the attempts of a request turn out, at most groups * (RetryTimes + 1) of
      them are served, and one more if a pin is in play. */
  lemma {:induction false} ServedAtMost(rules: Rules, pins: bool, s: State, outs: seq<Outcome>)
    requires Resting(rules, s) && Legal(rules, pins, s, outs)
    ensures Successes(outs) <= Positive(Ahead(rules, s) + if pins then 1 else 0)
    decreases |outs|
  {
    if outs != [] {
      AttemptSpends(rules, s, outs[0]);
      ServedAtMost(rules, pins, Bumped(After(rules, s, outs[0])), outs[1..]);
    }
  }

  lemma {:induction false} IndexNeverMovesBack(rules: Rules, pins: bool, s: State, outs: seq<Outcome>)
    requires Resting(rules, s) && Legal(rules, pins, s, outs)
    ensures s.index <= Finally(rules, s, outs).index <= rules.groups
    decreases |outs|
  {
    if outs != [] {
      AttemptSpends(rules, s, outs[0]);
      IndexNeverMovesBack(rules, pins, Bumped(After(rules, s, outs[0])), outs[1..]);
    }
  }

  lemma {:induction false} RequestBound(rules: Rules, pins: bool, outs: seq<Outcome>)
    requires Legal(rules, pins, State(0, false, 0), outs)
    ensures Successes(outs) <= rules.groups * (rules.budget + 1) + if pins then 1 else 0
  {
    ServedAtMost(rules, pins, State(0, false, 0), outs);
  }

  /** There is something to serve: a pin that holds, or an eligible channel of a group
      from the current one on. */
  ghost predicate CanServe(env: Env, s: State, enabled: bool, pin: Option<int>) {
    PinHolds(env, s.retry, pin) || (enabled && !NoneServes(env, s.index, |env.groups|, false))
  }

  /** One attempt of the relay's loop, and the bump after a served one. */
  method Attempt(walk: Walk, env: Env, enabled: bool, pin: Option<int>, crossGroup: bool, budget: nat)
    returns (served: bool, ghost o: Outcome)
    modifies walk
    ensures served <==> CanServe(env, old(walk.View()), enabled, pin)
    ensures var rules, s := Rules(|env.groups|, budget, crossGroup), old(walk.View());
            served ==> && Possible(rules, s, o) && !o.Nothing? && (o.Pinned? ==> pin.Some?)
                       && walk.View() == Bumped(After(rules, s, o))
  {
    ghost var rules, s := Rules(|env.groups|, budget, crossGroup), walk.View();
    var answer; ghost var whys;
    answer, whys := walk.Select(env, enabled, pin, crossGroup, budget);
    served, o := answer.Served?, OutcomeOf(answer);
    if served {
      assert Possible(rules, s, o);
      walk.IncreaseRetry();
      assert walk.View() == Bumped(After(rules, s, o));
    }
  }

  lemma {:induction false} OneMoreAttempt(rules: Rules, pins: bool, s: State, outs: seq<Outcome>, o: Outcome)
    requires Legal(rules, pins, s, outs)
    ensures var t := Finally(rules, s, outs);
            && Finally(rules, s, outs + [o]) == Bumped(After(rules, t, o))
            && (t.retry <= rules.budget && Possible(rules, t, o) && (o.Pinned? ==> pins) ==> Legal(rules, pins, s, outs + [o]))
    decreases |outs|
  {
    if outs == [] {
      assert [o][1..] == [] && [] + [o] == [o];
    } else {
      OneMoreAttempt(rules, pins, Bumped(After(rules, s, outs[0])), outs[1..], o);
      assert (outs + [o])[0] == outs[0] && (outs + [o])[1..] == outs[1..] + [o];
    }
  }

  /** The relay's loop over one request: select, try, raise the retry index, while it is
      within the budget and something is served.  Its attempts are a legal run of the walk;
      it gives up only when the budget is spent or the next attempt finds nothing; and,
      whatever each attempt finds, at most groups * (RetryTimes + 1) are served, one more
      if a pin is in play. */
  method Attempts(envs: seq<Env>, pins: seq<Option<int>>, groups: nat, enabled: bool, crossGroup: bool, budget: nat)
    returns (count: nat, ghost outs: seq<Outcome>)
    requires |pins| == |envs| && forall env | env in envs :: |env.groups| == groups
    ensures count <= groups * (budget + 1) + if forall pin | pin in pins :: pin.None? then 0 else 1
    ensures count == |outs| <= |envs|
    ensures Legal(Rules(groups, budget, crossGroup), exists pin | pin in pins :: pin.Some?, START, outs)
    ensures var s := Finally(Rules(groups, budget, crossGroup), START, outs);
            count < |envs| && s.retry <= budget ==> !CanServe(envs[count], s, enabled, pins[count])
  {
    var walk := new Walk();
    count, outs := 0, [];
    ghost var rules, pinned := Rules(groups, budget, crossGroup), exists pin | pin in pins :: pin.Some?;
    while count < |envs| && walk.retry <= budget
      invariant count == |outs| <= |envs| && fresh(walk)
      invariant Legal(rules, pinned, START, outs) && walk.View() == Finally(rules, START, outs)
      invariant forall o | o in outs :: !o.Nothing?
    {
      assert envs[count] in envs && pins[count] in pins;
      ghost var o;
      var served;
      served, o := Attempt(walk, envs[count], enabled, pins[count], crossGroup, budget);
      if !served {
        break;
      }
      OneMoreAttempt(rules, pinned, START, outs, o);
      count, outs := count + 1, outs + [o];
    }
    AllServed(outs);
    RequestBound(rules, pinned, outs);
  }

  lemma {:induction false} AllServed(outs: seq<Outcome>)
    requires forall o | o in outs :: !o.Nothing?
    ensures Successes(outs) == |outs|
    decreases |outs|
  {
    if outs != [] {
      assert outs[0] in outs;
      AllServed(outs[1..]);
    }
  }

  /** With cross-group retry the bound is reached: every attempt of every group can be
      served. */
  lemma {:induction false} BoundIsReached(rules: Rules, s: State) returns (outs: seq<Outcome>)
    requires rules.crossGroup && Resting(rules, s) && s.retry <= rules.budget
    requires s.index == rules.groups ==> s.retry == 0
    ensures Legal(rules, false, s, outs) && Successes(outs) == Ahead(rules, s)
    decreases rules.groups - s.index, rules.budget - s.retry
  {
    if s.index == rules.groups {
      assert Times(0, rules.budget + 1) == 0;
      return [];
    }
    var o := InGroup(s.index);
    var t := Bumped(After(rules, s, o));
    if t.index > s.index {
      var k := rules.budget + 1;
      assert Times(rules.groups - s.index, k) == Times(rules.groups - t.index, k) + k;
    }
    var rest := BoundIsReached(rules, t);
    outs := [o] + rest;
    assert outs[1..] == rest;
  }
}
