/** The probabilistic reply decision engine: a reply policy (an enabled flag and
    a probability clamped into [0, 1]) and a map from session identifier to the
    time of the last probabilistic decision made for that session.

    The random draw and the clock are parameters, so every operation is a pure
    state transition from one `Service` value to the next. */
module ReplyService {
  import opened Wrappers

  // ---------------------------------------------------------------------------
  // Configuration
  // ---------------------------------------------------------------------------

  /** The value stored under `Reply_Probability`: either one that `float()`
      converts to a number, or one it rejects by raising. */
  datatype ProbabilityValue = Number(x: real) | Malformed

  /** The `Chat_Reply` section of the plugin configuration; `None` is a missing key. */
  datatype ChatReplySection = ChatReplySection(
    enableChatReply: Option<bool>,
    enableProbabilisticReply: Option<bool>,
    replyProbability: Option<ProbabilityValue>)

  /** The plugin configuration; `None` is a missing `Chat_Reply` section. */
  datatype Config = Config(chatReply: Option<ChatReplySection>)

  const DefaultReplyProbability: real := 0.3

  /** Default age, in seconds, beyond which a session record is swept. */
  const DefaultMaxAge: int := 3600

  /** The section, or the empty section `{}` when it is missing. */
  function ChatReply(cfg: Config): ChatReplySection {
    cfg.chatReply.GetOr(ChatReplySection(None, None, None))
  }

  // ---------------------------------------------------------------------------
  // State
  // ---------------------------------------------------------------------------

  datatype Policy = Policy(enabled: bool, probability: real)

  /** Session identifier to time of its last probabilistic decision. */
  type Sessions = map<string, real>

  datatype Service = Service(policy: Policy, sessions: Sessions)

  /** The invariant every operation keeps: the probability lies in [0, 1]. */
  predicate Valid(s: Service) {
    0.0 <= s.policy.probability <= 1.0
  }

  // ---------------------------------------------------------------------------
  // Loading the policy
  // ---------------------------------------------------------------------------

  /** Python's `max(0.0, min(1.0, x))`. */
  function Clamp(x: real): (r: real)
    ensures 0.0 <= r <= 1.0
    ensures 0.0 <= x <= 1.0 ==> r == x
    ensures x > 1.0 ==> r == 1.0
    ensures x < 0.0 ==> r == 0.0
  {
    var upper := if x < 1.0 then x else 1.0;
    if upper > 0.0 then upper else 0.0
  }

  /** `Enable_Probabilistic_Reply`, defaulting to false. */
  function LoadEnabled(cfg: Config): (enabled: bool)
    ensures ChatReply(cfg).enableProbabilisticReply.None? ==> !enabled
    ensures ChatReply(cfg).enableProbabilisticReply.Some? ==>
              enabled == ChatReply(cfg).enableProbabilisticReply.value
  {
    ChatReply(cfg).enableProbabilisticReply.GetOr(false)
  }

  /** `Reply_Probability` converted and clamped, defaulting to 0.3; `None` when
      `float()` raises on the stored value. */
  function LoadProbability(cfg: Config): (p: Option<real>)
    ensures p.Some? ==> 0.0 <= p.value <= 1.0
    ensures p.None? <==> ChatReply(cfg).replyProbability == Some(Malformed)
    ensures ChatReply(cfg).replyProbability.None? ==> p == Some(DefaultReplyProbability)
    ensures ChatReply(cfg).replyProbability.Some? && ChatReply(cfg).replyProbability.value.Number? ==>
              p == Some(Clamp(ChatReply(cfg).replyProbability.value.x))
  {
    match ChatReply(cfg).replyProbability.GetOr(Number(DefaultReplyProbability))
    case Malformed => None
    case Number(x) => Some(Clamp(x))
  }

  /** The constructor: an empty session map and the loaded policy; `None` when
      loading raises, which aborts construction. */
  function Create(cfg: Config): (s: Option<Service>)
    ensures s.Some? <==> ChatReply(cfg).replyProbability != Some(Malformed)
    ensures s.Some? ==> Valid(s.value) && s.value.sessions == map[]
    ensures s.Some? ==> s.value.policy.enabled == LoadEnabled(cfg)
    ensures s.Some? ==> Some(s.value.policy.probability) == LoadProbability(cfg)
  {
    match LoadProbability(cfg)
    case None => None
    case Some(p) => Some(Service(Policy(LoadEnabled(cfg), p), map[]))
  }

  /** The state after `update_config`, and whether it raised. */
  datatype Updated = Updated(service: Service, raised: bool)

  /** Reloads the policy from a new configuration. The enabled flag is assigned
      before the probability is converted, so when the conversion raises the new
      flag is kept beside the old probability. */
  function UpdateConfig(s: Service, cfg: Config): (u: Updated)
    ensures u.service.sessions == s.sessions
    ensures u.service.policy.enabled == LoadEnabled(cfg)
    ensures u.raised <==> ChatReply(cfg).replyProbability == Some(Malformed)
    ensures u.raised ==> u.service.policy.probability == s.policy.probability
    ensures !u.raised ==> Some(u.service.policy.probability) == LoadProbability(cfg)
    ensures Valid(s) ==> Valid(u.service)
  {
    var enabled := LoadEnabled(cfg);
    match LoadProbability(cfg)
    case None => Updated(Service(Policy(enabled, s.policy.probability), s.sessions), true)
    case Some(p) => Updated(Service(Policy(enabled, p), s.sessions), false)
  }

  // ---------------------------------------------------------------------------
  // Deciding
  // ---------------------------------------------------------------------------

  /** `m'` is `m` with `sid` recorded at `now` and every other entry kept. */
  predicate Touched(m: Sessions, m': Sessions, sid: string, now: real) {
    && m'.Keys == m.Keys + {sid}
    && m'[sid] == now
    && forall k :: k in m && k != sid ==> m'[k] == m[k]
  }

  datatype Decision = Decision(reply: bool, service: Service)

  /** `should_generate_reply`, given the random draw and the current time. */
  function ShouldGenerateReply(s: Service, sessionId: Option<string>, draw: real, now: real): (d: Decision)
    ensures d.service.policy == s.policy
    ensures !s.policy.enabled ==> d.reply && d.service == s
    ensures s.policy.enabled ==> (d.reply <==> draw <= s.policy.probability)
    ensures s.policy.enabled && NonEmpty(sessionId) ==>
              Touched(s.sessions, d.service.sessions, sessionId.value, now)
    ensures !NonEmpty(sessionId) ==> d.service == s
  {
    if !s.policy.enabled then
      Decision(true, s)
    else
      var reply := draw <= s.policy.probability;
      if NonEmpty(sessionId) then
        Decision(reply, Service(s.policy, s.sessions[sessionId.value := now]))
      else
        Decision(reply, s)
  }

  // ---------------------------------------------------------------------------
  // Sweeping
  // ---------------------------------------------------------------------------

  /** A record made at `t` is older than `maxAge` seconds at `now`. */
  predicate Expired(t: real, now: real, maxAge: int) {
    now - t > maxAge as real
  }

  /** The session map after every expired record is removed. */
  function Sweep(m: Sessions, now: real, maxAge: int): (r: Sessions)
    ensures r.Keys <= m.Keys
    ensures forall k :: k in r ==> r[k] == m[k] && !Expired(m[k], now, maxAge)
    ensures forall k :: k in m && !Expired(m[k], now, maxAge) ==> k in r
  {
    map k | k in m && !Expired(m[k], now, maxAge) :: m[k]
  }

  /** `cleanup_old_sessions` as the source writes it: one pass collecting the
      expired identifiers, a second pass deleting them. */
  method CleanupOldSessions(s: Service, now: real, maxAge: int := DefaultMaxAge) returns (r: Service)
    ensures r.policy == s.policy
    ensures forall k :: k in r.sessions <==> k in s.sessions && now - s.sessions[k] <= maxAge as real
    ensures forall k :: k in r.sessions ==> r.sessions[k] == s.sessions[k]
    ensures r.sessions == Sweep(s.sessions, now, maxAge)
  {
    var toRemove: set<string> := {};
    var pending := s.sessions.Keys;
    while pending != {}
      invariant pending <= s.sessions.Keys
      invariant toRemove <= s.sessions.Keys - pending
      invariant forall k :: k in s.sessions && k !in pending ==>
                  (k in toRemove <==> Expired(s.sessions[k], now, maxAge))
      decreases pending
    {
      var k :| k in pending;
      if now - s.sessions[k] > maxAge as real {
        toRemove := toRemove + {k};
      }
      pending := pending - {k};
    }
    var sessions := s.sessions;
    var doomed := toRemove;
    while doomed != {}
      invariant doomed <= toRemove
      invariant sessions == s.sessions - (toRemove - doomed)
      decreases doomed
    {
      var k :| k in doomed;
      sessions := sessions - {k};
      doomed := doomed - {k};
    }
    r := Service(s.policy, sessions);
  }

  // ---------------------------------------------------------------------------
  // Introspection
  // ---------------------------------------------------------------------------

  /** The strategy description; the percentage is kept as a number, unformatted. */
  datatype Description = ProbabilisticPercent(percent: real) | AlwaysReply

  datatype StrategyInfo = StrategyInfo(
    enabled: bool, replyProbability: real, strategyType: string, description: Description)

  function GetReplyStrategyInfo(s: Service): (i: StrategyInfo)
    ensures i.enabled == s.policy.enabled && i.replyProbability == s.policy.probability
    ensures i.strategyType == "probabilistic" <==> s.policy.enabled
    ensures i.strategyType == "always_reply" <==> !s.policy.enabled
    ensures i.description.ProbabilisticPercent? <==> s.policy.enabled
    ensures Valid(s) && s.policy.enabled ==> 0.0 <= i.description.percent <= 100.0
    ensures s.policy.enabled ==> i.description.percent == 100.0 * s.policy.probability
  {
    if s.policy.enabled then
      StrategyInfo(true, s.policy.probability, "probabilistic",
                   ProbabilisticPercent(s.policy.probability * 100.0))
    else
      StrategyInfo(false, s.policy.probability, "always_reply", AlwaysReply)
  }

  datatype SessionStats = SessionStats(
    sessionId: string, lastDecisionTime: real, timeSinceLastDecision: real)

  function GetSessionStatistics(s: Service, sessionId: string, now: real): (r: Option<SessionStats>)
    ensures r.None? <==> sessionId !in s.sessions
    ensures r.Some? ==>
              && r.value.sessionId == sessionId
              && r.value.lastDecisionTime == s.sessions[sessionId]
              && r.value.lastDecisionTime + r.value.timeSinceLastDecision == now
  {
    if sessionId !in s.sessions then None
    else
      var t := s.sessions[sessionId];
      Some(SessionStats(sessionId, t, now - t))
  }

  datatype ServiceStatus = ServiceStatus(
    serviceName: string, enabled: bool, replyProbability: real,
    activeSessions: nat, strategyDescription: Description)

  function GetServiceStatus(s: Service): (st: ServiceStatus)
    ensures st.serviceName == "ProbabilisticReplyService"
    ensures st.enabled == s.policy.enabled && st.replyProbability == s.policy.probability
    ensures st.activeSessions == |s.sessions|
    ensures st.strategyDescription == GetReplyStrategyInfo(s).description
  {
    ServiceStatus("ProbabilisticReplyService", s.policy.enabled, s.policy.probability,
                  |s.sessions|, GetReplyStrategyInfo(s).description)
  }

  // ---------------------------------------------------------------------------
  // Properties
  // ---------------------------------------------------------------------------

  /** Out-of-range probabilities are clamped when loaded: 1.5 becomes 1.0 and
      -0.2 becomes 0.0; a configuration without the section loads the defaults. */
  lemma LoadingExamples()
    ensures LoadProbability(Config(Some(ChatReplySection(None, None, Some(Number(1.5)))))) == Some(1.0)
    ensures LoadProbability(Config(Some(ChatReplySection(None, None, Some(Number(-0.2)))))) == Some(0.0)
    ensures Create(Config(None)) == Some(Service(Policy(false, 0.3), map[]))
    ensures Create(Config(Some(ChatReplySection(None, Some(true), Some(Number(1.5)))))) ==
              Some(Service(Policy(true, 1.0), map[]))
  {
  }

  /** With probability 1 every draw in [0, 1) replies. */
  lemma CertainPolicyAlwaysReplies(s: Service, sessionId: Option<string>, draw: real, now: real)
    requires s.policy.probability == 1.0
    requires 0.0 <= draw < 1.0
    ensures ShouldGenerateReply(s, sessionId, draw, now).reply
  {
  }

  /** With probability 0 an enabled policy replies only on the draw 0. */
  lemma NullPolicyRepliesOnlyOnZero(s: Service, sessionId: Option<string>, draw: real, now: real)
    requires s.policy.enabled && s.policy.probability == 0.0
    requires 0.0 <= draw < 1.0
    ensures ShouldGenerateReply(s, sessionId, draw, now).reply <==> draw == 0.0
  {
  }

  /** A session just decided on is reported with its decision time and zero age. */
  lemma DecisionIsVisibleInStatistics(s: Service, sid: string, draw: real, now: real)
    requires s.policy.enabled && sid != ""
    ensures GetSessionStatistics(ShouldGenerateReply(s, Some(sid), draw, now).service, sid, now)
            == Some(SessionStats(sid, now, 0.0))
  {
  }

  /** A record exactly `maxAge` seconds old survives the sweep. */
  lemma SweepKeepsBoundary(m: Sessions, sid: string, now: real, maxAge: int)
    requires sid in m && now - m[sid] == maxAge as real
    ensures sid in Sweep(m, now, maxAge)
  {
  }

  /** Recording `sid` at `t0` and sweeping one second past `maxAge` removes it;
      sweeping one second before keeps it with its time. */
  lemma TouchThenSweep(s: Service, sid: string, draw: real, t0: real, maxAge: int)
    requires s.policy.enabled && sid != ""
    ensures var m := ShouldGenerateReply(s, Some(sid), draw, t0).service.sessions;
            && sid !in Sweep(m, t0 + maxAge as real + 1.0, maxAge)
            && sid in Sweep(m, t0 + maxAge as real - 1.0, maxAge)
            && Sweep(m, t0 + maxAge as real - 1.0, maxAge)[sid] == t0
  {
  }

  /** Sweeping at a later time removes at least as much. */
  lemma SweepIsMonotone(m: Sessions, now1: real, now2: real, maxAge: int)
    requires now1 <= now2
    ensures Sweep(m, now2, maxAge).Keys <= Sweep(m, now1, maxAge).Keys
  {
  }

  /** A sweep after a sweep at an earlier (or the same) time is the later sweep
      alone; in particular sweeping twice at one time equals sweeping once. */
  lemma SweepAbsorbsEarlierSweep(m: Sessions, now1: real, now2: real, maxAge: int)
    requires now1 <= now2
    ensures Sweep(Sweep(m, now1, maxAge), now2, maxAge) == Sweep(m, now2, maxAge)
  {
  }

  /** The special case of `SweepAbsorbsEarlierSweep` with both sweeps at one time. */
  lemma SweepIdempotent(m: Sessions, now: real, maxAge: int)
    ensures Sweep(Sweep(m, now, maxAge), now, maxAge) == Sweep(m, now, maxAge)
  {
    SweepAbsorbsEarlierSweep(m, now, now, maxAge);
  }

  /** A subset of a finite set is no larger. */
  lemma {:induction false} SubsetNoLarger<T>(a: set<T>, b: set<T>)
    requires a <= b
    ensures |a| <= |b|
    decreases b
  {
    if a != {} {
      var x :| x in a;
      SubsetNoLarger(a - {x}, b - {x});
    }
  }

  /** The number of active sessions never grows across a sweep. */
  lemma SweepShrinksActiveSessions(s: Service, now: real, maxAge: int)
    ensures GetServiceStatus(Service(s.policy, Sweep(s.sessions, now, maxAge))).activeSessions
            <= GetServiceStatus(s).activeSessions
  {
    SubsetNoLarger(Sweep(s.sessions, now, maxAge).Keys, s.sessions.Keys);
  }

  /** No record lies in the future of `now`. */
  predicate NotAfter(m: Sessions, now: real) {
    forall k :: k in m ==> m[k] <= now
  }

  /** With a clock that does not run backwards, a decision keeps every record in
      the past and never moves a session's time backwards. */
  lemma DecisionKeepsClockOrder(s: Service, sid: Option<string>, draw: real, earlier: real, now: real)
    requires NotAfter(s.sessions, earlier) && earlier <= now
    ensures var m := ShouldGenerateReply(s, sid, draw, now).service.sessions;
            && NotAfter(m, now)
            && forall k :: k in s.sessions ==> k in m && s.sessions[k] <= m[k]
  {
  }

  /** Every operation keeps the probability in [0, 1]. */
  lemma OperationsKeepValid(s: Service, cfg: Config, sid: Option<string>, draw: real, now: real, maxAge: int)
    requires Valid(s)
    ensures Valid(ShouldGenerateReply(s, sid, draw, now).service)
    ensures Valid(UpdateConfig(s, cfg).service)
    ensures Valid(Service(s.policy, Sweep(s.sessions, now, maxAge)))
  {
  }
}
