/** The pool of backend WebSocket sessions: which errors are retried, and how a request is sent with
    retries over cached and newly opened sessions. */
module WebSocketPool {
  import opened Json
  import opened Lease

  // ----- errors -----

  datatype BackendError =
    | WebSocket(stage: string, message: string)
    | UnexpectedStatus(status: nat)
    | UnexpectedStatusWithBody(status: nat, body: string)
    | RequestFailed(message: string)
    | AuthFailed(message: string)
    | NetworkPolicy(message: string)

  function LowerChar(c: char): char {
    if 'A' <= c <= 'Z' then (c as int + 32) as char else c
  }

  function Lower(s: string): string {
    seq(|s|, i requires 0 <= i < |s| => LowerChar(s[i]))
  }

  predicate Contains(s: string, needle: string) {
    needle <= s || (s != "" && Contains(s[1..], needle))
  }

  predicate ContainsAny(s: string, needles: seq<string>) {
    exists n | n in needles :: Contains(s, n)
  }

  const RETRYABLE_STAGES := ["connect", "queue response.create", "send response.create", "reply pong", "read event"]

  const RETRYABLE_MESSAGES := ["closed", "reset", "broken pipe", "without closing handshake", "connection aborted",
                               "connection refused", "connection reset", "stream ended before first event"]

  const PREVIOUS_RESPONSE_ID := "previous_response_id"

  const SEMANTIC_MARKERS := [PREVIOUS_RESPONSE_ID, "tool schema", "schema validation", "model", "invalid_request",
    "invalid request"]

  predicate SemanticErrorBody(body: string) {
    ContainsAny(Lower(body), SEMANTIC_MARKERS)
  }

  predicate DefaultRetryable(e: BackendError) {
    match e
    case WebSocket(stage, message) => stage in RETRYABLE_STAGES && ContainsAny(Lower(message), RETRYABLE_MESSAGES)
    case UnexpectedStatus(status) => status == 500 || status == 502 || status == 503
    case UnexpectedStatusWithBody(status, _) => status == 500 || status == 502 || status == 503
    case _ => false
  }

  predicate NonRetryableStatus(status: nat) {
    status == 400 || status == 401 || status == 403 || status == 422 || status == 429
  }

  predicate DefaultNonRetryable(e: BackendError) {
    match e
    case WebSocket(stage, message) => stage == "decode websocket event" || SemanticErrorBody(message)
    case UnexpectedStatus(status) => NonRetryableStatus(status)
    case UnexpectedStatusWithBody(status, body) => NonRetryableStatus(status) || SemanticErrorBody(body)
    case _ => true
  }

  datatype Variant = AnyVariant | WebSocketVariant | StatusVariant | StatusWithBodyVariant

  datatype Matcher = Matcher(variant: Variant, stage: Option<string>, messageContains: Option<string>,
                             status: Option<nat>)

  function ErrorText(e: BackendError): string {
    match e
    case WebSocket(_, message) => Lower(message)
    case UnexpectedStatus(status) => Decimal(status)
    case UnexpectedStatusWithBody(_, body) => Lower(body)
    case RequestFailed(message) => Lower(message)
    case AuthFailed(message) => Lower(message)
    case NetworkPolicy(message) => Lower(message)
  }

  predicate VariantMatches(v: Variant, e: BackendError) {
    match v
    case AnyVariant => true
    case WebSocketVariant => e.WebSocket?
    case StatusVariant => e.UnexpectedStatus?
    case StatusWithBodyVariant => e.UnexpectedStatusWithBody?
  }

  predicate Matches(m: Matcher, e: BackendError) {
    && VariantMatches(m.variant, e)
    && (m.stage.Some? ==> e.WebSocket? && e.stage == m.stage.value)
    && (m.status.Some? ==> (e.UnexpectedStatus? || e.UnexpectedStatusWithBody?) && e.status == m.status.value)
    && (m.messageContains.Some? ==> Contains(ErrorText(e), Lower(m.messageContains.value)))
  }

  datatype Policy = Policy(maxRecycles: nat, retryable: seq<Matcher>, nonRetryable: seq<Matcher>)

  predicate ShouldRecycle(e: BackendError, policy: Policy) {
    && !(exists m | m in policy.nonRetryable :: Matches(m, e))
    && !DefaultNonRetryable(e)
    && ((exists m | m in policy.retryable :: Matches(m, e)) || DefaultRetryable(e))
  }

  const NEEDS_LIVE_SESSION := WebSocket("queue response.create", PREVIOUS_RESPONSE_ID
    + " requires a live websocket session")
  const SESSION_CLOSED := WebSocket("queue response.create", "websocket session is closed")
  const ENDED_EARLY := WebSocket("read event", "websocket stream ended before first event")

  lemma {:induction false} PrefixContained(marker: string, rest: string)
    requires Lower(marker) == marker
    ensures Contains(Lower(marker + rest), marker)
  {
    assert Lower(marker + rest) == Lower(marker) + Lower(rest);
  }

  lemma {:induction false} MarkerIsLower()
    ensures Lower(PREVIOUS_RESPONSE_ID) == PREVIOUS_RESPONSE_ID
  {
    hide Contains, Matches;
  }

  /** No retry policy makes the pool retry a continuation that has lost its session. */
  lemma {:induction false} LostSessionNotRetried(policy: Policy)
    ensures !ShouldRecycle(NEEDS_LIVE_SESSION, policy)
  {
    hide Contains, Matches, DefaultRetryable, Lower;
    MarkerIsLower();
    PrefixContained(PREVIOUS_RESPONSE_ID, " requires a live websocket session");
    assert PREVIOUS_RESPONSE_ID == SEMANTIC_MARKERS[0];
    assert SemanticErrorBody(NEEDS_LIVE_SESSION.message);
  }

  // ----- sending -----

  type Sessions = map<string, Chain>

  /** What the outside decides during one attempt: whether the cached session is alive when looked at
      and when queueing, what opening a session gives, and the first item of the event stream. */
  datatype Attempt = Attempt(alive: bool, queued: bool, connection: Connection, queuedNew: bool, first: First)

  datatype Connection = Connected(chain: Chain) | Refused(error: BackendError)
  datatype First = StreamEnded | FirstEvent(event: Json) | FirstError(error: BackendError)

  /** A response.create queued on the session that was cached, or on one just opened. */
  datatype Action = QueuedOnLive(chain: Chain) | Opening | QueuedOnNew(chain: Chain)

  datatype Reply =
    | Streaming(chain: Chain, first: Json)
    | OnlyError(chain: Chain, error: BackendError)
    | Failed(error: BackendError)

  datatype Queued = On(chain: Chain) | Not(error: BackendError)

  datatype Sent = Sent(result: Queued, sessions: Sessions, actions: seq<Action>)

  /** send_attempt */
  function SendOnce(sessions: Sessions, key: string, continuation: bool, a: Attempt): Sent {
    if key in sessions && a.alive then
      if a.queued then Sent(On(sessions[key]), sessions, [QueuedOnLive(sessions[key])])
      else Sent(Not(SESSION_CLOSED), sessions - {key}, [])
    else
      var rest := sessions - {key};
      if continuation then Sent(Not(NEEDS_LIVE_SESSION), rest, [])
      else match a.connection
        case Refused(error) => Sent(Not(error), rest, [Opening])
        case Connected(chain) =>
          if a.queuedNew then Sent(On(chain), rest[key := chain], [Opening, QueuedOnNew(chain)])
          else Sent(Not(SESSION_CLOSED), rest, [Opening])
  }

  /** The first item read, as an error if it is one. */
  function FirstFailure(first: First): Option<BackendError> {
    match first
    case StreamEnded => Some(ENDED_EARLY)
    case FirstError(error) => Some(error)
    case FirstEvent(_) => None
  }

  datatype Outcome = Outcome(reply: Reply, sessions: Sessions, actions: seq<Action>, attempts: nat)

  /** send_event_stream, from its attempt number `n` on with `recycles` already made. */
  function Send(sessions: Sessions, key: string, continuation: bool, policy: Policy, env: nat -> Attempt,
                recycles: nat, n: nat,
                done: seq<Action>): Outcome
    requires recycles <= policy.maxRecycles
    decreases policy.maxRecycles - recycles
  {
    var sent := SendOnce(sessions, key, continuation, env(n));
    var actions := done + sent.actions;
    match sent.result
    case Not(error) =>
      if ShouldRecycle(error, policy) && recycles < policy.maxRecycles then
        Send(sent.sessions - {key}, key, continuation, policy, env, recycles + 1, n + 1, actions)
      else Outcome(Failed(error), sent.sessions, actions, n + 1)
    case On(chain) =>
      match env(n).first
      case FirstEvent(event) => Outcome(Streaming(chain, event), sent.sessions, actions, n + 1)
      case first =>
        var error := FirstFailure(first).value;
        if ShouldRecycle(error, policy) && recycles < policy.maxRecycles then
          Send(sent.sessions - {key}, key, continuation, policy, env, recycles + 1, n + 1, actions)
        else
          Outcome(OnlyError(chain, error),
                  if first.StreamEnded? || DefaultRetryable(error) then sent.sessions - {key} else sent.sessions,
                  actions, n + 1)
  }

  // ----- what sending never does -----

  function Queuings(actions: seq<Action>): nat {
    if actions == [] then 0
    else Queuings(actions[..|actions| - 1]) + if actions[|actions| - 1].Opening? then 0 else 1
  }

  predicate OnlyLive(actions: seq<Action>) {
    forall a | a in actions :: a.QueuedOnLive?
  }

  /** Without a cached session a continuation fails at once and does nothing. */
  lemma {:induction false} LostContinuation(sessions: Sessions, key: string, policy: Policy, env: nat -> Attempt,
                                            recycles: nat, n: nat, done: seq<Action>)
    requires recycles <= policy.maxRecycles && key !in sessions
    ensures Send(sessions, key, true, policy, env, recycles, n, done)
      == Outcome(Failed(NEEDS_LIVE_SESSION), sessions, done, n + 1)
  {
    LostSessionNotRetried(policy);
    hide ShouldRecycle;
    assert sessions - {key} == sessions && done + [] == done;
  }

  /** For every retry policy and every schedule of failures: a continuation is never sent on a newly
      opened socket, is queued at most once, and makes at most two attempts. */
  lemma {:induction false} ContinuationSafe(sessions: Sessions, key: string, policy: Policy, env: nat -> Attempt)
    ensures var o := Send(sessions, key, true, policy, env, 0, 0, []);
            OnlyLive(o.actions) && Queuings(o.actions) <= 1 && o.attempts <= 2
  {
    hide ShouldRecycle, DefaultRetryable;
    var sent := SendOnce(sessions, key, true, env(0));
    var rest := sent.sessions - {key};
    assert [] + sent.actions == sent.actions;
    if policy.maxRecycles > 0 { LostContinuation(rest, key, policy, env, 1, 1, sent.actions); }
    assert sent.actions == [] || sent.actions[..0] == [];
  }

  /** Any request makes at most one attempt more than the policy allows recycles, and leaves the
      sessions of other keys alone. */
  lemma {:induction false} AttemptsBounded(sessions: Sessions, key: string, continuation: bool, policy: Policy,
                                           env: nat -> Attempt,
                                           recycles: nat, n: nat, done: seq<Action>)
    requires recycles <= policy.maxRecycles
    ensures var o := Send(sessions, key, continuation, policy, env, recycles, n, done);
            && n < o.attempts <= n + 1 + policy.maxRecycles - recycles
            && o.sessions - {key} == sessions - {key}
    decreases policy.maxRecycles - recycles
  {
    hide ShouldRecycle, DefaultRetryable;
    var sent := SendOnce(sessions, key, continuation, env(n));
    assert sent.sessions - {key} == sessions - {key};
    assert (sent.sessions - {key}) - {key} == sessions - {key};
    if recycles < policy.maxRecycles {
      AttemptsBounded(sent.sessions - {key}, key, continuation, policy, env, recycles + 1, n + 1, done + sent.actions);
    }
  }

  /** A request is queued at most once per attempt. */
  lemma {:induction false} QueuingsBounded(sessions: Sessions, key: string, continuation: bool, policy: Policy,
                                           env: nat -> Attempt,
                                           recycles: nat, n: nat, done: seq<Action>)
    requires recycles <= policy.maxRecycles
    ensures var o := Send(sessions, key, continuation, policy, env, recycles, n, done);
            Queuings(o.actions) <= Queuings(done) + o.attempts - n
    decreases policy.maxRecycles - recycles
  {
    hide ShouldRecycle, DefaultRetryable;
    var sent := SendOnce(sessions, key, continuation, env(n));
    QueuingsOnce(sessions, key, continuation, env(n), done);
    AttemptsBounded(sessions, key, continuation, policy, env, recycles, n, done);
    if recycles < policy.maxRecycles {
      QueuingsBounded(sent.sessions - {key}, key, continuation, policy, env, recycles + 1, n + 1, done + sent.actions);
    }
  }

  lemma {:induction false} QueuingsOnce(sessions: Sessions, key: string, continuation: bool, a: Attempt,
                                        done: seq<Action>)
    ensures Queuings(done + SendOnce(sessions, key, continuation, a).actions) <= Queuings(done) + 1
  {
    var more := SendOnce(sessions, key, continuation, a).actions;
    if |more| == 2 {
      assert (done + more)[..|done + more| - 1] == done + [more[0]];
      assert (done + [more[0]])[..|done|] == done;
    } else if |more| == 1 {
      assert (done + more)[..|done|] == done;
    } else {
      assert done + more == done;
    }
  }

  // ----- the pool -----

  class Pool {
    var sessions: Sessions
    /** What has been done on sockets since the last request started. */
    ghost var actions: seq<Action>

    constructor ()
      ensures sessions == map[] && actions == []
    {
      sessions, actions := map[], [];
    }

    method Evict(key: string)
      modifies this`sessions
      ensures sessions == old(sessions) - {key}
    {
      sessions := sessions - {key};
    }

    method GetAliveSession(key: string, alive: bool) returns (chain: Option<Chain>)
      modifies this`sessions
      ensures chain == if key in old(sessions) && alive then Some(old(sessions)[key]) else None
      ensures sessions == if chain.Some? then old(sessions) else old(sessions) - {key}
    {
      if key !in sessions {
        assert sessions - {key} == sessions;
        return None;
      }
      if alive {
        return Some(sessions[key]);
      }
      Evict(key);
      return None;
    }

    method SendAttempt(key: string, continuation: bool, a: Attempt) returns (result: Queued)
      modifies this
      ensures var sent := SendOnce(old(sessions), key, continuation, a);
              && result == sent.result && sessions == sent.sessions
              && actions == old(actions) + sent.actions
    {
      var cached := GetAliveSession(key, a.alive);
      if cached.Some? {
        if a.queued {
          actions := actions + [QueuedOnLive(cached.value)];
          return On(cached.value);
        }
        Evict(key);
        return Not(SESSION_CLOSED);
      }
      if continuation {
        return Not(NEEDS_LIVE_SESSION);
      }
      actions := actions + [Opening];
      if a.connection.Refused? {
        return Not(a.connection.error);
      }
      if !a.queuedNew {
        return Not(SESSION_CLOSED);
      }
      actions := actions + [QueuedOnNew(a.connection.chain)];
      sessions := sessions[key := a.connection.chain];
      return On(a.connection.chain);
    }

    /** Retries until an attempt gives a first event, or its error may not be retried. */
    method SendEventStream(key: string, continuation: bool, policy: Policy, env: nat -> Attempt)
      returns (reply: Reply, attempts: nat)
      modifies this
      ensures Outcome(reply, sessions, actions, attempts)
        == Send(old(sessions), key, continuation, policy, env, 0, 0, [])
    {
      hide ShouldRecycle, DefaultRetryable, SendOnce;
      ghost var start := sessions;
      var recycles := 0;
      attempts, actions := 0, [];
      while true
        invariant recycles <= policy.maxRecycles && attempts == recycles
        invariant Send(start, key, continuation, policy, env, 0, 0, [])
          == Send(sessions, key, continuation, policy, env, recycles, attempts, actions)
        decreases policy.maxRecycles - recycles
      {
        var a := env(attempts);
        var queued := SendAttempt(key, continuation, a);
        attempts := attempts + 1;
        if queued.Not? {
          if ShouldRecycle(queued.error, policy) && recycles < policy.maxRecycles {
            Evict(key);
            recycles := recycles + 1;
            continue;
          }
          return Failed(queued.error), attempts;
        }
        match a.first {
          case StreamEnded =>
            if ShouldRecycle(ENDED_EARLY, policy) && recycles < policy.maxRecycles {
              Evict(key);
              recycles := recycles + 1;
            } else {
              Evict(key);
              return OnlyError(queued.chain, ENDED_EARLY), attempts;
            }
          case FirstEvent(event) =>
            return Streaming(queued.chain, event), attempts;
          case FirstError(failure) =>
            if ShouldRecycle(failure, policy) && recycles < policy.maxRecycles {
              Evict(key);
              recycles := recycles + 1;
            } else {
              if DefaultRetryable(failure) {
                Evict(key);
              }
              return OnlyError(queued.chain, failure), attempts;
            }
        }
      }
    }
  }
}
