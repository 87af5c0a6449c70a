/** What is retried, and how often: the exact number of attempts and the reply, read off what the outside
    does in each attempt. */
module WebSocketRetries {
  import opened Json
  import opened Lease
  import opened WebSocketPool

  // ----- which errors -----

  predicate SameLetter(c: char, d: char) {
    c == d || ('A' <= c <= 'Z' && d as int == c as int + 32)
  }

  /** The words stand somewhere in the text, in letters of either case. */
  predicate Says(text: string, words: string) {
    exists i :: 0 <= i <= |text| - |words| && SaysAt(text, words, i)
  }

  predicate SaysAt(text: string, words: string, i: int)
    requires 0 <= i <= |text| - |words|
  {
    forall k | 0 <= k < |words| :: SameLetter(text[i + k], words[k])
  }

  predicate ConnectionLost(message: string) {
    || Says(message, "closed") || Says(message, "reset") || Says(message, "broken pipe")
    || Says(message, "without closing handshake") || Says(message, "connection aborted")
    || Says(message, "connection refused") || Says(message, "connection reset")
    || Says(message, "stream ended before first event")
  }

  /** What is worth another attempt: a connection lost while talking, or a server in trouble. */
  predicate Temporary(e: BackendError) {
    match e
    case WebSocket(stage, message) =>
      && (stage == "connect" || stage == "queue response.create" || stage == "send response.create"
          || stage == "reply pong" || stage == "read event")
      && ConnectionLost(message)
    case UnexpectedStatus(status) => status in {500, 502, 503}
    case UnexpectedStatusWithBody(status, _) => status in {500, 502, 503}
    case RequestFailed(_) => false
    case AuthFailed(_) => false
    case NetworkPolicy(_) => false
  }

  predicate RequestAtFault(text: string) {
    || Says(text, "previous_response_id") || Says(text, "tool schema") || Says(text, "schema validation")
    || Says(text, "model") || Says(text, "invalid_request") || Says(text, "invalid request")
  }

  /** What another attempt would not change. */
  predicate Permanent(e: BackendError) {
    match e
    case WebSocket(stage, message) => stage == "decode websocket event" || RequestAtFault(message)
    case UnexpectedStatus(status) => status in {400, 401, 403, 422, 429}
    case UnexpectedStatusWithBody(status, body) => status in {400, 401, 403, 422, 429} || RequestAtFault(body)
    case RequestFailed(_) => true
    case AuthFailed(_) => true
    case NetworkPolicy(_) => true
  }

  predicate Listed(matchers: seq<Matcher>, e: BackendError) {
    exists i :: 0 <= i < |matchers| && Matches(matchers[i], e)
  }

  lemma {:induction false} LowerSame(c: char, d: char)
    requires !('A' <= d <= 'Z')
    ensures LowerChar(c) == d <==> SameLetter(c, d)
  {
  }

  predicate NoCapitals(words: string) {
    forall k | 0 <= k < |words| :: !('A' <= words[k] <= 'Z')
  }

  lemma {:induction false} SaysContains(text: string, words: string)
    requires NoCapitals(words)
    ensures Contains(Lower(text), words) <==> Says(text, words)
    decreases |text|
  {
    hide SameLetter, LowerChar, Contains, Says;
    StartsWith(text, words);
    SaysFirst(text, words);
    ContainsFirst(Lower(text), words);
    if text != "" {
      assert Lower(text)[1..] == Lower(text[1..]);
      SaysContains(text[1..], words);
    }
  }

  lemma {:induction false} StartsWith(text: string, words: string)
    requires NoCapitals(words)
    ensures words <= Lower(text) <==> |words| <= |text| && SaysAt(text, words, 0)
  {
    hide SameLetter, LowerChar;
    if |words| <= |text| {
      forall k | 0 <= k < |words| ensures Lower(text)[k] == words[k] <==> SameLetter(text[k], words[k]) {
        LowerSame(text[k], words[k]);
      }
      if SaysAt(text, words, 0) { assert Lower(text)[..|words|] == words; }
      if words <= Lower(text) {
        forall k | 0 <= k < |words| ensures SameLetter(text[0 + k], words[k]) {
          assert Lower(text)[k] == words[k];
        }
      }
    }
  }

  lemma {:induction false} ContainsFirst(s: string, words: string)
    ensures Contains(s, words) <==> words <= s || (s != "" && Contains(s[1..], words))
  {
  }

  lemma {:induction false} SaysFirst(text: string, words: string)
    ensures Says(text, words)
      <==> (|words| <= |text| && SaysAt(text, words, 0)) || (text != "" && Says(text[1..], words))
  {
    hide SameLetter;
    if i :| 0 <= i <= |text| - |words| && SaysAt(text, words, i) {
      if i > 0 {
        forall k | 0 <= k < |words| ensures SameLetter(text[1..][i - 1 + k], words[k]) {
          assert SameLetter(text[i + k], words[k]);
        }
        assert SaysAt(text[1..], words, i - 1);
      }
    }
    if text != "" && Says(text[1..], words) {
      var i :| 0 <= i <= |text[1..]| - |words| && SaysAt(text[1..], words, i);
      forall k | 0 <= k < |words| ensures SameLetter(text[i + 1 + k], words[k]) {
        assert SameLetter(text[1..][i + k], words[k]);
      }
      assert SaysAt(text, words, i + 1);
    }
  }

  lemma {:induction false} LostExactly(message: string)
    ensures ContainsAny(Lower(message), RETRYABLE_MESSAGES) <==> ConnectionLost(message)
  {
    hide Contains, Says, Lower, ContainsAny, NoCapitals;
    MessagesExactly();
    MessagesLower();
    OneOfEight(Lower(message), RETRYABLE_MESSAGES);
    forall i | 0 <= i < 8
      ensures Contains(Lower(message), RETRYABLE_MESSAGES[i]) <==> Says(message, RETRYABLE_MESSAGES[i])
    {
      SaysContains(message, RETRYABLE_MESSAGES[i]);
    }
  }

  lemma {:induction false} MessagesLower()
    ensures forall i | 0 <= i < |RETRYABLE_MESSAGES| :: NoCapitals(RETRYABLE_MESSAGES[i])
  {
  }

  lemma {:induction false} OneOfEight(s: string, needles: seq<string>)
    requires |needles| == 8
    ensures ContainsAny(s, needles)
      <==> || Contains(s, needles[0]) || Contains(s, needles[1]) || Contains(s, needles[2]) || Contains(s, needles[3])
           || Contains(s, needles[4]) || Contains(s, needles[5]) || Contains(s, needles[6]) || Contains(s, needles[7])
  {
    hide Contains;
    AnyOf(s, needles);
  }

  lemma {:induction false} MessagesExactly()
    ensures |RETRYABLE_MESSAGES| == 8
    ensures RETRYABLE_MESSAGES[0] == "closed" && RETRYABLE_MESSAGES[1] == "reset"
    ensures RETRYABLE_MESSAGES[2] == "broken pipe" && RETRYABLE_MESSAGES[3] == "without closing handshake"
    ensures RETRYABLE_MESSAGES[4] == "connection aborted" && RETRYABLE_MESSAGES[5] == "connection refused"
    ensures RETRYABLE_MESSAGES[6] == "connection reset"
    ensures RETRYABLE_MESSAGES[7] == "stream ended before first event"
  {
  }

  lemma {:induction false} AnyOf(s: string, needles: seq<string>)
    ensures ContainsAny(s, needles) <==> exists i :: 0 <= i < |needles| && Contains(s, needles[i])
  {
    hide Contains;
    if n :| n in needles && Contains(s, n) {
      var i :| 0 <= i < |needles| && needles[i] == n;
    }
  }

  lemma {:induction false} FaultExactly(text: string)
    ensures SemanticErrorBody(text) <==> RequestAtFault(text)
  {
    hide Contains, Says, Lower, ContainsAny, NoCapitals;
    MarkersExactly();
    MarkersLower();
    OneOfSix(Lower(text), SEMANTIC_MARKERS);
    forall i | 0 <= i < 6 ensures Contains(Lower(text), SEMANTIC_MARKERS[i]) <==> Says(text, SEMANTIC_MARKERS[i]) {
      SaysContains(text, SEMANTIC_MARKERS[i]);
    }
  }

  lemma {:induction false} MarkersExactly()
    ensures |SEMANTIC_MARKERS| == 6
    ensures SEMANTIC_MARKERS[0] == "previous_response_id" && SEMANTIC_MARKERS[1] == "tool schema"
    ensures SEMANTIC_MARKERS[2] == "schema validation" && SEMANTIC_MARKERS[3] == "model"
    ensures SEMANTIC_MARKERS[4] == "invalid_request" && SEMANTIC_MARKERS[5] == "invalid request"
  {
  }

  lemma {:induction false} MarkersLower()
    ensures forall i | 0 <= i < |SEMANTIC_MARKERS| :: NoCapitals(SEMANTIC_MARKERS[i])
  {
  }

  lemma {:induction false} OneOfSix(s: string, needles: seq<string>)
    requires |needles| == 6
    ensures ContainsAny(s, needles)
      <==> || Contains(s, needles[0]) || Contains(s, needles[1]) || Contains(s, needles[2])
           || Contains(s, needles[3]) || Contains(s, needles[4]) || Contains(s, needles[5])
  {
    hide Contains;
    AnyOf(s, needles);
  }

  lemma {:induction false} TemporaryExactly(e: BackendError)
    ensures DefaultRetryable(e) <==> Temporary(e)
  {
    hide ConnectionLost, ContainsAny, Lower;
    if e.WebSocket? {
      LostExactly(e.message);
      StagesExactly(e.stage);
    }
  }

  lemma {:induction false} StagesExactly(stage: string)
    ensures stage in RETRYABLE_STAGES
      <==> stage == "connect" || stage == "queue response.create" || stage == "send response.create"
           || stage == "reply pong" || stage == "read event"
  {
    assert RETRYABLE_STAGES[0] == "connect" && RETRYABLE_STAGES[1] == "queue response.create";
    assert RETRYABLE_STAGES[2] == "send response.create" && RETRYABLE_STAGES[3] == "reply pong";
    assert RETRYABLE_STAGES[4] == "read event";
  }

  lemma {:induction false} PermanentExactly(e: BackendError)
    ensures DefaultNonRetryable(e) <==> Permanent(e)
  {
    hide SemanticErrorBody, RequestAtFault;
    match e {
      case WebSocket(_, message) => FaultExactly(message);
      case UnexpectedStatusWithBody(_, body) => FaultExactly(body);
      case _ =>
    }
  }

  /** Whether another attempt is worth it. A non-retryable matcher decides first, then the errors that are
      permanent, then a retryable matcher, then the temporary ones. */
  predicate WorthRetrying(e: BackendError, policy: Policy) {
    if Listed(policy.nonRetryable, e) then false
    else if Permanent(e) then false
    else if Listed(policy.retryable, e) then true
    else Temporary(e)
  }

  lemma {:induction false} RecycledExactly(e: BackendError, policy: Policy)
    ensures ShouldRecycle(e, policy) <==> WorthRetrying(e, policy)
  {
    hide Matches, DefaultRetryable, DefaultNonRetryable, Temporary, Permanent;
    TemporaryExactly(e);
    PermanentExactly(e);
    ListedMeans(policy.nonRetryable, e);
    ListedMeans(policy.retryable, e);
  }

  lemma {:induction false} ListedMeans(matchers: seq<Matcher>, e: BackendError)
    ensures Listed(matchers, e) <==> exists m | m in matchers :: Matches(m, e)
  {
    hide Matches;
    if m :| m in matchers && Matches(m, e) {
      var i :| 0 <= i < |matchers| && matchers[i] == m;
    }
  }

  /** What a matcher asks for: every part it names. */
  lemma {:induction false} MatchesExactly(m: Matcher, e: BackendError)
    ensures Matches(m, e) <==>
      && (m.variant == WebSocketVariant ==> e.WebSocket?)
      && (m.variant == StatusVariant ==> e.UnexpectedStatus?)
      && (m.variant == StatusWithBodyVariant ==> e.UnexpectedStatusWithBody?)
      && (m.stage.Some? ==> e.WebSocket? && e.stage == m.stage.value)
      && (m.status == None || (e.UnexpectedStatus? && m.status == Some(e.status))
          || (e.UnexpectedStatusWithBody? && m.status == Some(e.status)))
      && (m.messageContains.Some? ==> Contains(ErrorText(e), Lower(m.messageContains.value)))
  {
    hide Contains, ErrorText, Lower;
  }

  // ----- one attempt -----

  /** The error an attempt ends with, if it does not give a first event; `cached` is whether a session is cached
      for the key. */
  function ErrorOf(cached: bool, continuation: bool, a: Attempt): Option<BackendError> {
    if cached && a.alive && !a.queued then Some(SESSION_CLOSED)
    else if !(cached && a.alive) && continuation then Some(NEEDS_LIVE_SESSION)
    else if !(cached && a.alive) && a.connection.Refused? then Some(a.connection.error)
    else if !(cached && a.alive) && !a.queuedNew then Some(SESSION_CLOSED)
    else if a.first.FirstError? then Some(a.first.error)
    else if a.first.StreamEnded? then Some(ENDED_EARLY)
    else None
  }

  /** Whether it got as far as waiting for the first event. */
  predicate Queues(cached: bool, continuation: bool, a: Attempt) {
    if cached && a.alive then a.queued else !continuation && a.connection.Connected? && a.queuedNew
  }

  // ----- all attempts -----

  /** Only the first attempt may find a cached session. */
  predicate CachedAt(sessions: Sessions, key: string, n: nat) {
    n == 0 && key in sessions
  }

  function ErrorAt(sessions: Sessions, key: string, continuation: bool, env: nat -> Attempt, n: nat)
    : Option<BackendError>
  {
    ErrorOf(CachedAt(sessions, key, n), continuation, env(n))
  }

  predicate Retried(sessions: Sessions, key: string, continuation: bool, policy: Policy, env: nat -> Attempt, n: nat) {
    var error := ErrorAt(sessions, key, continuation, env, n);
    error.Some? && WorthRetrying(error.value, policy)
  }

  /** Attempt `last` is the one that decides: those before it failed in a way worth retrying, and it did not, or
      used up the budget. */
  predicate Decides(sessions: Sessions, key: string, continuation: bool, policy: Policy, env: nat -> Attempt,
                    last: nat) {
    && last <= policy.maxRecycles
    && (forall n: nat | n < last :: Retried(sessions, key, continuation, policy, env, n))
    && (last == policy.maxRecycles || !Retried(sessions, key, continuation, policy, env, last))
  }

  /** The chain the deciding attempt is queued on. */
  function ChainAt(sessions: Sessions, key: string, continuation: bool, env: nat -> Attempt, n: nat): Chain
    requires Queues(CachedAt(sessions, key, n), continuation, env(n))
  {
    if CachedAt(sessions, key, n) && env(n).alive then sessions[key] else env(n).connection.chain
  }

  /** The reply is that of the deciding attempt. */
  function ReplyAt(sessions: Sessions, key: string, continuation: bool, env: nat -> Attempt, n: nat): Reply {
    var error := ErrorAt(sessions, key, continuation, env, n);
    if !Queues(CachedAt(sessions, key, n), continuation, env(n)) then
      Failed(if error.Some? then error.value else SESSION_CLOSED)
    else
      var chain := ChainAt(sessions, key, continuation, env, n);
      if error.Some? then OnlyError(chain, error.value)
      else if env(n).first.FirstEvent? then Streaming(chain, env(n).first.event) else OnlyError(chain, ENDED_EARLY)
  }

  /** Afterwards a session is cached for the key exactly when the request was queued and its connection was not
      found lost. */
  predicate Kept(sessions: Sessions, key: string, continuation: bool, env: nat -> Attempt, n: nat) {
    var error := ErrorAt(sessions, key, continuation, env, n);
    && Queues(CachedAt(sessions, key, n), continuation, env(n))
    && (error.Some? ==> env(n).first.FirstError? && !Temporary(error.value))
  }

  // ----- the retry loop -----

  lemma {:induction false} OnceMeans(sessions: Sessions, key: string, continuation: bool, a: Attempt)
    ensures var sent := SendOnce(sessions, key, continuation, a);
            var cached := key in sessions;
            && (sent.result.On? <==> Queues(cached, continuation, a))
            && (sent.result.Not? ==>
                 ErrorOf(cached, continuation, a) == Some(sent.result.error) && sent.sessions == sessions - {key})
            && (sent.result.On? ==>
                 && ErrorOf(cached, continuation, a) == FirstFailure(a.first)
                 && sent.result.chain == (if cached && a.alive then sessions[key] else a.connection.chain)
                 && sent.sessions == sessions[key := sent.result.chain])
  {
    assert key in sessions ==> sessions[key := sessions[key]] == sessions;
  }

  /** From attempt `n` on, all before having failed in a way worth retrying. */
  lemma {:induction false} SendFrom(sessions: Sessions, key: string, continuation: bool, policy: Policy,
                                    env: nat -> Attempt, n: nat, last: nat, done: seq<Action>)
    requires n <= last && Decides(sessions, key, continuation, policy, env, last)
    ensures var now := if n == 0 then sessions else sessions - {key};
            var o := Send(now, key, continuation, policy, env, n, n, done);
            && o.attempts == last + 1
            && o.reply == ReplyAt(sessions, key, continuation, env, last)
            && o.sessions == if Kept(sessions, key, continuation, env, last)
                 then sessions[key := ChainAt(sessions, key, continuation, env, last)] else sessions - {key}
    decreases last - n
  {
    hide ShouldRecycle, WorthRetrying, SendOnce, DefaultRetryable, Temporary, ErrorOf, Queues;
    var now := if n == 0 then sessions else sessions - {key};
    var sent := SendOnce(now, key, continuation, env(n));
    OnceMeans(now, key, continuation, env(n));
    assert key in now <==> CachedAt(sessions, key, n);
    var error := ErrorAt(sessions, key, continuation, env, n);
    if error.Some? {
      RecycledExactly(error.value, policy);
      TemporaryExactly(error.value);
    }
    assert sessions - {key} - {key} == sessions - {key} == sessions[key := ""] - {key};
    assert sent.sessions - {key} == sessions - {key};
    if n < last {
      assert Retried(sessions, key, continuation, policy, env, n);
      SendFrom(sessions, key, continuation, policy, env, n + 1, last, done + sent.actions);
    } else {
      assert sent.result.On? ==> sent.sessions == sessions[key := sent.result.chain];
    }
  }

  /** For every policy and whatever the outside does: the attempts are one more than those that fail in a way worth
      retrying before one does not, within the budget; the reply is that of the last; and a session stays cached
      exactly if that one was not found lost. */
  lemma {:induction false} SendsExactly(sessions: Sessions, key: string, continuation: bool, policy: Policy,
                                        env: nat -> Attempt, last: nat)
    requires Decides(sessions, key, continuation, policy, env, last)
    ensures var o := Send(sessions, key, continuation, policy, env, 0, 0, []);
            && o.attempts == last + 1
            && o.reply == ReplyAt(sessions, key, continuation, env, last)
            && o.sessions == if Kept(sessions, key, continuation, env, last)
                 then sessions[key := ChainAt(sessions, key, continuation, env, last)] else sessions - {key}
  {
    SendFrom(sessions, key, continuation, policy, env, 0, last, []);
  }

  /** There is always such an attempt. */
  lemma {:induction false} SomeDecides(sessions: Sessions, key: string, continuation: bool, policy: Policy,
                                       env: nat -> Attempt, n: nat)
    returns (last: nat)
    requires n <= policy.maxRecycles
    requires forall k: nat | k < n :: Retried(sessions, key, continuation, policy, env, k)
    ensures Decides(sessions, key, continuation, policy, env, last)
    decreases policy.maxRecycles - n
  {
    hide Retried;
    if n == policy.maxRecycles || !Retried(sessions, key, continuation, policy, env, n) {
      last := n;
    } else {
      last := SomeDecides(sessions, key, continuation, policy, env, n + 1);
    }
  }

  /** So the number of attempts says which decides. */
  lemma {:induction false} AttemptsExactly(sessions: Sessions, key: string, continuation: bool, policy: Policy,
                                           env: nat -> Attempt, last: nat)
    ensures Send(sessions, key, continuation, policy, env, 0, 0, []).attempts == last + 1
      <==> Decides(sessions, key, continuation, policy, env, last)
  {
    hide Send, Decides, Retried;
    var first := SomeDecides(sessions, key, continuation, policy, env, 0);
    SendsExactly(sessions, key, continuation, policy, env, first);
    if Decides(sessions, key, continuation, policy, env, last) {
      SendsExactly(sessions, key, continuation, policy, env, last);
    }
  }
}
