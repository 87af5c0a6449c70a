/** Which backend chain a conversation may continue on: identities, the registry of chains per
    checkpoint, and the selector. */
module Chains {
  import opened Json
  import opened Lease

  datatype Identity = Identity(session: string, branch: string, kind: string, model: string, effort: string)

  function Key(i: Identity): string {
    "v1:" + (i.session + ":" + (i.branch + ":" + (i.kind + ":" + (i.model + ":" + i.effort))))
  }

  function CheckpointKey(i: Identity, responseId: string): string {
    Key(i) + ":" + responseId
  }

  // ----- joined keys -----

  predicate ColonFree(s: string) {
    ':' !in s
  }

  predicate PlainIdentity(i: Identity) {
    ColonFree(i.session) && PlainButSession(i)
  }

  /** Branch ids are minted, kinds are an enumeration; a session id is whatever the client sends. */
  predicate PlainButSession(i: Identity) {
    ColonFree(i.branch) && ColonFree(i.kind) && ColonFree(i.model) && ColonFree(i.effort)
  }

  /** The position of the first colon, or the length if there is none. */
  function FirstColon(s: string): (n: nat)
    ensures n <= |s|
  {
    if s == "" || s[0] == ':' then 0 else 1 + FirstColon(s[1..])
  }

  lemma {:induction false} FirstColonJoin(a: string, x: string)
    requires ColonFree(a)
    ensures FirstColon(a + ":" + x) == |a|
    decreases |a|
  {
    if a == "" {
      assert (a + ":" + x)[0] == ':';
    } else {
      FirstColonJoin(a[1..], x);
      assert (a + ":" + x)[1..] == a[1..] + ":" + x;
      assert (a + ":" + x)[0] == a[0];
    }
  }

  /** A colon-free first part is recovered from a join. */
  lemma {:induction false} SplitJoin(a: string, x: string, b: string, y: string)
    requires ColonFree(a) && ColonFree(b)
    ensures a + ":" + x == b + ":" + y <==> a == b && x == y
  {
    FirstColonJoin(a, x);
    FirstColonJoin(b, y);
    var joined := a + ":" + x;
    assert a == joined[..|a|] && x == joined[|a| + 1..];
    assert b == (b + ":" + y)[..|b|] && y == (b + ":" + y)[|b| + 1..];
  }

  lemma {:induction false} Reassociate(i: Identity, r: string)
    ensures CheckpointKey(i, r)
      == "v1" + ":" + (i.session + ":" + (i.branch + ":" + (i.kind + ":" + (i.model + ":" + (i.effort + ":" + r)))))
  {
  }

  /** Two checkpoints have the same key only if they are the same, whatever the response ids are made of. */
  lemma {:induction false} CheckpointKeyInjective(i: Identity, r: string, j: Identity, s: string)
    requires PlainIdentity(i) && PlainIdentity(j)
    ensures CheckpointKey(i, r) == CheckpointKey(j, s) <==> i == j && r == s
  {
    Reassociate(i, r);
    Reassociate(j, s);
    var e1, e2 := i.effort + ":" + r, j.effort + ":" + s;
    var m1, m2 := i.model + ":" + e1, j.model + ":" + e2;
    var k1, k2 := i.kind + ":" + m1, j.kind + ":" + m2;
    var b1, b2 := i.branch + ":" + k1, j.branch + ":" + k2;
    SplitJoin("v1", i.session + ":" + b1, "v1", j.session + ":" + b2);
    SplitJoin(i.session, b1, j.session, b2);
    SplitJoin(i.branch, k1, j.branch, k2);
    SplitJoin(i.kind, m1, j.kind, m2);
    SplitJoin(i.model, e1, j.model, e2);
    SplitJoin(i.effort, r, j.effort, s);
  }

  // ----- splitting from the right -----

  /** The length of what follows the last colon. */
  function AfterLastColon(s: string): (n: nat)
    ensures n <= |s|
  {
    if s == "" || s[|s| - 1] == ':' then 0 else 1 + AfterLastColon(s[..|s| - 1])
  }

  lemma {:induction false} LastColonJoin(x: string, a: string)
    requires ColonFree(a)
    ensures AfterLastColon(x + ":" + a) == |a|
    decreases |a|
  {
    var joined := x + ":" + a;
    if a == "" {
      assert joined[|joined| - 1] == ':';
    } else {
      LastColonJoin(x, a[..|a| - 1]);
      assert joined[..|joined| - 1] == x + ":" + a[..|a| - 1];
      assert joined[|joined| - 1] == a[|a| - 1];
    }
  }

  /** A colon-free last part is recovered from a join. */
  lemma {:induction false} SplitJoinRight(x: string, a: string, y: string, b: string)
    requires ColonFree(a) && ColonFree(b)
    ensures x + ":" + a == y + ":" + b <==> x == y && a == b
  {
    LastColonJoin(x, a);
    LastColonJoin(y, b);
    var joined := x + ":" + a;
    assert x == joined[..|joined| - |a| - 1] && a == joined[|joined| - |a|..];
    var other := y + ":" + b;
    assert y == other[..|other| - |b| - 1] && b == other[|other| - |b|..];
  }

  lemma {:induction false} ReassociateLeft(i: Identity, r: string)
    ensures CheckpointKey(i, r)
      == (((((("v1:" + i.session) + ":" + i.branch) + ":" + i.kind) + ":" + i.model) + ":" + i.effort) + ":" + r)
  {
  }

  /** With an arbitrary session id, the other parts and the response id being free of colons. */
  lemma {:induction false} CheckpointKeyInjectiveAnySession(i: Identity, r: string, j: Identity, s: string)
    requires PlainButSession(i) && PlainButSession(j) && ColonFree(r) && ColonFree(s)
    ensures CheckpointKey(i, r) == CheckpointKey(j, s) <==> i == j && r == s
  {
    ReassociateLeft(i, r);
    ReassociateLeft(j, s);
    var s1, s2 := "v1:" + i.session, "v1:" + j.session;
    var b1, b2 := s1 + ":" + i.branch, s2 + ":" + j.branch;
    var k1, k2 := b1 + ":" + i.kind, b2 + ":" + j.kind;
    var m1, m2 := k1 + ":" + i.model, k2 + ":" + j.model;
    var e1, e2 := m1 + ":" + i.effort, m2 + ":" + j.effort;
    SplitJoinRight(e1, r, e2, s);
    SplitJoinRight(m1, i.effort, m2, j.effort);
    SplitJoinRight(k1, i.model, k2, j.model);
    SplitJoinRight(b1, i.kind, b2, j.kind);
    SplitJoinRight(s1, i.branch, s2, j.branch);
    assert s1 == s2 ==> i.session == j.session by {
      assert s1[3..] == i.session && s2[3..] == j.session;
    }
  }

  /** Identities that differ have different lease keys, whatever their sessions are called. */
  lemma {:induction false} KeyInjective(i: Identity, j: Identity)
    requires PlainButSession(i) && PlainButSession(j)
    ensures Key(i) == Key(j) <==> i == j
  {
    CheckpointKeyInjectiveAnySession(i, "", j, "");
  }

  // ----- exactly when a key is ambiguous -----

  function Colons(s: string): nat {
    if s == "" then 0 else (if s[0] == ':' then 1 else 0) + Colons(s[1..])
  }

  lemma {:induction false} ColonsAdd(a: string, b: string)
    ensures Colons(a + b) == Colons(a) + Colons(b)
    decreases |a|
  {
    if a == "" {
      assert a + b == b;
    } else {
      ColonsAdd(a[1..], b);
      assert (a + b)[1..] == a[1..] + b;
    }
  }

  lemma {:induction false} ColonsNone(s: string)
    ensures Colons(s) == 0 <==> ColonFree(s)
    decreases |s|
  {
    if s != "" {
      ColonsNone(s[1..]);
      assert forall c :: c in s <==> c == s[0] || c in s[1..];
    }
  }

  lemma {:induction false} ColonsJoin(a: string, b: string)
    ensures Colons(a + ":" + b) == Colons(a) + 1 + Colons(b)
  {
    ColonsAdd(a + ":", b);
    ColonsAdd(a, ":");
    assert Colons(":") == 1 + Colons("") by { assert ":"[1..] == ""; }
  }

  lemma {:induction false} KeyColons(i: Identity, r: string)
    ensures Colons(CheckpointKey(i, r))
      == 6 + Colons("v1") + Colons(i.session) + Colons(i.branch) + Colons(i.kind) + Colons(i.model) + Colons(i.effort)
        + Colons(r)
  {
    Reassociate(i, r);
    hide Colons;
    ColonsJoin(i.effort, r);
    ColonsJoin(i.model, i.effort + ":" + r);
    ColonsJoin(i.kind, i.model + ":" + (i.effort + ":" + r));
    ColonsJoin(i.branch, i.kind + ":" + (i.model + ":" + (i.effort + ":" + r)));
    ColonsJoin(i.session, i.branch + ":" + (i.kind + ":" + (i.model + ":" + (i.effort + ":" + r))));
    ColonsJoin("v1", i.session + ":" + (i.branch + ":" + (i.kind + ":" + (i.model + ":" + (i.effort + ":" + r)))));
  }

  predicate Plain(i: Identity, r: string) {
    PlainIdentity(i) && ColonFree(r)
  }

  predicate Rivals(i: Identity, r: string, j: Identity, s: string) {
    (j, s) != (i, r) && CheckpointKey(j, s) == CheckpointKey(i, r)
  }

  lemma {:induction false} NoRivals(i: Identity, r: string, j: Identity, s: string)
    requires Plain(i, r)
    ensures !Rivals(i, r, j, s)
  {
    if CheckpointKey(j, s) == CheckpointKey(i, r) {
      KeyColons(i, r);
      KeyColons(j, s);
      hide CheckpointKey;
      ColonsNone(i.session); ColonsNone(i.branch); ColonsNone(i.kind);
      ColonsNone(i.model); ColonsNone(i.effort); ColonsNone(r);
      ColonsNone(j.session); ColonsNone(j.branch); ColonsNone(j.kind);
      ColonsNone(j.model); ColonsNone(j.effort); ColonsNone(s);
      CheckpointKeyInjective(i, r, j, s);
    }
  }

  lemma {:induction false} ColonAt(s: string) returns (a: string, b: string)
    requires !ColonFree(s)
    ensures s == a + ":" + b
  {
    var k :| 0 <= k < |s| && s[k] == ':';
    a, b := s[..k], s[k + 1..];
  }

  lemma {:induction false} Shift(a: string, b: string, x: string)
    ensures (a + ":" + b) + ":" + x == a + ":" + (b + ":" + x)
  {
  }

  /** A colon in one part can be read as the separator to the next part. */
  lemma {:induction false} RivalExists(i: Identity, r: string) returns (j: Identity, s: string)
    requires !Plain(i, r)
    ensures Rivals(i, r, j, s)
    ensures !(ColonFree(i.session) && ColonFree(i.branch) && ColonFree(i.kind) && ColonFree(i.model)) ==> s == r
  {
    hide CheckpointKey, ColonFree;
    s := r;
    var effort := i.effort + ":" + r;
    var model := i.model + ":" + effort;
    var kind := i.kind + ":" + model;
    if !ColonFree(i.session) {
      var a, b := ColonAt(i.session);
      j := i.(session := a, branch := b + ":" + i.branch);
      assert |j.session| < |i.session|;
      Shift(a, b, i.branch + ":" + kind);
      Shift(b, i.branch, kind);
    } else if !ColonFree(i.branch) {
      var a, b := ColonAt(i.branch);
      j := i.(branch := a, kind := b + ":" + i.kind);
      assert |j.branch| < |i.branch|;
      Shift(a, b, kind);
      Shift(b, i.kind, model);
    } else if !ColonFree(i.kind) {
      var a, b := ColonAt(i.kind);
      j := i.(kind := a, model := b + ":" + i.model);
      assert |j.kind| < |i.kind|;
      Shift(a, b, model);
      Shift(b, i.model, effort);
    } else if !ColonFree(i.model) {
      var a, b := ColonAt(i.model);
      j := i.(model := a, effort := b + ":" + i.effort);
      assert |j.model| < |i.model|;
      Shift(a, b, effort);
      Shift(b, i.effort, r);
    } else if !ColonFree(i.effort) {
      var a, b := ColonAt(i.effort);
      j, s := i.(effort := a), b + ":" + r;
      assert |j.effort| < |i.effort|;
      Shift(a, b, r);
    } else {
      var a, b := ColonAt(r);
      j, s := i.(effort := i.effort + ":" + a), b;
      assert |s| < |r|;
      Shift(i.effort, a, b);
    }
    Reassociate(i, r);
    Reassociate(j, s);
  }

  /** A checkpoint shares its key with another one exactly when one of its parts has a colon. */
  lemma {:induction false} AmbiguousExactly(i: Identity, r: string)
    ensures (exists j, s :: Rivals(i, r, j, s)) <==> !Plain(i, r)
  {
    if Plain(i, r) {
      forall j, s ensures !Rivals(i, r, j, s) { NoRivals(i, r, j, s); }
    } else {
      var j, s := RivalExists(i, r);
    }
  }

  /** A lease key is shared with another identity exactly when a part of the identity has a colon. */
  lemma {:induction false} KeyAmbiguousExactly(i: Identity)
    ensures (exists j :: j != i && Key(j) == Key(i)) <==> !PlainIdentity(i)
  {
    if PlainIdentity(i) {
      forall j | Key(j) == Key(i) ensures j == i { NoRivals(i, "", j, ""); }
    } else {
      var j := KeyRival(i);
    }
  }

  lemma {:induction false} KeyRival(i: Identity) returns (j: Identity)
    requires !PlainIdentity(i)
    ensures j != i && Key(j) == Key(i)
  {
    var s;
    j, s := RivalExists(i, "");
    if s == "" {
      assert Key(j) + ":" == Key(i) + ":" by {
        assert CheckpointKey(j, "") == Key(j) + ":" && CheckpointKey(i, "") == Key(i) + ":";
      }
      SameEnd(Key(j), Key(i), ":");
    } else {
      var a, b := ColonAt(i.effort);
      j := i.(model := i.model + ":" + a, effort := b);
      assert |j.effort| < |i.effort|;
      Shift(i.model, a, b);
      Reassociate(i, "");
    }
  }

  lemma {:induction false} SameEnd(a: string, b: string, end: string)
    requires a + end == b + end
    ensures a == b
  {
    assert |a| == |b|;
    assert a == (a + end)[..|a|] && b == (b + end)[..|b|];
  }

  // ----- the registry -----

  datatype Association = Association(identity: Identity, responseId: string, chain: Chain)

  /** The most recent chain stored for this identity and response. */
  function LastStored(history: seq<Association>, i: Identity, responseId: string): Option<Chain> {
    if history == [] then None
    else
      var last := history[|history| - 1];
      if last.identity == i && last.responseId == responseId then Some(last.chain)
      else LastStored(history[..|history| - 1], i, responseId)
  }

  function Table(history: seq<Association>): map<string, Chain> {
    if history == [] then map[]
    else
      var last := history[|history| - 1];
      Table(history[..|history| - 1])[CheckpointKey(last.identity, last.responseId) := last.chain]
  }

  class ChainRegistry {
    var chains: map<string, Chain>
    ghost var history: seq<Association>

    ghost predicate Valid()
      reads this
    {
      chains == Table(history)
    }

    constructor ()
      ensures Valid() && history == []
    {
      chains, history := map[], [];
    }

    method Associate(identity: Identity, responseId: string, chain: Chain)
      requires Valid()
      modifies this
      ensures Valid() && history == old(history) + [Association(identity, responseId, chain)]
    {
      chains := chains[CheckpointKey(identity, responseId) := chain];
      history := history + [Association(identity, responseId, chain)];
      assert history[..|history| - 1] == old(history);
    }

    method Lookup(identity: Identity, responseId: string) returns (chain: Option<Chain>)
      requires Valid()
      ensures chain == Get(Table(history), CheckpointKey(identity, responseId))
      ensures Separable(history, identity, responseId) ==> chain == LastStored(history, identity, responseId)
    {
      if Separable(history, identity, responseId) {
        LookupMeans(history, identity, responseId);
      }
      chain := Get(chains, CheckpointKey(identity, responseId));
    }
  }

  function Get(m: map<string, Chain>, k: string): Option<Chain> {
    if k in m then Some(m[k]) else None
  }

  /** The history and the checkpoint asked for can be told apart by their keys: the checkpoint has no colon
      at all, or all identities are colon-free, or all of everything but the sessions is. */
  predicate Separable(history: seq<Association>, i: Identity, responseId: string) {
    || Plain(i, responseId)
    || (PlainIdentity(i) && forall a | a in history :: PlainIdentity(a.identity))
    || (PlainButSession(i) && ColonFree(responseId)
        && forall a | a in history :: PlainButSession(a.identity) && ColonFree(a.responseId))
  }

  lemma {:induction false} SeparableKeys(history: seq<Association>, i: Identity, responseId: string, a: Association)
    requires Separable(history, i, responseId) && a in history
    ensures CheckpointKey(a.identity, a.responseId) == CheckpointKey(i, responseId)
      <==> a.identity == i && a.responseId == responseId
  {
    hide CheckpointKey;
    if Plain(i, responseId) {
      NoRivals(i, responseId, a.identity, a.responseId);
    } else if PlainIdentity(i) && PlainIdentity(a.identity) {
      CheckpointKeyInjective(a.identity, a.responseId, i, responseId);
    } else {
      CheckpointKeyInjectiveAnySession(a.identity, a.responseId, i, responseId);
    }
  }

  lemma {:induction false} LookupMeans(history: seq<Association>, i: Identity, responseId: string)
    requires Separable(history, i, responseId)
    ensures Get(Table(history), CheckpointKey(i, responseId)) == LastStored(history, i, responseId)
    decreases |history|
  {
    hide CheckpointKey, PlainIdentity, PlainButSession, Plain, ColonFree;
    if history != [] {
      var last, before := history[|history| - 1], history[..|history| - 1];
      assert last in history && forall a | a in before :: a in history;
      SeparableKeys(history, i, responseId, last);
      LookupMeans(before, i, responseId);
    }
  }

  /** The registry answers for a checkpoint from its own associations, after every history, exactly when no
      part of the checkpoint has a colon. */
  lemma {:induction false} LookupMeansExactly(i: Identity, responseId: string)
    ensures (forall history :: Get(Table(history), CheckpointKey(i, responseId)) == LastStored(history, i, responseId))
      <==> Plain(i, responseId)
  {
    if Plain(i, responseId) {
      forall history ensures Get(Table(history), CheckpointKey(i, responseId)) == LastStored(history, i, responseId) {
        LookupMeans(history, i, responseId);
      }
    } else {
      var j, s := RivalExists(i, responseId);
      var history := [Association(j, s, "chain")];
      OneAssociation(j, s, "chain");
      assert LastStored(history, i, responseId) == None by { assert history[..0] == []; }
      assert Get(Table(history), CheckpointKey(i, responseId)) == Some("chain");
    }
  }

  lemma {:induction false} OneAssociation(j: Identity, s: string, chain: Chain)
    ensures Table([Association(j, s, chain)]) == map[CheckpointKey(j, s) := chain]
  {
    var history := [Association(j, s, chain)];
    assert history[..0] == [];
    assert Table([]) == map[];
  }

  // ----- the selector -----

  datatype Plan = Plan(identity: Identity, hasCheckpoint: bool, previousResponseId: string, liveChain: Option<Chain>)

  datatype Reason = MissingCheckpoint | MissingLiveChain | MissingAssociation | ChainMatch | ChainMismatch

  datatype Decision = Decision(incremental: bool, chain: Option<Chain>, reason: Reason)

  function Decide(chains: map<string, Chain>, plan: Plan): Decision {
    if !plan.hasCheckpoint then Decision(false, None, MissingCheckpoint)
    else if plan.liveChain.None? then Decision(false, None, MissingLiveChain)
    else match Get(chains, CheckpointKey(plan.identity, plan.previousResponseId))
      case None => Decision(false, None, MissingAssociation)
      case Some(stored) =>
        if stored != plan.liveChain.value then Decision(false, None, Reason.ChainMismatch)
        else Decision(true, Some(stored), ChainMatch)
  }

  /** What reuse should mean: there is a checkpoint and a live chain, and the chain last stored for this
      very identity and response is the live one. */
  predicate OwnChain(history: seq<Association>, plan: Plan) {
    && plan.hasCheckpoint && plan.liveChain.Some?
    && LastStored(history, plan.identity, plan.previousResponseId) == plan.liveChain
  }

  /** After any history that can be told apart, an incremental request is allowed exactly on its own chain. */
  lemma {:induction false} ReuseOnlyOwnChain(history: seq<Association>, plan: Plan)
    requires Separable(history, plan.identity, plan.previousResponseId)
    ensures Decide(Table(history), plan).incremental <==> OwnChain(history, plan)
    ensures Decide(Table(history), plan).incremental ==> Decide(Table(history), plan).chain == plan.liveChain
  {
    LookupMeans(history, plan.identity, plan.previousResponseId);
  }

  /** After every history, with a checkpoint and whatever the live chain, exactly when no part of the
      checkpoint has a colon. */
  lemma {:induction false} ReuseOnlyOwnChainExactly(i: Identity, responseId: string)
    ensures (forall history, live :: var plan := Plan(i, true, responseId, live);
              Decide(Table(history), plan).incremental <==> OwnChain(history, plan))
      <==> Plain(i, responseId)
  {
    if Plain(i, responseId) {
      forall history, live
        ensures var plan := Plan(i, true, responseId, live);
          Decide(Table(history), plan).incremental <==> OwnChain(history, plan)
      {
        ReuseOnlyOwnChain(history, Plan(i, true, responseId, live));
      }
    } else {
      var j, s := RivalExists(i, responseId);
      var history, plan := [Association(j, s, "chain")], Plan(i, true, responseId, Some("chain"));
      OneAssociation(j, s, "chain");
      assert LastStored(history, i, responseId) == None by { assert history[..0] == []; }
      assert Decide(Table(history), plan).incremental && !OwnChain(history, plan);
    }
  }

  function Mine(session: string, one: string, two: string, model: string): Identity {
    Identity(session, one, "visible_main", model, "high:" + two + ":visible_main:" + model + ":high")
  }

  function Theirs(session: string, one: string, two: string, model: string): Identity {
    Identity(session + ":" + one + ":visible_main:" + model + ":high", two, "visible_main", model, "high")
  }

  /** Identities that can arrive, differing only in what clients send and in minted branch ids, are
      confused: one sends the other's branch and kind inside its effort. */
  lemma {:induction false} ColonsConfuse(session: string, one: string, two: string, model: string, chain: Chain)
    ensures var mine := Mine(session, one, two, model);
            var theirs := Theirs(session, one, two, model);
            var history := [Association(theirs, "resp", chain)];
            && mine != theirs
            && LastStored(history, mine, "resp") == None
            && Decide(Table(history), Plan(mine, true, "resp", Some(chain))).incremental
  {
    var mine := Mine(session, one, two, model);
    var theirs := Theirs(session, one, two, model);
    var history := [Association(theirs, "resp", chain)];
    assert |mine.session| < |theirs.session|;
    SameKeys(session, one, two, model);
    hide Key;
    OneAssociation(theirs, "resp", chain);
    assert LastStored(history, mine, "resp") == None by { assert history[..0] == []; }
  }

  lemma {:induction false} SameKeys(session: string, one: string, two: string, model: string)
    ensures var mine := Mine(session, one, two, model);
            var theirs := Theirs(session, one, two, model);
            Key(mine) == Key(theirs)
  {
    var first := session + ":" + one + ":visible_main:" + model;
    var second := two + ":visible_main:" + model + ":high";
    MineSpelled(session, one, model, "high:" + second);
    assert "high:" + second == "high:" + two + ":visible_main:" + model + ":high";
    TheirsSpelled(first + ":high", two, model);
    assert first + ":high:" + second == first + (":high" + ":" + second);
  }

  lemma {:induction false} MineSpelled(session: string, one: string, model: string, effort: string)
    ensures Key(Identity(session, one, "visible_main", model, effort))
      == "v1:" + (session + ":" + one + ":visible_main:" + model + ":" + effort)
  {
    assert ":" + ("visible_main" + ":") == ":visible_main:";
  }

  lemma {:induction false} TheirsSpelled(session: string, two: string, model: string)
    ensures Key(Identity(session, two, "visible_main", model, "high"))
      == "v1:" + (session + ":" + (two + ":visible_main:" + model + ":high"))
  {
    assert ":" + ("visible_main" + ":") == ":visible_main:";
  }
}
