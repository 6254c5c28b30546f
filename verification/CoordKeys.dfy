/** Setup keys over whole runs: a single-use key admits one registration. */
module CoordKeys {
  import opened Prelude
  import opened Store
  import opened Text
  import opened CoordModel
  import opened CoordRuns

  /** The registration goes through the setup key, and not through a known machine key. */
  predicate JoinsBy(s: State, e: Event, key: string) {
    && e.Writes? && e.change.Registers?
    && var req := e.change.req;
       && req.routes.Some? && req.setupKey != "" && TrimSpace(req.setupKey) == key
       && FindNode(s.db.nodes, KeyText(MACHINE_PREFIX, req.mkey), s.db.lastId).None?
  }

  /** The key lets the registration in, as far as the key goes. */
  predicate LetsIn(s: State, e: Event, key: string) {
    JoinsBy(s, e, key) && UsableKey(s.db.keys, key, e.change.req.now).Ok?
  }

  predicate IsSpent(keys: map<string, SetupKey>, key: string) {
    key in keys && !keys[key].reusable && keys[key].usedCount > 0
  }

  /** What an event does to a key that exists: registrations it lets in are counted,
      revoking marks it, and nothing else about it ever changes. */
  predicate KeyStep(s: State, e: Event, keys': map<string, SetupKey>, key: string) {
    key in s.db.keys ==>
      && key in keys'
      && keys'[key] == s.db.keys[key].(revoked := s.db.keys[key].revoked || e == Writes(RevokesKey(key)),
                                       usedCount := s.db.keys[key].usedCount + if LetsIn(s, e, key) then 1 else 0)
  }

  // ---------------------------------------------------------------- one step

  lemma TrafficSparesKeys(s: State, e: Traffic)
    ensures ApplyTraffic(s, e).db == s.db
  {
  }

  lemma AdmitKeys(s: State, req: Joining)
    requires NetworksOk(s.db.networks) && AllocsValid(s.ipams)
    ensures var key := TrimSpace(req.setupKey);
            var lets := req.routes.Some? && req.setupKey != ""
                      && FindNode(s.db.nodes, KeyText(MACHINE_PREFIX, req.mkey), s.db.lastId).None?
                      && UsableKey(s.db.keys, key, req.now).Ok?;
            Admit(s, req).0.db.keys == if lets then Spend(s, key).db.keys else s.db.keys
  {
    var key := TrimSpace(req.setupKey);
    var use := UsableKey(s.db.keys, key, req.now);
    if req.routes.Some? {
      var found := FindNode(s.db.nodes, KeyText(MACHINE_PREFIX, req.mkey), s.db.lastId);
      if found.Some? {
        RejoinSpares(s, found.value, req);
      } else if req.setupKey != "" && use.Ok? {
        JoinBySpentSpares(Spend(s, key), use.value, req);
      }
    }
  }

  lemma RegisterKey(s: State, req: Request, key: string)
    requires NetworksOk(s.db.networks) && AllocsValid(s.ipams)
    ensures KeyStep(s, Writes(Registers(req)), Register(s, req).0.db.keys, key)
  {
    AdmitKeys(s, Cleaned(req));
  }

  lemma CreatedKey(s: State, made: string, k: SetupKey, key: string)
    ensures var keys := CreateKey(s, made, k).db.keys; key in s.db.keys ==> key in keys && keys[key] == s.db.keys[key]
  {
    if made !in s.db.keys { assert CreateKey(s, made, k).db.keys == s.db.keys[made := k]; }
  }

  lemma RevokedKey(s: State, made: string, key: string)
    requires key in s.db.keys
    ensures var keys := RevokeKey(s, made).db.keys;
            key in keys && keys[key] == s.db.keys[key].(revoked := s.db.keys[key].revoked || made == key)
  {
    if made in s.db.keys {
      assert RevokeKey(s, made).db.keys == s.db.keys[made := s.db.keys[made].(revoked := true)];
    }
  }

  lemma OthersSpareKeys(s: State, e: Change)
    requires NetworksOk(s.db.networks) && AllocsValid(s.ipams) && !e.Registers? && !e.CreatesKey? && !e.RevokesKey?
    ensures ApplyChange(s, e).db.keys == s.db.keys
  {
  }

  lemma ChangeKey(s: State, e: Change, key: string)
    requires NetworksOk(s.db.networks) && AllocsValid(s.ipams)
    ensures KeyStep(s, Writes(e), ApplyChange(s, e).db.keys, key)
  {
    match e
    case Registers(req) => RegisterKey(s, req, key);
    case CreatesKey(made, net, reusable, expiresAt) =>
      CreatedKey(s, made, SetupKey(net, reusable, false, expiresAt, 0), key);
    case RevokesKey(made) => if key in s.db.keys { RevokedKey(s, made, key); }
    case _ => OthersSpareKeys(s, e);
  }

  lemma RunKey(ss: seq<State>, es: seq<Event>, k: nat, key: string)
    requires IsRun(ss, es) && k < |es|
    ensures KeyStep(ss[k], es[k], ss[k + 1].db.keys, key)
  {
    RunKeeps(ss, es, k);
    assert StepAt(ss, es, k);
    LeadsIsApply(ss[k], es[k], ss[k + 1]);
    match es[k]
    case Writes(c) => ChangeKey(ss[k], c, key);
    case Streams(t) => TrafficSparesKeys(ss[k], t);
    case Restarts =>
  }

  // ---------------------------------------------------------------- whole runs

  /** How many registrations the key let in from event j up to event k. */
  function LetIn(ss: seq<State>, es: seq<Event>, j: nat, k: nat, key: string): nat
    requires |ss| == |es| + 1 && j <= k <= |es|
    decreases k
  {
    if j == k then 0 else LetIn(ss, es, j, k - 1, key) + if LetsIn(ss[k - 1], es[k - 1], key) then 1 else 0
  }

  predicate Revokes(e: Event, key: string) { e == Writes(RevokesKey(key)) }

  predicate RevokedBetween(es: seq<Event>, j: nat, k: nat, key: string)
    requires k <= |es|
  {
    exists i :: j <= i < k && Revokes(es[i], key)
  }

  /** At k the key is what it was at j, but for the registrations it let in since and for
      having been revoked since. */
  predicate KeyKept(ss: seq<State>, es: seq<Event>, j: nat, k: nat, key: string)
    requires |ss| == |es| + 1 && j <= k <= |es| && key in ss[j].db.keys
  {
    && key in ss[k].db.keys
    && var was := ss[j].db.keys[key];
       ss[k].db.keys[key] == was.(revoked := was.revoked || RevokedBetween(es, j, k, key),
                                  usedCount := was.usedCount + LetIn(ss, es, j, k, key))
  }

  /** From any time on a key is known from the events: it never goes, and its network, its
      expiry and whether it may be used again never change. */
  lemma {:induction false} KeysFollowEvents(ss: seq<State>, es: seq<Event>, j: nat, k: nat, key: string)
    requires IsRun(ss, es) && j <= k <= |es| && key in ss[j].db.keys
    ensures KeyKept(ss, es, j, k, key)
    decreases k
  {
    if j < k {
      KeysFollowEvents(ss, es, j, k - 1, key);
      RunKey(ss, es, k - 1, key);
      RevokedNext(es, j, k, key);
    }
  }

  lemma RevokedNext(es: seq<Event>, j: nat, k: nat, key: string)
    requires j < k <= |es|
    ensures RevokedBetween(es, j, k, key) <==> RevokedBetween(es, j, k - 1, key) || Revokes(es[k - 1], key)
  {
    if i :| j <= i < k && Revokes(es[i], key) { if i < k - 1 { assert RevokedBetween(es, j, k - 1, key); } }
  }

  /** A key is created unused, under the terms asked for, unless the text is taken. */
  lemma KeysStartUnused(ss: seq<State>, es: seq<Event>, k: nat, key: string, net: nat, reusable: bool, expiresAt: nat)
    requires IsRun(ss, es) && k < |es| && es[k] == Writes(CreatesKey(key, net, reusable, expiresAt))
    ensures key in ss[k + 1].db.keys
    ensures key !in ss[k].db.keys ==> ss[k + 1].db.keys[key] == SetupKey(net, reusable, false, expiresAt, 0)
    ensures key in ss[k].db.keys ==> ss[k + 1].db.keys[key] == ss[k].db.keys[key]
  {
    RunKeeps(ss, es, k);
    assert StepAt(ss, es, k);
    LeadsIsApply(ss[k], es[k], ss[k + 1]);
  }

  /** Not revoked, not expired, and not spent. */
  predicate InForce(k: SetupKey, now: nat) {
    !k.revoked && (k.expiresAt == 0 || now <= k.expiresAt) && (k.reusable || k.usedCount == 0)
  }

  /** Which keys let a new device in, and into which network. */
  lemma UsableIff(keys: map<string, SetupKey>, key: string, now: nat, net: nat)
    ensures UsableKey(keys, key, now) == Ok(net) <==>
              key in keys && net == keys[key].net && InForce(keys[key], now)
  {
  }

  /** A registration by a key that does not let it in is refused and changes nothing. */
  lemma RefusedAt(ss: seq<State>, es: seq<Event>, k: nat, key: string)
    requires IsRun(ss, es) && k < |es| && JoinsBy(ss[k], es[k], key)
    requires UsableKey(ss[k].db.keys, key, es[k].change.req.now).Err?
    ensures ss[k + 1] == ss[k]
  {
    RunKeeps(ss, es, k);
    assert StepAt(ss, es, k);
    LeadsIsApply(ss[k], es[k], ss[k + 1]);
    RefusedChangesNothing(ss[k], es[k], key);
  }

  lemma RefusedChangesNothing(s: State, e: Event, key: string)
    requires NetworksOk(s.db.networks) && AllocsValid(s.ipams) && JoinsBy(s, e, key)
    requires UsableKey(s.db.keys, key, e.change.req.now).Err?
    ensures Register(s, e.change.req).1.Err? && Apply(s, e) == s
  {
  }

  /** Whatever the admin creates or revokes, a spent key stays spent. */
  lemma SpentForGood(ss: seq<State>, es: seq<Event>, j: nat, k: nat, key: string)
    requires IsRun(ss, es) && j <= k <= |es| && IsSpent(ss[j].db.keys, key)
    ensures IsSpent(ss[k].db.keys, key)
  {
    KeysFollowEvents(ss, es, j, k, key);
  }

  /** A registration that its key lets in spends the key, whatever comes of it. */
  lemma JoiningSpends(ss: seq<State>, es: seq<Event>, j: nat, key: string)
    requires IsRun(ss, es) && j < |es| && LetsIn(ss[j], es[j], key) && !ss[j].db.keys[key].reusable
    ensures IsSpent(ss[j + 1].db.keys, key)
  {
    RunKey(ss, es, j, key);
  }

  /** A single-use key admits one registration, ever: after the first, every other new
      device that presents it is refused and changes nothing. */
  lemma SingleUseKeyAdmitsOne(ss: seq<State>, es: seq<Event>, j: nat, k: nat, key: string)
    requires IsRun(ss, es) && j < k < |es| && LetsIn(ss[j], es[j], key) && !ss[j].db.keys[key].reusable
    requires JoinsBy(ss[k], es[k], key)
    ensures !LetsIn(ss[k], es[k], key) && ss[k + 1] == ss[k]
  {
    JoiningSpends(ss, es, j, key);
    SpentForGood(ss, es, j + 1, k, key);
    RefusedAt(ss, es, k, key);
  }

  /** After a key is revoked nobody joins by it any more. */
  lemma RevokedKeyAdmitsNone(ss: seq<State>, es: seq<Event>, j: nat, k: nat, key: string)
    requires IsRun(ss, es) && j < k < |es| && es[j] == Writes(RevokesKey(key)) && key in ss[j].db.keys
    requires JoinsBy(ss[k], es[k], key)
    ensures !LetsIn(ss[k], es[k], key) && ss[k + 1] == ss[k]
  {
    RunKey(ss, es, j, key);
    KeysFollowEvents(ss, es, j + 1, k, key);
    RefusedAt(ss, es, k, key);
  }

  /** After its expiry nobody joins by a key any more, whenever the expiry was set. */
  lemma ExpiredKeyAdmitsNone(ss: seq<State>, es: seq<Event>, j: nat, k: nat, key: string)
    requires IsRun(ss, es) && j <= k < |es| && key in ss[j].db.keys && ss[j].db.keys[key].expiresAt != 0
    requires JoinsBy(ss[k], es[k], key) && es[k].change.req.now > ss[j].db.keys[key].expiresAt
    ensures !LetsIn(ss[k], es[k], key) && ss[k + 1] == ss[k]
  {
    KeysFollowEvents(ss, es, j, k, key);
    RefusedAt(ss, es, k, key);
  }
}
