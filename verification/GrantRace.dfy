/** Any number of GrantUserGroup calls for one upstream user, lines 751 to 776 of
    backend/internal/proxy/passthrough.go: each reads the allowed groups and later writes the
    whole merged list back, unless the merge changed nothing. The upstream carries out each
    Idempotency-Key once. */
module GrantRace {
  import opened Common
  import opened GroupGrants
  import PackageGrant

  type Tid = nat
  type GroupId = PackageGrant.GroupId

  /** Without `overlap`, one call ends before the next begins. */
  datatype Config = Config(overlap: bool)

  datatype GrantKey = GrantKey(payment: nat, group: GroupId)

  datatype Reader = Reader(key: GrantKey, seen: seq<GroupId>)

  datatype Action =
    | Read(t: Tid, key: GrantKey)
    | Update(t: Tid, w: Write)
    | Stop(t: Tid)

  /** `granted` are the groups of the calls that have returned success. */
  datatype State = State(
    allowed: seq<GroupId>, applied: set<GrantKey>, granted: set<GroupId>, readers: map<Tid, Reader>)

  function Start(allowed: seq<GroupId>): State {
    State(allowed, {}, {}, map[])
  }

  predicate Enabled(cfg: Config, s: State, a: Action) {
    match a
    case Read(t, key) => t !in s.readers && key.group > 0 && (!cfg.overlap ==> s.readers == map[])
    case Update(t, _) => t in s.readers
    case Stop(t) => t in s.readers
  }

  /** The PUT of a merged list. */
  function Put(s: State, key: GrantKey, merged: seq<GroupId>): State {
    if key in s.applied then s else s.(allowed := merged, applied := s.applied + {key})
  }

  function Apply(cfg: Config, s: State, a: Action): State
    requires Enabled(cfg, s, a)
  {
    match a
    case Read(t, key) => s.(readers := s.readers[t := Reader(key, s.allowed)])
    case Update(t, w) =>
      var r := s.readers[t];
      var merged := Dedup(r.seen + [r.key.group]);
      var done := s.(readers := s.readers - {t}, granted := s.granted + {r.key.group});
      if merged == r.seen then done
      else
        var put := if w.Lands() then Put(s, r.key, merged) else s;
        put.(readers := s.readers - {t}, granted := if w.Acked? then done.granted else s.granted)
    case Stop(t) => s.(readers := s.readers - {t})
  }

  ghost function After(cfg: Config, allowed: seq<GroupId>, acts: seq<Action>): Option<State> {
    if acts == [] then Some(Start(allowed))
    else match After(cfg, allowed, acts[..|acts| - 1])
         case None => None
         case Some(s) =>
           var a := acts[|acts| - 1];
           if Enabled(cfg, s, a) then Some(Apply(cfg, s, a)) else None
  }

  /** Every group granted in any run is still allowed at its end. */
  ghost predicate GrantsKept(cfg: Config) {
    forall allowed: seq<GroupId>, acts: seq<Action>, s: State, g: GroupId
      | After(cfg, allowed, acts) == Some(s) && g in s.granted :: g in s.allowed
  }

  ghost predicate Inv(s: State) {
    && (forall g | g in s.granted :: g > 0 && g in s.allowed)
    && (forall key | key in s.applied :: key.group > 0 && key.group in s.allowed)
    && (forall t | t in s.readers :: s.readers[t].key.group > 0 && s.readers[t].seen == s.allowed)
    && (forall t, t' | t in s.readers && t' in s.readers :: t == t')
  }

  lemma StepKeeps(cfg: Config, s: State, a: Action)
    requires !cfg.overlap && Inv(s) && Enabled(cfg, s, a)
    ensures Inv(Apply(cfg, s, a))
  {
    if a.Update? {
      var r := s.readers[a.t];
      DedupValid(r.seen + [r.key.group]);
      assert forall g | g in s.allowed :: g in r.seen + [r.key.group];
      assert r.key.group in r.seen + [r.key.group];
    }
  }

  lemma {:induction false} InvAlways(cfg: Config, allowed: seq<GroupId>, acts: seq<Action>)
    requires !cfg.overlap && After(cfg, allowed, acts).Some?
    ensures Inv(After(cfg, allowed, acts).value)
  {
    if acts != [] {
      var before := acts[..|acts| - 1];
      InvAlways(cfg, allowed, before);
      StepKeeps(cfg, After(cfg, allowed, before).value, acts[|acts| - 1]);
    }
  }

  lemma Extend(cfg: Config, allowed: seq<GroupId>, acts: seq<Action>, s: State, a: Action)
    returns (acts': seq<Action>, s': State)
    requires After(cfg, allowed, acts) == Some(s) && Enabled(cfg, s, a)
    ensures s' == Apply(cfg, s, a) && After(cfg, allowed, acts') == Some(s')
  {
    acts', s' := acts + [a], Apply(cfg, s, a);
    assert acts'[..|acts'| - 1] == acts;
  }

  /** Two grants that read the same list: the later write drops the earlier group, whose
      call has returned success. */
  lemma LostGrant(cfg: Config, g: GroupId, h: GroupId) returns (acts: seq<Action>, s: State)
    requires cfg.overlap && g > 0 && h > 0 && g != h
    ensures After(cfg, [], acts) == Some(s) && s.granted == {g, h} && s.allowed == [h]
  {
    acts, s := [], Start([]);
    acts, s := Extend(cfg, [], acts, s, Read(0, GrantKey(0, g)));
    acts, s := Extend(cfg, [], acts, s, Read(1, GrantKey(1, h)));
    OneGroup(g);
    OneGroup(h);
    acts, s := Extend(cfg, [], acts, s, Update(0, Acked));
    acts, s := Extend(cfg, [], acts, s, Update(1, Acked));
  }

  lemma OneGroup(g: GroupId)
    requires g > 0
    ensures Dedup([] + [g]) == [g]
  {
    assert ([] + [g])[..0] == [];
  }

  /** What the second half of a call does. With the group already in a valid list nothing is
      sent; otherwise the whole merged list is, and carried out once per Idempotency-Key. */
  lemma UpdateIs(cfg: Config, s: State, t: Tid, w: Write)
    requires Enabled(cfg, s, Update(t, w)) && s.readers[t].key.group > 0
    ensures var (s', r) := (Apply(cfg, s, Update(t, w)), s.readers[t]);
            if ValidGroups(r.seen) && r.key.group in r.seen then
              s'.allowed == s.allowed && s'.applied == s.applied && s'.granted == s.granted + {r.key.group}
            else
              && (s'.allowed, s'.applied) ==
                 (if w == Failed || r.key in s.applied then (s.allowed, s.applied)
                  else (Dedup(r.seen + [r.key.group]), s.applied + {r.key}))
              && s'.granted == if w == Acked then s.granted + {r.key.group} else s.granted
  {
    GrantSkippedIff(s.readers[t].seen, s.readers[t].key.group);
  }

  /** No grant is ever lost exactly when the user's grants do not overlap. */
  lemma GrantsKeptIff(cfg: Config)
    ensures GrantsKept(cfg) <==> !cfg.overlap
  {
    if cfg.overlap {
      var acts, s := LostGrant(cfg, 1, 2);
    } else {
      forall allowed: seq<GroupId>, acts: seq<Action>, s: State, g: GroupId
        | After(cfg, allowed, acts) == Some(s) && g in s.granted
        ensures g in s.allowed
      {
        InvAlways(cfg, allowed, acts);
      }
    }
  }
}
