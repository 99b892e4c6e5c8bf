/** The reference-counted per-user refresh mutex: lockLocalUserRefresh of
    backend/internal/httpapi/routes.go.

    The code has four atomic sections: two under refreshMu (find or create the entry and
    count the caller; uncount and perhaps delete the entry) and, between them, locking and
    unlocking the entry's own mutex. `LockState` is the state machine over these sections
    for any number of threads and users; `RefreshLocks` is the code on real mutex objects,
    each section proved to be a step of the machine. */
module RefreshLocks {
  import opened Common

  type Tid = nat
  type UserId = int
  type MutexId = nat                   // the identity of a mutex object

  /** Between which sections a thread is, for which user and with which mutex. */
  datatype Pc =
    | Waiting(user: UserId, mutex: MutexId)
    | Holding(user: UserId, mutex: MutexId)
    | Leaving(user: UserId, mutex: MutexId)  // unlocked, not uncounted yet

  datatype LockState = LockState(
    users: map<UserId, MutexId>,             // refreshUserMu
    refs: map<MutexId, int>,                 // of every mutex ever created
    holder: map<MutexId, Option<Tid>>, // None: the mutex is unlocked
    created: map<MutexId, UserId>,     // for whom a mutex was created
    pcs: map<Tid, Pc>)

  datatype Action =
    | Enter(t: Tid, user: UserId, mutex: MutexId)
    | Lock(t: Tid)
    | Unlock(t: Tid)
    | Leave(t: Tid)

  ghost predicate Enabled(s: LockState, a: Action) {
    match a
    case Enter(t, user, mutex) =>
      t !in s.pcs && (user in s.users ==> s.users[user] in s.refs) && (user !in s.users ==> mutex !in s.refs)
    case Lock(t) => t in s.pcs && s.pcs[t].Waiting? && s.pcs[t].mutex in s.holder && s.holder[s.pcs[t].mutex].None?
    case Unlock(t) => t in s.pcs && s.pcs[t].Holding? && s.pcs[t].mutex in s.holder
    case Leave(t) => t in s.pcs && s.pcs[t].Leaving? && s.pcs[t].mutex in s.refs
  }

  ghost function Apply(s: LockState, a: Action): LockState
    requires Enabled(s, a)
  {
    match a
    case Enter(t, user, mutex) =>
      if user in s.users then
        var m := s.users[user];
        s.(refs := s.refs[m := s.refs[m] + 1], pcs := s.pcs[t := Waiting(user, m)])
      else
        s.(users := s.users[user := mutex], refs := s.refs[mutex := 1],
           holder := s.holder[mutex := None], created := s.created[mutex := user],
           pcs := s.pcs[t := Waiting(user, mutex)])
    case Lock(t) =>
      var pc := s.pcs[t];
      s.(holder := s.holder[pc.mutex := Some(t)], pcs := s.pcs[t := Holding(pc.user, pc.mutex)])
    case Unlock(t) =>
      var pc := s.pcs[t];
      s.(holder := s.holder[pc.mutex := None], pcs := s.pcs[t := Leaving(pc.user, pc.mutex)])
    case Leave(t) =>
      var pc := s.pcs[t];
      var n := s.refs[pc.mutex] - 1;
      s.(refs := s.refs[pc.mutex := n],
         users := if n == 0 then s.users - {pc.user} else s.users,
         pcs := s.pcs - {t})
  }

  // ----- The invariant -----

  ghost function Users(pcs: map<Tid, Pc>, m: MutexId): set<Tid> {
    set t | t in pcs && pcs[t].mutex == m
  }

  ghost function One(b: bool): nat {
    if b then 1 else 0
  }

  lemma UsersMove(pcs: map<Tid, Pc>, t: Tid, pc: Pc, m: MutexId)
    ensures Users(pcs[t := pc], m) == (Users(pcs, m) - {t}) + (if pc.mutex == m then {t} else {})
    ensures Users(pcs - {t}, m) == Users(pcs, m) - {t}
    ensures t in Users(pcs, m) <==> t in pcs && pcs[t].mutex == m
  {
  }

  lemma CardMove(us: set<Tid>, t: Tid)
    ensures |us - {t}| == |us| - One(t in us) && |(us - {t}) + {t}| == |us - {t}| + 1 && (us - {t}) + {} == us - {t}
  {
  }

  /** How moving or removing one thread changes the count of a mutex. */
  lemma CountMove(pcs: map<Tid, Pc>, t: Tid, pc: Pc, m: MutexId)
    ensures |Users(pcs[t := pc], m)| ==
            |Users(pcs, m)| - One(t in pcs && pcs[t].mutex == m) + One(pc.mutex == m)
    ensures |Users(pcs - {t}, m)| == |Users(pcs, m)| - One(t in pcs && pcs[t].mutex == m)
  {
    UsersMove(pcs, t, pc, m);
    CardMove(Users(pcs, m), t);
  }

  /** The threads between entering and leaving for a user. */
  ghost function Present(s: LockState, user: UserId): set<Tid> {
    set t | t in s.pcs && s.pcs[t].user == user
  }

  /** One mutex per user, the one in the map, and an entry only while it is counted. */
  ghost predicate OneMutex(s: LockState) {
    && (forall t | t in s.pcs :: s.pcs[t].user in s.users && s.users[s.pcs[t].user] == s.pcs[t].mutex)
    && (forall u | u in s.users :: s.users[u] in s.refs && s.refs[s.users[u]] > 0)
    && (forall u | u in s.users :: s.users[u] in s.created && s.created[s.users[u]] == u)
  }

  ghost predicate Counted(s: LockState) {
    forall m | m in s.refs :: s.refs[m] == |Users(s.pcs, m)|
  }

  /** The thread in the critical section is the one that holds the mutex. */
  ghost predicate Exclusive(s: LockState) {
    && s.holder.Keys == s.refs.Keys == s.created.Keys
    && (forall t | t in s.pcs && s.pcs[t].Holding? ::
          s.pcs[t].mutex in s.holder && s.holder[s.pcs[t].mutex] == Some(t))
  }

  ghost predicate Inv(s: LockState) {
    OneMutex(s) && Counted(s) && Exclusive(s)
  }

  lemma StepCounts(s: LockState, a: Action)
    requires Inv(s) && Enabled(s, a)
    ensures Counted(Apply(s, a))
  {
    var s' := Apply(s, a);
    var pc := if a.Leave? then s.pcs[a.t] else s'.pcs[a.t];
    forall m | m in s'.refs ensures s'.refs[m] == |Users(s'.pcs, m)| {
      CountMove(s.pcs, a.t, pc, m);
      if m !in s.refs {
        assert Users(s.pcs, m) == {};
      }
    }
  }

  lemma StepExclusive(s: LockState, a: Action)
    requires Inv(s) && Enabled(s, a)
    ensures Exclusive(Apply(s, a))
  {
  }

  /** The last counted thread of a mutex is its user's last thread. */
  lemma LastOne(s: LockState, t: Tid, t': Tid)
    requires OneMutex(s) && Counted(s) && t in s.pcs && t' in s.pcs && t != t'
    requires s.pcs[t].mutex in s.refs && s.refs[s.pcs[t].mutex] == 1
    ensures s.pcs[t].user != s.pcs[t'].user
  {
    var rest := Users(s.pcs, s.pcs[t].mutex) - {t};
    assert |rest| == 0;
    assert t' !in rest;
  }

  lemma StepOneMutex(s: LockState, a: Action)
    requires Inv(s) && Enabled(s, a)
    ensures OneMutex(Apply(s, a))
  {
    if a.Leave? && s.refs[s.pcs[a.t].mutex] == 1 {
      forall t | t in s.pcs && t != a.t ensures s.pcs[t].user != s.pcs[a.t].user {
        LastOne(s, a.t, t);
      }
    }
  }

  // ----- Runs -----

  ghost function After(acts: seq<Action>): Option<LockState> {
    if acts == [] then Some(LockState(map[], map[], map[], map[], map[]))
    else match After(acts[..|acts| - 1])
         case None => None
         case Some(s) =>
           var a := acts[|acts| - 1];
           if Enabled(s, a) then Some(Apply(s, a)) else None
  }

  lemma {:induction false} InvAlways(acts: seq<Action>)
    requires After(acts).Some?
    ensures Inv(After(acts).value)
  {
    if acts != [] {
      InvAlways(acts[..|acts| - 1]);
      var s, a := After(acts[..|acts| - 1]).value, acts[|acts| - 1];
      StepOneMutex(s, a);
      StepCounts(s, a);
      StepExclusive(s, a);
    }
  }

  /** In every interleaving: threads of one user share one mutex object, at most one of them
      is in the critical section, `refs` counts them, and the map has an entry for the user
      exactly while their number is positive. */
  lemma RefreshLockSafe(acts: seq<Action>, s: LockState, user: UserId)
    requires After(acts) == Some(s)
    ensures forall t, t' | t in Present(s, user) && t' in Present(s, user) :: s.pcs[t].mutex == s.pcs[t'].mutex
    ensures forall t, t' | t in Present(s, user) && t' in Present(s, user)
                           && s.pcs[t].Holding? && s.pcs[t'].Holding? :: t == t'
    ensures user in s.users <==> |Present(s, user)| > 0
    ensures user in s.users ==> s.users[user] in s.refs && s.refs[s.users[user]] == |Present(s, user)|
  {
    InvAlways(acts);
    if user in s.users {
      assert Present(s, user) == Users(s.pcs, s.users[user]);
    } else {
      assert Present(s, user) == {};
    }
  }

  // ----- Refinement: a mutex per user -----

  ghost predicate InCritical(s: LockState, t: Tid, user: UserId) {
    t in s.pcs && s.pcs[t].Holding? && s.pcs[t].user == user
  }

  /** Locking succeeds only when nobody is in the user's critical section and puts exactly
      the caller there; unlocking takes it out; entering and leaving change no section. */
  lemma RefinesUserMutex(acts: seq<Action>, s: LockState, a: Action, t: Tid, user: UserId)
    requires After(acts) == Some(s) && Enabled(s, a)
    ensures a.Lock? && s.pcs[a.t].user == user ==>
              !InCritical(s, t, user) && (InCritical(Apply(s, a), t, user) <==> t == a.t)
    ensures a.Unlock? && s.pcs[a.t].user == user ==>
              InCritical(s, a.t, user) && !InCritical(Apply(s, a), t, user)
    ensures a.Enter? || a.Leave? || s.pcs[a.t].user != user ==>
              (InCritical(Apply(s, a), t, user) <==> InCritical(s, t, user))
  {
    InvAlways(acts);
    match a
    case Enter(_, _, _) =>
    case Leave(_) =>
    case Lock(_) =>
      if InCritical(s, t, user) && s.pcs[a.t].user == user {
        assert false;
      }
    case Unlock(_) =>
  }

  // ----- The code -----

  class UserMutex {
    var refs: int
    var locked: bool
    ghost const id: MutexId

    constructor (ghost id: MutexId)
      ensures refs == 0 && !locked && this.id == id
    {
      refs, locked := 0, false;
      this.id := id;
    }
  }

  lemma FreshId(ids: set<MutexId>) returns (id: MutexId)
    ensures forall i | i in ids :: i < id
  {
    if ids == {} {
      id := 0;
    } else {
      var i :| i in ids;
      var above := FreshId(ids - {i});
      id := if above > i then above else i + 1;
      assert forall j | j in ids :: j == i || j in ids - {i};
    }
  }

  /** The map of lockLocalUserRefresh. `state` is the machine's view of it, `mutexes` names
      every mutex created so far. Each section is a step of the machine, so what is proved
      of every run holds of every interleaving of these methods. */
  class RefreshLocks {
    var users: map<UserId, UserMutex>
    ghost var state: LockState
    ghost var mutexes: map<MutexId, UserMutex>

    ghost predicate Valid()
      reads this, mutexes.Values
    {
      && mutexes.Keys == state.refs.Keys == state.holder.Keys
      && (forall i | i in mutexes ::
            var m := mutexes[i]; m.id == i && m.refs == state.refs[i] && m.locked == state.holder[i].Some?)
      && users.Keys == state.users.Keys
      && (forall u | u in users :: state.users[u] in mutexes && users[u] == mutexes[state.users[u]])
    }

    constructor ()
      ensures Valid() && state == After([]).value
    {
      users, mutexes := map[], map[];
      state := LockState(map[], map[], map[], map[], map[]);
    }

    /** Under refreshMu: find or create the user's entry and count the caller. */
    method Enter(ghost t: Tid, userID: UserId) returns (entry: UserMutex, ghost a: Action)
      requires Valid() && t !in state.pcs
      modifies this, mutexes.Values
      ensures Valid() && a.Enter? && a.t == t && a.user == userID
      ensures Enabled(old(state), a) && state == Apply(old(state), a)
      ensures entry == mutexes[state.pcs[t].mutex]
    {
      if userID !in users {
        entry, a := Create(t, userID);
      } else {
        entry := users[userID];
        a := Action.Enter(t, userID, state.users[userID]);
        entry.refs := entry.refs + 1;
        state := Apply(state, a);
      }
    }

    method Create(ghost t: Tid, userID: UserId) returns (entry: UserMutex, ghost a: Action)
      requires Valid() && t !in state.pcs && userID !in users
      modifies this
      ensures Valid() && a.Enter? && a.t == t && a.user == userID
      ensures Enabled(old(state), a) && state == Apply(old(state), a)
      ensures entry == mutexes[state.pcs[t].mutex]
    {
      ghost var id := FreshId(state.refs.Keys);
      a := Action.Enter(t, userID, id);
      entry := new UserMutex(id);
      entry.refs := entry.refs + 1;
      users := users[userID := entry];
      mutexes := mutexes[id := entry];
      state := Apply(state, a);
    }

    /** entry.mu.Lock() returns, which it does only when the mutex is unlocked. */
    method Lock(ghost t: Tid, entry: UserMutex) returns (ghost a: Action)
      requires Valid() && t in state.pcs && state.pcs[t].Waiting? && state.pcs[t].mutex in mutexes
      requires entry == mutexes[state.pcs[t].mutex] && !entry.locked
      modifies this`state, entry
      ensures Valid() && a == Action.Lock(t) && Enabled(old(state), a) && state == Apply(old(state), a)
    {
      a := Action.Lock(t);
      entry.locked := true;
      state := Apply(state, a);
    }

    method Unlock(ghost t: Tid, entry: UserMutex) returns (ghost a: Action)
      requires Valid() && t in state.pcs && state.pcs[t].Holding? && state.pcs[t].mutex in mutexes
      requires entry == mutexes[state.pcs[t].mutex]
      modifies this`state, entry
      ensures Valid() && a == Action.Unlock(t) && Enabled(old(state), a) && state == Apply(old(state), a)
    {
      a := Action.Unlock(t);
      entry.locked := false;
      state := Apply(state, a);
    }

    /** Under refreshMu: uncount the caller and drop the entry nobody uses. */
    method Leave(ghost t: Tid, userID: UserId, entry: UserMutex) returns (ghost a: Action)
      requires Valid() && t in state.pcs && state.pcs[t] == Leaving(userID, state.pcs[t].mutex)
      requires state.pcs[t].mutex in mutexes
      requires entry == mutexes[state.pcs[t].mutex]
      modifies this, entry
      ensures Valid() && a == Action.Leave(t) && Enabled(old(state), a) && state == Apply(old(state), a)
    {
      a := Action.Leave(t);
      entry.refs := entry.refs - 1;
      if entry.refs == 0 {
        users := users - {userID};
      }
      state := Apply(state, a);
    }
  }
}
