/**
 The kill switch: every process keeps local flags and shares keys in a Redis whose operations may fail.
 First the steps as functions on values, with the laws of any interleaving; then the classes.
 */
module KillSwitches {

  type User = string

  /** `None` and the empty text for a user both mean the whole system. */
  datatype Scope = Global | Of(user: User)

  /** A read is answered or raises; a write may raise before or after it took effect. */
  datatype Read = Answered | ReadFailed
  datatype Write = Applied | ReplyLost | WriteFailed
  datatype Reads = Reads(system: Read, user: Read)

  /** One process: connected at start-up or not, its global flag, and the users it has flagged. */
  datatype Proc = Proc(connected: bool, halted: bool, users: set<User>)

  /** The shared keys that hold "true". */
  datatype Keys = Keys(halted: bool, users: set<User>)

  predicate Reaches(w: Write) { !w.WriteFailed? }

  /** The flags of the process alone say that the scope is halted. */
  predicate Observes(p: Proc, scope: Scope) {
    p.halted || (scope.Of? && scope.user in p.users)
  }

  predicate KeySet(k: Keys, scope: Scope) {
    match scope
    case Global => k.halted
    case Of(user) => user in k.users
  }

  // ----- the three operations

  /** `is_halted`: the answer, and what the process remembers of it. */
  function Look(p: Proc, k: Keys, scope: Scope, got: Reads): (Proc, bool) {
    if Observes(p, scope) then (p, true)
    else if !p.connected || got.system.ReadFailed? then (p, false)
    else if k.halted then (p.(halted := true), true)
    else if scope.Of? && got.user.Answered? && scope.user in k.users then
      (p.(users := p.users + {scope.user}), true)
    else (p, false)
  }

  function Flag(p: Proc, scope: Scope): Proc {
    match scope
    case Global => p.(halted := true)
    case Of(user) => p.(users := p.users + {user})
  }

  function SetKey(k: Keys, scope: Scope): Keys {
    match scope
    case Global => k.(halted := true)
    case Of(user) => k.(users := k.users + {user})
  }

  function ClearKey(k: Keys, scope: Scope): Keys {
    match scope
    case Global => k.(halted := false)
    case Of(user) => k.(users := k.users - {user})
  }

  /** `trip`: the third result tells whether the mass-cancel was launched. */
  function TripStep(p: Proc, k: Keys, scope: Scope, got: Reads, write: Write): (Proc, Keys, bool) {
    var (q, halted) := Look(p, k, scope, got);
    if halted then (q, k, false)
    else (Flag(q, scope), if p.connected && Reaches(write) then SetKey(k, scope) else k, true)
  }

  /** `reset`: a global reset forgets every user of this process, but deletes only the global key. */
  function ResetStep(p: Proc, k: Keys, scope: Scope, write: Write): (Proc, Keys) {
    (match scope
     case Global => p.(halted := false, users := {})
     case Of(user) => p.(users := p.users - {user}),
     if p.connected && Reaches(write) then ClearKey(k, scope) else k)
  }

  // ----- any interleaving of processes

  datatype Sys = Sys(procs: seq<Proc>, keys: Keys)

  datatype Op =
    | DoCheck(pid: nat, scope: Scope, got: Reads)
    | DoTrip(pid: nat, scope: Scope, got: Reads, write: Write)
    | DoReset(pid: nat, scope: Scope, write: Write)

  function Step(s: Sys, op: Op): Sys {
    if op.pid >= |s.procs| then s
    else
      var p := s.procs[op.pid];
      match op
      case DoCheck(pid, scope, got) => s.(procs := s.procs[pid := Look(p, s.keys, scope, got).0])
      case DoTrip(pid, scope, got, write) =>
        var (q, k, _) := TripStep(p, s.keys, scope, got, write);
        Sys(s.procs[pid := q], k)
      case DoReset(pid, scope, write) =>
        var (q, k) := ResetStep(p, s.keys, scope, write);
        Sys(s.procs[pid := q], k)
  }

  function RunOps(s: Sys, ops: seq<Op>): Sys
    decreases |ops|
  {
    if ops == [] then s else RunOps(Step(s, ops[0]), ops[1..])
  }

  /** A reset by process `pid` that takes in the scope. */
  predicate Covers(op: Op, pid: nat, scope: Scope) {
    op.DoReset? && op.pid == pid && (op.scope.Global? || op.scope == scope)
  }

  predicate Halts(s: Sys, pid: nat, scope: Scope, got: Reads) {
    pid < |s.procs| && Look(s.procs[pid], s.keys, scope, got).1
  }

  predicate Launches(s: Sys, op: Op) {
    op.DoTrip? && op.pid < |s.procs| && TripStep(s.procs[op.pid], s.keys, op.scope, op.got, op.write).2
  }

  /** Process `pid` has just seen a halt of the scope, or tripped it. */
  predicate Sees(s: Sys, op: Op, pid: nat, scope: Scope) {
    op.pid == pid < |s.procs| && !op.DoReset? && op.scope == scope
    && (op.DoTrip? || Halts(s, pid, scope, op.got))
  }

  lemma {:induction false} ObservationLasts(s: Sys, ops: seq<Op>, pid: nat, scope: Scope)
    requires pid < |s.procs| && Observes(s.procs[pid], scope)
    requires forall i :: 0 <= i < |ops| ==> !Covers(ops[i], pid, scope)
    ensures var t := RunOps(s, ops); |t.procs| == |s.procs| && Observes(t.procs[pid], scope)
    decreases |ops|
  {
    if ops != [] {
      var t := Step(s, ops[0]);
      assert Observes(t.procs[pid], scope);
      ObservationLasts(t, ops[1..], pid, scope);
    }
  }

  /**
   Fail-safe: once a process has tripped or observed a halt of a scope, it answers "halted" for that
   scope after any steps of any processes with any Redis failures, as long as the process itself does
   not reset a covering scope.
   */
  lemma HaltIsSticky(s: Sys, op: Op, ops: seq<Op>, pid: nat, scope: Scope, got: Reads)
    requires Sees(s, op, pid, scope)
    requires forall i :: 0 <= i < |ops| ==> !Covers(ops[i], pid, scope)
    ensures Halts(RunOps(Step(s, op), ops), pid, scope, got)
  {
    ObservationLasts(Step(s, op), ops, pid, scope);
  }

  /**
   What the process's own reset does to what it observes: a flagged scope is forgotten exactly by a
   global reset, or by the reset of that user when no global halt was observed.
   */
  lemma ResetForgets(p: Proc, k: Keys, scope: Scope, resetScope: Scope, write: Write)
    requires Observes(p, scope)
    ensures !Observes(ResetStep(p, k, resetScope, write).0, scope)
      <==> resetScope.Global? || (resetScope == scope && !p.halted)
  {
  }

  /** A failing read never hides a halt the process knows of; more answers can only add halts. */
  lemma FailuresNeverUnhalt(p: Proc, k: Keys, scope: Scope, some: Reads, all: Reads)
    requires Look(p, k, scope, some).1 && all == Reads(Answered, Answered)
    ensures Look(p, k, scope, all).1
    ensures forall k': Keys, later: Reads :: Look(Look(p, k, scope, some).0, k', scope, later).1
  {
  }

  /**
   A trip launches the mass-cancel exactly if it finds no halt.  Then its process observes the halt, and the key is
   set if the process has a Redis client and the write arrives; otherwise it changes no key.
   */
  lemma TripLaunchesIff(p: Proc, k: Keys, scope: Scope, got: Reads, write: Write)
    ensures var (q, l, launched) := TripStep(p, k, scope, got, write);
      && (launched <==> !Look(p, k, scope, got).1) && Observes(q, scope)
      && (launched && p.connected && Reaches(write) ==> KeySet(l, scope))
      && (!launched || !p.connected || !Reaches(write) ==> l == k)
      && (forall other :: other != scope ==> (KeySet(l, other) <==> KeySet(k, other)))
      && (launched ==>
            forall other :: Observes(q, other) <==> Observes(p, other) || scope.Global? || other == scope)
  {
  }

  /**
   A question whose answer the process does not know goes to Redis, if there is a client: the answer is "halted"
   exactly if the global key is read and set, or else the user's, and the process remembers just what it read.
   */
  lemma LookLearns(p: Proc, k: Keys, scope: Scope, got: Reads)
    ensures var (q, halted) := Look(p, k, scope, got);
      var read := !Observes(p, scope) && p.connected && got.system.Answered?;
      var global := read && k.halted;
      var user := read && !k.halted && scope.Of? && got.user.Answered? && scope.user in k.users;
      && (halted <==> Observes(p, scope) || global || user)
      && q.connected == p.connected && (q.halted <==> p.halted || global)
      && q.users == (if user then p.users + {scope.user} else p.users)
  {
  }

  /** A reset makes its process forget the scope, a global one all users too, and deletes just its own key. */
  lemma ResetClears(p: Proc, k: Keys, scope: Scope, write: Write)
    ensures var (q, l) := ResetStep(p, k, scope, write);
      && (q.halted <==> p.halted && scope.Of?)
      && (forall u :: u in q.users <==> u in p.users && scope.Of? && u != scope.user)
      && forall other :: KeySet(l, other) <==> KeySet(k, other) && !(other == scope && p.connected && Reaches(write))
  {
  }

  /** One process launches at most one mass-cancel for a scope until it resets a covering scope itself. */
  lemma OneLaunchPerProcess(s: Sys, first: Op, ops: seq<Op>, second: Op)
    requires Launches(s, first) && second.DoTrip? && second.pid == first.pid && second.scope == first.scope
    requires forall i :: 0 <= i < |ops| ==> !Covers(ops[i], first.pid, first.scope)
    ensures !Launches(RunOps(Step(s, first), ops), second)
  {
    ObservationLasts(Step(s, first), ops, first.pid, first.scope);
  }

  // ----- a Redis that works

  predicate Healthy(op: Op) {
    match op
    case DoCheck(_, _, got) => got == Reads(Answered, Answered)
    case DoTrip(_, _, got, write) => got == Reads(Answered, Answered) && write.Applied?
    case DoReset(_, _, write) => write.Applied?
  }

  predicate Connected(s: Sys) {
    forall i :: 0 <= i < |s.procs| ==> s.procs[i].connected
  }

  lemma {:induction false} KeyLasts(s: Sys, ops: seq<Op>, scope: Scope)
    requires KeySet(s.keys, scope) && Connected(s)
    requires forall i :: 0 <= i < |ops| ==> !(ops[i].DoReset? && ops[i].scope == scope)
    ensures KeySet(RunOps(s, ops).keys, scope) && Connected(RunOps(s, ops))
    decreases |ops|
  {
    if ops != [] {
      KeyLasts(Step(s, ops[0]), ops[1..], scope);
    }
  }

  /**
   With a working Redis a trip halts the scope in every process, and a global trip every user's as well, and
   no process launches a second mass-cancel for it, until some process resets exactly the tripped scope.  A
   global reset does not lift the halt of a user.
   */
  lemma TripReachesEveryone(s: Sys, first: Op, ops: seq<Op>, pid: nat, scope: Scope)
    requires Connected(s) && Launches(s, first) && Reaches(first.write)
    requires first.scope.Global? || first.scope == scope
    requires forall i :: 0 <= i < |ops| ==> !(ops[i].DoReset? && ops[i].scope == first.scope)
    requires pid < |RunOps(Step(s, first), ops).procs|
    ensures Halts(RunOps(Step(s, first), ops), pid, scope, Reads(Answered, Answered))
    ensures forall second: Op :: second.DoTrip? && second.scope == scope && Healthy(second)
              ==> !Launches(RunOps(Step(s, first), ops), second)
  {
    var t := Step(s, first);
    KeyLasts(t, ops, first.scope);
  }

  /**
   A trip of a user is remembered through a following global reset if and only if the process has a Redis
   client, and the user's key was set already, or no halt was found beforehand and the write reached Redis; a
   trip during a halt that is already in force records nothing.
   */
  lemma UserTripThenGlobalReset(p: Proc, k: Keys, user: User, got: Reads, write: Write)
    ensures var (q, k1, _) := TripStep(p, k, Of(user), got, write);
      var (r, k2) := ResetStep(q, k1, Global, Applied);
      (Look(r, k2, Of(user), Reads(Answered, Answered)).1
       <==> p.connected && (user in k.users || (!Look(p, k, Of(user), got).1 && Reaches(write))))
  {
  }

  // ----- the objects

  /** The shared store. */
  class RedisStore {
    var halted: bool
    var users: set<User>

    constructor ()
      ensures !halted && users == {}
    {
      halted, users := false, {};
    }
  }

  class KillSwitch {
    const redis: RedisStore?
    var localHalted: bool
    var userHalted: map<User, bool>
    var massCancels: nat

    ghost function View(): Proc
      reads this
    {
      Proc(redis != null, localHalted, set u | u in userHalted && userHalted[u])
    }

    ghost function Shared(): Keys
      reads redis
    {
      if redis == null then Keys(false, {}) else Keys(redis.halted, redis.users)
    }

    constructor (redis: RedisStore?)
      ensures View() == Proc(redis != null, false, {}) && this.redis == redis && massCancels == 0
    {
      this.redis := redis;
      localHalted, userHalted, massCancels := false, map[], 0;
    }

    method IsHalted(scope: Scope, got: Reads) returns (halted: bool)
      modifies this`localHalted, this`userHalted
      ensures (View(), halted) == Look(old(View()), Shared(), scope, got)
    {
      if localHalted {
        return true;
      }
      if scope.Of? && scope.user in userHalted && userHalted[scope.user] {
        return true;
      }
      if redis != null && got.system.Answered? {
        if redis.halted {
          localHalted := true;
          return true;
        }
        if scope.Of? && got.user.Answered? && scope.user in redis.users {
          userHalted := userHalted[scope.user := true];
          assert View().users == old(View().users) + {scope.user};
          return true;
        }
      }
      return false;
    }

    method Trip(scope: Scope, got: Reads, write: Write)
      modifies this, redis
      ensures (View(), Shared(), massCancels == old(massCancels) + 1)
           == TripStep(old(View()), old(Shared()), scope, got, write)
      ensures old(massCancels) <= massCancels <= old(massCancels) + 1
    {
      var halted := IsHalted(scope, got);
      if halted {
        return;
      }
      if scope.Global? {
        localHalted := true;
      } else {
        ghost var before := View().users;
        userHalted := userHalted[scope.user := true];
        assert View().users == before + {scope.user};
      }
      if redis != null && !write.WriteFailed? {
        if scope.Global? {
          redis.halted := true;
        } else {
          redis.users := redis.users + {scope.user};
        }
      }
      massCancels := massCancels + 1;
    }

    method Reset(scope: Scope, write: Write)
      modifies this`localHalted, this`userHalted, redis
      ensures (View(), Shared()) == ResetStep(old(View()), old(Shared()), scope, write)
    {
      if scope.Global? {
        localHalted := false;
        userHalted := map[];
        assert View().users == {};
      } else {
        userHalted := userHalted[scope.user := false];
        assert View().users == old(View()).users - {scope.user};
      }
      if redis != null && !write.WriteFailed? {
        if scope.Global? {
          redis.halted := false;
        } else {
          redis.users := redis.users - {scope.user};
        }
      }
    }
  }
}
