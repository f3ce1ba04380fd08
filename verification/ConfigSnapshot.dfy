/** The configuration snapshot of one request: two cached halves over files that
    others may rewrite at any time (src/config.ts, RuntimeConfigRequestSnapshot,
    withRuntimeConfigSnapshot, invalidateRuntimeConfigSnapshot, getRuntimeEnv). */
module ConfigSnapshot {
  import opened EnvFiles
  import opened Identifiers

  datatype Kind = Environment | SecretVault

  /** What is on disk, and in the process environment, at one moment. `vault`
      holds the entries that the vault file decodes to. */
  datatype World = World(process: Env, paths: seq<string>, files: map<string, string>, vault: Env)
  {
    /** The last assignment of the key in the existing files joined by newlines. */
    ghost function FileValue(key: string): Option<string> {
      LastAssignment(Lines(Distinct(paths), files), key)
    }

    ghost function Value(kind: Kind, key: string): Option<string> {
      if kind == Environment then FileValue(key) else Lookup(vault, key)
    }

    /** The half of the snapshot as this world defines it. */
    ghost predicate Defines(kind: Kind, half: Env) {
      if kind == Environment then Holds(half, Lines(Distinct(paths), files)) else half == vault
    }
  }

  lemma DefinedValue(w: World, kind: Kind, half: Env, key: string)
    requires w.Defines(kind, half)
    ensures Lookup(half, key) == w.Value(kind, key)
  {
  }

  method Capture(w: World, kind: Kind) returns (half: Env)
    ensures w.Defines(kind, half)
  {
    if kind == Environment {
      var active;
      active, half := CaptureEnvFiles(w.paths, w.files);
    } else {
      half := w.vault;
    }
  }

  /** Each half is a capture or absent. `capturedEnvironment` and `capturedVault`
      remember the world of the last capture. */
  class RuntimeConfigRequestSnapshot {
    var environment: Option<Env>
    var secretVault: Option<Env>
    ghost var capturedEnvironment: World
    ghost var capturedVault: World

    ghost function Half(kind: Kind): Option<Env>
      reads this
    {
      if kind == Environment then environment else secretVault
    }

    ghost function Captured(kind: Kind): World
      reads this
    {
      if kind == Environment then capturedEnvironment else capturedVault
    }

    ghost predicate Valid()
      reads this
    {
      && (environment.Some? ==> capturedEnvironment.Defines(Environment, environment.value))
      && (secretVault.Some? ==> capturedVault.Defines(SecretVault, secretVault.value))
    }

    constructor (w: World)
      ensures Valid()
      ensures Half(Environment).Some? && Half(SecretVault).Some? && Captured(Environment) == w
          && Captured(SecretVault) == w
    {
      capturedEnvironment, capturedVault := w, w;
      var env := Capture(w, Environment);
      var vault := Capture(w, SecretVault);
      environment, secretVault := Some(env), Some(vault);
    }

    /** A read serves the last capture, and captures only when there is none. */
    method EnvironmentValue(w: World, key: string) returns (value: Option<string>)
      requires Valid()
      modifies this
      ensures Valid() && Half(Environment).Some? && Half(SecretVault) == old(Half(SecretVault))
          && Captured(SecretVault) == old(Captured(SecretVault))
      ensures Captured(Environment) == if old(Half(Environment).Some?) then old(Captured(Environment)) else w
      ensures value == Captured(Environment).Value(Environment, key)
    {
      if environment.None? {
        var env := Capture(w, Environment);
        environment, capturedEnvironment := Some(env), w;
      }
      DefinedValue(capturedEnvironment, Environment, environment.value, key);
      value := Lookup(environment.value, key);
    }

    method SecretValue(w: World, name: string) returns (value: Option<string>)
      requires Valid()
      modifies this
      ensures Valid() && Half(SecretVault).Some? && Half(Environment) == old(Half(Environment))
          && Captured(Environment) == old(Captured(Environment))
      ensures Captured(SecretVault) == if old(Half(SecretVault).Some?) then old(Captured(SecretVault)) else w
      ensures value == Captured(SecretVault).Value(SecretVault, name)
    {
      if secretVault.None? {
        secretVault, capturedVault := Some(w.vault), w;
      }
      value := Lookup(secretVault.value, name);
    }

    /** Drops one half, keeps the other, and reads nothing. */
    method Invalidate(kind: Kind)
      requires Valid()
      modifies this
      ensures Valid() && Half(kind).None? && forall other | other != kind :: Half(other) == old(Half(other))
      ensures forall k :: Captured(k) == old(Captured(k))
    {
      if kind == Environment {
        environment := None;
      } else {
        secretVault := None;
      }
    }
  }

  // ---------------------------------------------------------------- whole requests

  datatype Op = ReadEnv(key: string, fallback: string) | ReadSecret(name: string) | Drop(kind: Kind)

  /** A request's work; `Scope` opens a snapshot scope of its own. */
  datatype Work = Done | Then(op: Op, rest: Work) | Scope(body: Work, rest: Work)

  /** A snapshot as a value: the moment of each half's capture, while it is kept. */
  datatype Snapshot = Snapshot(environment: Option<nat>, vault: Option<nat>)
  {
    function Half(kind: Kind): Option<nat> {
      if kind == Environment then environment else vault
    }

    function With(kind: Kind, half: Option<nat>): Snapshot {
      if kind == Environment then Snapshot(half, vault) else Snapshot(environment, half)
    }
  }

  /** The moment whose files a read at moment `now` sees. */
  function Seen(s: Option<Snapshot>, kind: Kind, now: nat): nat {
    if s.None? || s.value.Half(kind).None? then now else s.value.Half(kind).value
  }

  /** What one operation returns, and what it leaves cached. The process
      environment is live and comes first, and then the snapshot is not touched. */
  ghost function Answer(world: nat -> World, s: Option<Snapshot>, now: nat, op: Op): Option<string> {
    match op
    case ReadEnv(key, fallback) =>
      if key in world(now).process then Some(world(now).process[key])
      else
        var value := world(Seen(s, Environment, now)).Value(Environment, key);
        if value.Some? then value else Some(fallback)
    case ReadSecret(name) => world(Seen(s, SecretVault, now)).Value(SecretVault, name)
    case Drop(_) => None
  }

  ghost predicate Touches(world: nat -> World, now: nat, op: Op, kind: Kind) {
    match op
    case ReadEnv(key, _) => kind == Environment && key !in world(now).process
    case ReadSecret(_) => kind == SecretVault
    case Drop(_) => false
  }

  ghost function After(world: nat -> World, s: Snapshot, now: nat, op: Op): Snapshot {
    if op.Drop? then s.With(op.kind, None)
    else
      var kind := if op.ReadEnv? then Environment else SecretVault;
      if Touches(world, now, op, kind) then s.With(kind, Some(Seen(Some(s), kind, now))) else s
  }

  /** The object holds the halves that the value says, captured at its moments. */
  ghost predicate Represents(world: nat -> World, snapshot: RuntimeConfigRequestSnapshot, s: Snapshot)
    reads snapshot
  {
    && snapshot.Valid()
    && forall kind :: (snapshot.Half(kind).Some? <==> s.Half(kind).Some?)
                      && (s.Half(kind).Some? ==> snapshot.Captured(kind) == world(s.Half(kind).value))
  }

  /** One operation of a request on its snapshot object. */
  method Perform(snapshot: RuntimeConfigRequestSnapshot, world: nat -> World, ghost s: Snapshot, now: nat, op: Op)
      returns (answer: Option<string>)
    requires Represents(world, snapshot, s)
    modifies snapshot
    ensures Represents(world, snapshot, After(world, s, now, op))
    ensures answer == Answer(world, Some(s), now, op)
  {
    match op
    case ReadEnv(key, fallback) =>
      if key in world(now).process {
        return Some(world(now).process[key]);
      }
      var value := snapshot.EnvironmentValue(world(now), key);
      answer := if value.Some? then value else Some(fallback);
    case ReadSecret(name) =>
      answer := snapshot.SecretValue(world(now), name);
    case Drop(kind) =>
      snapshot.Invalidate(kind);
      answer := None;
  }

  datatype Run = Run(now: nat, store: Option<Snapshot>, answers: seq<Option<string>>)

  /** Work under `store`, the snapshot of the enclosing scope, if any. Every
      operation takes one moment. */
  ghost function Exec(world: nat -> World, work: Work, now: nat, store: Option<Snapshot>): Run
    decreases work
  {
    match work
    case Done => Run(now, store, [])
    case Then(op, rest) =>
      var after := if store.Some? then Some(After(world, store.value, now, op)) else None;
      var tail := Exec(world, rest, now + 1, after);
      tail.(answers := [Answer(world, store, now, op)] + tail.answers)
    case Scope(body, rest) =>
      var inner := Exec(world, body, now, if store.Some? then store else Some(Snapshot(Some(now), Some(now))));
      var tail := Exec(world, rest, inner.now, if store.Some? then inner.store else None);
      tail.(answers := inner.answers + tail.answers)
  }

  function Append(a: Work, b: Work): Work {
    match a
    case Done => b
    case Then(op, rest) => Then(op, Append(rest, b))
    case Scope(body, rest) => Scope(body, Append(rest, b))
  }

  /** The same operations without any scope of their own. */
  function Flatten(work: Work): Work {
    match work
    case Done => Done
    case Then(op, rest) => Then(op, Flatten(rest))
    case Scope(body, rest) => Append(Flatten(body), Flatten(rest))
  }

  predicate Flat(work: Work) {
    match work
    case Done => true
    case Then(_, rest) => Flat(rest)
    case Scope(_, _) => false
  }

  lemma {:induction false} ExecAppend(world: nat -> World, a: Work, b: Work, now: nat, store: Option<Snapshot>)
    requires Flat(a)
    ensures var first := Exec(world, a, now, store);
            var second := Exec(world, b, first.now, first.store);
            Exec(world, Append(a, b), now, store) == second.(answers := first.answers + second.answers)
    decreases a
  {
    match a
    case Done =>
      var second := Exec(world, b, now, store);
      assert [] + second.answers == second.answers;
    case Then(op, rest) =>
      var after := if store.Some? then Some(After(world, store.value, now, op)) else None;
      ExecAppend(world, rest, b, now + 1, after);
      var first := Exec(world, rest, now + 1, after);
      var second := Exec(world, b, first.now, first.store);
      assert [Answer(world, store, now, op)] + (first.answers + second.answers) == [Answer(world, store, now, op)]
             + first.answers + second.answers;
  }

  lemma {:induction false} FlattenIsFlat(work: Work)
    ensures Flat(Flatten(work))
    decreases work
  {
    match work
    case Done =>
    case Then(op, rest) => FlattenIsFlat(rest);
    case Scope(body, rest) =>
      FlattenIsFlat(body);
      FlattenIsFlat(rest);
      AppendIsFlat(Flatten(body), Flatten(rest));
  }

  lemma {:induction false} AppendIsFlat(a: Work, b: Work)
    requires Flat(a) && Flat(b)
    ensures Flat(Append(a, b))
    decreases a
  {
    if a.Then? {
      AppendIsFlat(a.rest, b);
    }
  }

  lemma {:induction false} StoreStays(world: nat -> World, work: Work, now: nat, store: Option<Snapshot>)
    ensures Exec(world, work, now, store).store.Some? <==> store.Some?
    decreases work
  {
    match work
    case Done =>
    case Then(op, rest) =>
      StoreStays(world, rest, now + 1, if store.Some? then Some(After(world, store.value, now, op)) else None);
    case Scope(body, rest) =>
      var inner := Exec(world, body, now, if store.Some? then store else Some(Snapshot(Some(now), Some(now))));
      StoreStays(world, body, now, if store.Some? then store else Some(Snapshot(Some(now), Some(now))));
      StoreStays(world, rest, inner.now, if store.Some? then inner.store else None);
  }

  /** Nested scopes share their owner: inside a scope, however deeply the work
      nests further scopes, it answers and caches as if it opened none. */
  lemma {:induction false} NestedScopesShare(world: nat -> World, work: Work, now: nat, s: Snapshot)
    ensures Exec(world, work, now, Some(s)) == Exec(world, Flatten(work), now, Some(s))
    decreases work
  {
    match work
    case Done =>
    case Then(op, rest) => NestedScopesShare(world, rest, now + 1, After(world, s, now, op));
    case Scope(body, rest) =>
      NestedScopesShare(world, body, now, s);
      var inner := Exec(world, body, now, Some(s));
      StoreStays(world, body, now, Some(s));
      NestedScopesShare(world, rest, inner.now, inner.store.value);
      FlattenIsFlat(body);
      ExecAppend(world, Flatten(body), Flatten(rest), now, Some(s));
  }

  // ---------------------------------------------------------------- which files a read sees

  function Ops(work: Work): seq<Op>
    requires Flat(work)
  {
    if work.Done? then [] else [work.op] + Ops(work.rest)
  }

  /** The snapshot after the first `n` operations of a scope that began at `now`. */
  ghost function StateAfter(world: nat -> World, ops: seq<Op>, now: nat, s: Snapshot, n: nat): Snapshot
    requires n <= |ops|
  {
    if n == 0 then s else After(world, StateAfter(world, ops, now, s, n - 1), now + n - 1, ops[n - 1])
  }

  lemma {:induction false} StateFromNext(world: nat -> World, ops: seq<Op>, now: nat, s: Snapshot, n: nat)
    requires ops != [] && n < |ops|
    ensures StateAfter(world, ops, now, s, n + 1)
            == StateAfter(world, ops[1..], now + 1, After(world, s, now, ops[0]), n)
  {
    hide After;
    if n > 0 {
      StateFromNext(world, ops, now, s, n - 1);
      assert ops[n] == ops[1..][n - 1];
    } else {
      assert StateAfter(world, ops, now, s, 0) == s;
    }
  }

  /** Each operation of a scope answers from the state that the earlier ones left. */
  lemma {:induction false} AnswersInOrder(world: nat -> World, work: Work, now: nat, s: Snapshot, n: nat)
    requires Flat(work) && n < |Ops(work)|
    ensures var answers := Exec(world, work, now, Some(s)).answers;
            |answers| == |Ops(work)|
                && answers[n] == Answer(world, Some(StateAfter(world, Ops(work), now, s, n)), now + n, Ops(work)[n])
    decreases work
  {
    hide After, Answer;
    var next := After(world, s, now, work.op);
    AnswerCount(world, work.rest, now + 1, next);
    if n > 0 {
      AnswersInOrder(world, work.rest, now + 1, next, n - 1);
      assert Ops(work)[1..] == Ops(work.rest);
      StateFromNext(world, Ops(work), now, s, n - 1);
    }
  }

  lemma {:induction false} AnswerCount(world: nat -> World, work: Work, now: nat, s: Snapshot)
    requires Flat(work)
    ensures |Exec(world, work, now, Some(s)).answers| == |Ops(work)|
    decreases work
  {
    if work.Then? {
      AnswerCount(world, work.rest, now + 1, After(world, s, now, work.op));
    }
  }

  /** The captures of a snapshot lie in its past. */
  ghost predicate Past(s: Snapshot, now: nat) {
    forall kind :: s.Half(kind).Some? ==> s.Half(kind).value <= now
  }

  lemma {:induction false} StaysPast(world: nat -> World, ops: seq<Op>, now: nat, s: Snapshot, n: nat)
    requires Past(s, now) && n <= |ops|
    ensures Past(StateAfter(world, ops, now, s, n), now + n)
  {
    if n > 0 {
      StaysPast(world, ops, now, s, n - 1);
      var before, after := StateAfter(world, ops, now, s, n - 1), StateAfter(world, ops, now, s, n);
      forall kind ensures after.Half(kind).Some? ==> after.Half(kind).value <= now + n {
        assert before.Half(kind).Some? ==> before.Half(kind).value <= now + n - 1;
      }
    }
  }

  /** A kept half stays until it is dropped; dropping the other half does not touch it. */
  lemma {:induction false} KeptUntilDropped(world: nat -> World, ops: seq<Op>, now: nat, s: Snapshot, kind: Kind,
      m: nat, n: nat)
    requires m <= n <= |ops| && StateAfter(world, ops, now, s, m).Half(kind).Some?
    requires forall i | m <= i < n :: ops[i] != Drop(kind)
    ensures StateAfter(world, ops, now, s, n).Half(kind) == StateAfter(world, ops, now, s, m).Half(kind)
  {
    if m < n {
      KeptUntilDropped(world, ops, now, s, kind, m, n - 1);
      assert ops[n - 1] != Drop(kind);
    }
  }

  /** After a drop, the half is absent or was captured later than the drop. */
  lemma {:induction false} FreshAfterDrop(world: nat -> World, ops: seq<Op>, now: nat, s: Snapshot, kind: Kind, d: nat,
      n: nat)
    requires d < n <= |ops| && ops[d] == Drop(kind)
    ensures var half := StateAfter(world, ops, now, s, n).Half(kind); half.Some? ==> half.value > now + d
  {
    if d < n - 1 {
      FreshAfterDrop(world, ops, now, s, kind, d, n - 1);
    }
  }

  /** Two reads of one kind see the files of the same moment exactly when no
      invalidation of that kind lies between them: invalidating the other kind
      refreshes nothing, and an invalidation is never missed. */
  lemma ReadsAgree(world: nat -> World, ops: seq<Op>, now: nat, s: Snapshot, kind: Kind, i: nat, j: nat)
    requires Past(s, now) && i < j < |ops|
    requires Touches(world, now + i, ops[i], kind)
    ensures Seen(Some(StateAfter(world, ops, now, s, i)), kind, now + i)
            == Seen(Some(StateAfter(world, ops, now, s, j)), kind, now + j)
            <==> forall d | i < d < j :: ops[d] != Drop(kind)
  {
    var seen := Seen(Some(StateAfter(world, ops, now, s, i)), kind, now + i);
    assert StateAfter(world, ops, now, s, i + 1).Half(kind) == Some(seen);
    if forall d | i < d < j :: ops[d] != Drop(kind) {
      KeptUntilDropped(world, ops, now, s, kind, i + 1, j);
    } else {
      var d :| i < d < j && ops[d] == Drop(kind);
      FreshAfterDrop(world, ops, now, s, kind, d, j);
      StaysPast(world, ops, now, s, i);
    }
  }

  /** A read in a scope is the last-assignment lookup in the joined files of the
      moment it sees, unless the live process environment has the key. */
  lemma ReadIsLookup(world: nat -> World, s: Option<Snapshot>, now: nat, key: string, fallback: string)
    ensures var w := world(Seen(s, Environment, now));
            var paths := Distinct(w.paths);
            Answer(world, s, now, ReadEnv(key, fallback)) == Some(
              if key in world(now).process then world(now).process[key]
              else if Joined(paths, w.files).None? then fallback
              else LastAssignment(Split(Joined(paths, w.files).value), key).GetOr(fallback))
  {
    var w := world(Seen(s, Environment, now));
    LinesOfJoined(Distinct(w.paths), w.files);
    hide Split, Distinct, Assignment, Joined, Lines;
  }
}
