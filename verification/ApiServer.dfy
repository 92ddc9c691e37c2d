/**
 The Kubernetes API server as the finalizer protocol needs it. An object is the sequence of its
 versions; the resource version is an index into it, so a copy of an object, stale or not, is an index.
 */
module ApiServer {
  import opened Results

  datatype Meta = Meta(finalizers: seq<string>, deleting: bool)

  type Log = log: seq<Meta> | |log| > 0 witness [Meta([], false)]

  function Latest(log: Log): nat {
    |log| - 1
  }

  function Current(log: Log): Meta {
    log[Latest(log)]
  }

  /** `controllerutil.AddFinalizer`: appended unless present. */
  function WithFinalizer(list: seq<string>, finalizer: string): seq<string> {
    if finalizer in list then list else list + [finalizer]
  }

  /** `controllerutil.RemoveFinalizer`: every occurrence dropped. */
  function WithoutFinalizer(list: seq<string>, finalizer: string): (r: seq<string>)
    ensures forall f :: f in r <==> f in list && f != finalizer
  {
    if list == [] then []
    else
      var rest := WithoutFinalizer(list[1..], finalizer);
      assert list == [list[0]] + list[1..];
      if list[0] == finalizer then rest else [list[0]] + rest
  }

  /** A JSON merge patch (section 2 of RFC 7396): a list that differs is replaced as a whole. */
  datatype Patch = Patch(lock: Option<nat>, finalizers: Option<seq<string>>)

  function Diff(original: seq<string>, modified: seq<string>): Option<seq<string>> {
    if original == modified then None else Some(modified)
  }

  function Merged(list: seq<string>, patch: Patch): seq<string> {
    match patch.finalizers
    case None => list
    case Some(whole) => whole
  }

  /** The server's answer to a patch: the object's versions afterwards, or a refusal. */
  function Apply(log: Log, patch: Patch): (r: Result<Log>)
    ensures r.Ok? ==> log <= r.value && |r.value| <= |log| + 1
    ensures r.Ok? ==> Current(r.value).deleting == Current(log).deleting
    ensures r.Ok? && Current(log).deleting ==>
      forall f :: f in Current(r.value).finalizers ==> f in Current(log).finalizers
  {
    var now := Current(log);
    var list := Merged(now.finalizers, patch);
    if patch.lock.Some? && patch.lock.value != Latest(log) then Err(Conflict)
    else if now.deleting && exists f :: f in list && f !in now.finalizers then Err(Forbidden)
    else if list == now.finalizers then Ok(log)
    else Ok(log + [now.(finalizers := list)])
  }

  /** `AddFinalizer` of the cluster clients: the patch a copy of version `version` gives rise to. */
  function AddPatch(log: Log, version: nat, finalizer: string): Patch
    requires version < |log|
  {
    var copy := log[version].finalizers;
    Patch(Some(version), Diff(copy, WithFinalizer(copy, finalizer)))
  }

  function RemovePatch(log: Log, version: nat, finalizer: string): Patch
    requires version < |log|
  {
    var copy := log[version].finalizers;
    Patch(Some(version), Diff(copy, WithoutFinalizer(copy, finalizer)))
  }

  /** A locked addition succeeds only on the current version, and then adds its own element and nothing else. */
  lemma LockedAddIsOwn(log: Log, version: nat, finalizer: string)
    requires version < |log|
    ensures
      var r := Apply(log, AddPatch(log, version, finalizer));
      && (r.Ok? <==> version == Latest(log) && (Current(log).deleting ==> finalizer in Current(log).finalizers))
      && (r.Ok? ==> Current(r.value) == Current(log).(finalizers := WithFinalizer(Current(log).finalizers, finalizer)))
  {
    var copy := log[version].finalizers;
    if version == Latest(log) && finalizer !in copy {
      assert finalizer in WithFinalizer(copy, finalizer);
    }
  }

  lemma LockedRemoveIsOwn(log: Log, version: nat, finalizer: string)
    requires version < |log|
    ensures
      var r := Apply(log, RemovePatch(log, version, finalizer));
      && (r.Ok? <==> version == Latest(log))
      && (r.Ok? ==> Current(r.value) == Current(log).(finalizers := WithoutFinalizer(Current(log).finalizers, finalizer)))
  {
  }

  /** What another writer of the same object may do to it in one write, as far as `ours` is concerned. */
  predicate Foreign(before: Meta, after: Meta, ours: set<string>) {
    && (before.deleting ==> after.deleting)
    && (before.deleting ==> forall f :: f in after.finalizers ==> f in before.finalizers)
    && (forall f :: f in ours ==> (f in after.finalizers <==> f in before.finalizers))
  }

  /** Every version honours the two rules of deletion: it is final, and no finalizer appears after it started. */
  ghost predicate Lawful(log: Log) {
    forall i :: 0 <= i < Latest(log) ==>
      && (log[i].deleting ==> log[i + 1].deleting)
      && (log[i].deleting ==> forall f :: f in log[i + 1].finalizers ==> f in log[i].finalizers)
  }

  lemma AppendKeepsLawful(log: Log, m: Meta)
    requires Lawful(log)
    requires Current(log).deleting ==> m.deleting && forall f :: f in m.finalizers ==> f in Current(log).finalizers
    ensures Lawful(log + [m])
  {
    var next: Log := log + [m];
    forall i | 0 <= i < Latest(next)
      ensures next[i].deleting ==> next[i + 1].deleting && forall f :: f in next[i + 1].finalizers ==> f in next[i].finalizers
    {
      assert next[i] == log[i];
      if i < Latest(log) {
        assert next[i + 1] == log[i + 1];
      }
    }
  }

  lemma ApplyKeepsLawful(log: Log, patch: Patch)
    requires Lawful(log)
    ensures var r := Apply(log, patch); r.Ok? ==> Lawful(r.value)
  {
    var r := Apply(log, patch);
    if r.Ok? && r.value != log {
      AppendKeepsLawful(log, Current(r.value));
    }
  }

  /** Once deletion has started, a finalizer that is absent stays absent. */
  lemma {:induction false} DeletionOnlyShrinks(log: Log, seen: nat, later: nat, finalizer: string)
    requires Lawful(log)
    requires seen <= later < |log| && log[seen].deleting && finalizer !in log[seen].finalizers
    ensures log[later].deleting && finalizer !in log[later].finalizers
    decreases later
  {
    if seen != later {
      DeletionOnlyShrinks(log, seen, later - 1, finalizer);
    }
  }

  // ---- any number of controllers on one object ----

  /** One controller's held copy of the object. */
  datatype Held = Held(version: nat, finalizers: seq<string>)

  datatype Shared = Shared(log: Log, held: map<int, Held>)

  datatype Action =
    | Read(who: int, version: nat)                // a possibly stale read
    | Add(who: int, finalizer: string)            // AddFinalizer from the held copy
    | Remove(who: int, finalizer: string)
    | Lose(who: int, finalizer: string, add: bool)  // the patch arrives, its response does not
    | Other(meta: Meta)                           // any other writer

  function PatchOf(held: Held, finalizer: string, add: bool): Patch {
    var modified := if add then WithFinalizer(held.finalizers, finalizer) else WithoutFinalizer(held.finalizers, finalizer);
    Patch(Some(held.version), Diff(held.finalizers, modified))
  }

  /** The response of a successful patch replaces the held copy; a failed reconcile drops it. */
  function Patched(s: Shared, who: int, finalizer: string, add: bool, answered: bool): Shared
    requires who in s.held
  {
    match Apply(s.log, PatchOf(s.held[who], finalizer, add))
    case Ok(log) =>
      if answered then Shared(log, s.held[who := Held(Latest(log), Current(log).finalizers)])
      else Shared(log, s.held - {who})
    case Err(_) => s.(held := s.held - {who})
  }

  ghost predicate Acts(s: Shared, a: Action, t: Shared) {
    match a
    case Read(who, v) => v < |s.log| && t == s.(held := s.held[who := Held(v, s.log[v].finalizers)])
    case Add(who, f) => who in s.held && t == Patched(s, who, f, true, true)
    case Remove(who, f) => who in s.held && t == Patched(s, who, f, false, true)
    case Lose(who, f, add) => who in s.held && t == Patched(s, who, f, add, false)
    case Other(m) => t == s.(log := s.log + [m])
  }

  /** Whatever a controller holds is what the object was at that version. */
  ghost predicate HeldIsHistory(s: Shared) {
    forall who :: who in s.held ==>
      s.held[who].version < |s.log| && s.held[who].finalizers == s.log[s.held[who].version].finalizers
  }

  lemma ActsKeepsHistory(s: Shared, a: Action, t: Shared)
    requires HeldIsHistory(s) && Acts(s, a, t)
    ensures HeldIsHistory(t)
  {
    assert s.log <= t.log;
  }

  function Elements(list: seq<string>): set<string> {
    set f | f in list
  }

  predicate DiffersAtMostBy(a: set<string>, b: set<string>, finalizer: string) {
    a - {finalizer} == b - {finalizer}
  }

  /** A step by a controller changes the finalizer set by at most the finalizer it is about. */
  predicate OwnChangeOnly(s: Shared, a: Action, t: Shared) {
    var before, after := Elements(Current(s.log).finalizers), Elements(Current(t.log).finalizers);
    match a
    case Read(_, _) => before == after
    case Add(_, f) => DiffersAtMostBy(before, after, f)
    case Remove(_, f) => DiffersAtMostBy(before, after, f)
    case Lose(_, f, _) => DiffersAtMostBy(before, after, f)
    case Other(_) => true
  }

  lemma StepChangesOwn(s: Shared, a: Action, t: Shared)
    requires HeldIsHistory(s) && Acts(s, a, t)
    ensures OwnChangeOnly(s, a, t)
  {
    if a.Add? || a.Remove? || a.Lose? {
      var h := s.held[a.who];
      LockedAddIsOwn(s.log, h.version, a.finalizer);
      LockedRemoveIsOwn(s.log, h.version, a.finalizer);
    }
  }

  /** A run: states linked by steps, from a state in which nobody holds a copy. */
  ghost predicate Run(states: seq<Shared>, actions: seq<Action>) {
    && |states| == |actions| + 1
    && states[0].held == map[]
    && forall i :: 0 <= i < |actions| ==> Acts(states[i], actions[i], states[i + 1])
  }

  /** No lost finalizer updates: any number of controllers, any interleaving, any staleness, lost responses included. */
  lemma {:induction false} NoLostUpdates(states: seq<Shared>, actions: seq<Action>, n: nat)
    requires Run(states, actions) && n < |states|
    ensures HeldIsHistory(states[n])
    ensures forall i :: 0 <= i < n ==> OwnChangeOnly(states[i], actions[i], states[i + 1])
  {
    if n > 0 {
      NoLostUpdates(states, actions, n - 1);
      ActsKeepsHistory(states[n - 1], actions[n - 1], states[n]);
      StepChangesOwn(states[n - 1], actions[n - 1], states[n]);
    }
  }

  /** Without the lock the same patch is harmless exactly when the copy differs from the server at most in the
      patched finalizer, or when the patch carries no list at all. */
  lemma UnlockedIsOwnIff(log: Log, copy: seq<string>, finalizer: string)
    requires !Current(log).deleting
    ensures
      var patch := Patch(None, Diff(copy, WithFinalizer(copy, finalizer)));
      var r := Apply(log, patch);
      && r.Ok?
      && (DiffersAtMostBy(Elements(Current(log).finalizers), Elements(Current(r.value).finalizers), finalizer)
          <==> finalizer in copy
               || DiffersAtMostBy(Elements(Current(log).finalizers), Elements(copy), finalizer))
  {
    if finalizer !in copy {
      assert Elements(WithFinalizer(copy, finalizer)) == Elements(copy) + {finalizer};
    }
  }
}
