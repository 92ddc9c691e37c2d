/** Upload of a pool's bootstrap data to S3, skipped when the hash recorded on the pool matches. */
module Bootstrap {
  import opened Results

  type Data = seq<bv8>

  const HASH_ANNOTATION := "giantswarm.io/userdata-hash"

  /** The bootstrap secret as read: missing, without its value key, or with a value. */
  datatype Secret = Missing | NoValue | Value(data: Data)

  function Recorded(annotations: map<string, string>): Option<string> {
    if HASH_ANNOTATION in annotations then Some(annotations[HASH_ANNOTATION]) else None
  }

  /** The bucket's object for one pool. */
  class Bucket {
    var stored: Option<Data>

    constructor ()
      ensures stored == None
    {
      stored := None;
    }

    method Put(data: Data) returns (r: Result<()>, ghost fault: Fault)
      modifies this
      ensures stored == if fault == FailsBefore then old(stored) else Some(data)
      ensures r.Ok? <==> fault == NoFault
    {
      var f: Fault := *;
      fault := f;
      if f != FailsBefore {
        stored := Some(data);
      }
      r := if f == NoFault then Ok(()) else Err(Failed);
    }
  }

  /** The in-memory KarpenterMachinePool, as far as the upload is concerned. */
  class Pool {
    var annotations: map<string, string>

    constructor (read: map<string, string>)
      ensures annotations == read
    {
      annotations := read;
    }

    method ReconcileBootstrapUserData(hash: Data -> string, secret: Secret, bucket: Bucket)
      returns (r: Result<()>, ghost fault: Fault)
      modifies this, bucket
      ensures (r.Ok?, bucket.stored, Recorded(annotations))
           == Reconciled(hash, secret, old(bucket.stored), old(Recorded(annotations)), fault)
      ensures r.Ok? ==> secret.Value?
      ensures secret.Value? && fault == NoFault ==> r.Ok?
      ensures r.Ok? ==> Recorded(annotations) == Some(hash(secret.data))
      ensures r.Ok? ==> bucket.stored == Some(secret.data) || old(Recorded(annotations)) == Some(hash(secret.data))
      ensures forall k :: k != HASH_ANNOTATION ==>
        (k in annotations <==> k in old(annotations)) && (k in annotations ==> annotations[k] == old(annotations)[k])
    {
      fault := NoFault;
      if !secret.Value? {
        return Err(Failed), fault;
      }
      var digest := hash(secret.data);
      if HASH_ANNOTATION !in annotations || annotations[HASH_ANNOTATION] != digest {
        r, fault := bucket.Put(secret.data);
        if r.Err? {
          return;
        }
        annotations := annotations[HASH_ANNOTATION := digest];
      }
      r := Ok(());
    }
  }

  /** Success, the bucket's object and the recorded hash after one bootstrap reconcile. */
  function Reconciled(hash: Data -> string, secret: Secret, stored: Option<Data>, recorded: Option<string>,
                      fault: Fault)
    : (bool, Option<Data>, Option<string>)
  {
    if !secret.Value? then (false, stored, recorded)
    else if recorded == Some(hash(secret.data)) then (true, stored, recorded)
    else if fault == FailsBefore then (false, stored, recorded)
    else if fault == ResponseLost then (false, Some(secret.data), recorded)
    else (true, Some(secret.data), Some(hash(secret.data)))
  }

  // ---- runs ----

  datatype State = State(
    secrets: seq<Data>,              // the secret's contents over time, oldest first
    seen: nat,                       // the newest of them read so far
    records: seq<Option<string>>,    // the hash on the pool object, version by version
    stored: Option<Data>)

  datatype Event =
    | SecretChanges(data: Data)
    | Reconcile(secret: nat, record: nat, fault: Fault, persisted: bool)  // which secret and which pool version it read
    | ReconcileWithoutSecret

  /** The secret never takes an earlier value again. */
  ghost predicate NeverReturns(secrets: seq<Data>) {
    forall i, j, k :: 0 <= i < j < k < |secrets| && secrets[i] == secrets[k] ==> secrets[j] == secrets[i]
  }

  ghost predicate Injective(hash: Data -> string) {
    forall a, b :: hash(a) == hash(b) ==> a == b
  }

  function Outcome(hash: Data -> string, s: State, e: Event): (bool, Option<Data>, Option<string>)
    requires e.Reconcile? && e.secret < |s.secrets| && e.record < |s.records|
  {
    Reconciled(hash, Value(s.secrets[e.secret]), s.stored, s.records[e.record], e.fault)
  }

  /** The annotation reaches the pool object only if it changed and the deferred patch was not lost. */
  ghost predicate Next(hash: Data -> string, s: State, e: Event, t: State) {
    match e
    case SecretChanges(data) => t == s.(secrets := s.secrets + [data])
    case Reconcile(k, v, fault, persisted) =>
      && s.seen <= k < |s.secrets| && v < |s.records|
      && (var (_, stored, recorded) := Outcome(hash, s, e);
          t == s.(seen := k, stored := stored,
                  records := if persisted && recorded != s.records[v] then s.records + [recorded] else s.records))
    case ReconcileWithoutSecret => t == s
  }

  /** Which of the secret's values was uploaded last; no later one than any read so far. */
  ghost predicate Uploaded(s: State, last: nat) {
    last <= s.seen && last < |s.secrets| && s.stored == Some(s.secrets[last])
  }

  /** Every recorded hash is of a value uploaded no later than the last one. */
  ghost predicate RecordsUploads(hash: Data -> string, s: State, last: nat)
    requires last < |s.secrets|
  {
    forall v :: 0 <= v < |s.records| && s.records[v].Some? ==>
      exists u :: 0 <= u <= last && s.records[v].value == hash(s.secrets[u])
  }

  ghost predicate Inv(hash: Data -> string, s: State) {
    if s.stored.None? then forall v :: 0 <= v < |s.records| ==> s.records[v].None?
    else exists last :: Uploaded(s, last) && RecordsUploads(hash, s, last)
  }

  lemma SecretChangeKeepsInv(hash: Data -> string, s: State, data: Data, t: State)
    requires Inv(hash, s) && Next(hash, s, SecretChanges(data), t)
    ensures Inv(hash, t)
  {
    if s.stored.Some? {
      var last: nat :| Uploaded(s, last) && RecordsUploads(hash, s, last);
      assert forall u :: 0 <= u <= last ==> t.secrets[u] == s.secrets[u];
      assert RecordsUploads(hash, t, last);
      assert Uploaded(t, last);
    }
  }

  /** A skipped upload means the value read is the one uploaded last. */
  lemma SkipFindsItThere(hash: Data -> string, s: State, k: nat, v: nat)
    requires Injective(hash) && NeverReturns(s.secrets) && Inv(hash, s)
    requires s.seen <= k < |s.secrets| && v < |s.records| && s.records[v] == Some(hash(s.secrets[k]))
    ensures s.stored == Some(s.secrets[k])
  {
    assert s.records[v].Some? && s.stored.Some?;
    var last: nat :| Uploaded(s, last) && RecordsUploads(hash, s, last);
    var u :| 0 <= u <= last && s.records[v].value == hash(s.secrets[u]);
    assert s.secrets[u] == s.secrets[k];
    assert u < last < k ==> s.secrets[last] == s.secrets[u];
  }

  lemma ReconcileKeepsInv(hash: Data -> string, s: State, e: Event, t: State)
    requires Injective(hash) && NeverReturns(s.secrets)
    requires Inv(hash, s) && e.Reconcile? && Next(hash, s, e, t)
    ensures Inv(hash, t)
    ensures Outcome(hash, s, e).0 ==> t.stored == Some(s.secrets[e.secret])
  {
    var k, v := e.secret, e.record;
    if s.records[v] == Some(hash(s.secrets[k])) {
      SkipFindsItThere(hash, s, k, v);
    }
    if t.stored == s.stored {
      if t.stored.Some? {
        var last: nat :| Uploaded(s, last) && RecordsUploads(hash, s, last);
        var at := if t.records == s.records then last else k;
        assert t.stored == Some(t.secrets[at]);
        assert Uploaded(t, at);
        assert RecordsUploads(hash, t, at);
      }
    } else {
      assert Uploaded(t, k);
      UploadRecordsItself(hash, s, e, t);
    }
  }

  lemma UploadRecordsItself(hash: Data -> string, s: State, e: Event, t: State)
    requires Inv(hash, s) && e.Reconcile? && Next(hash, s, e, t)
    requires t.stored != s.stored
    ensures RecordsUploads(hash, t, e.secret)
  {
    forall v | 0 <= v < |t.records| && t.records[v].Some?
      ensures exists u :: 0 <= u <= e.secret && t.records[v].value == hash(t.secrets[u])
    {
      if v < |s.records| {
        assert t.records[v] == s.records[v];
        var last: nat :| Uploaded(s, last) && RecordsUploads(hash, s, last);
      } else {
        assert t.records[v].value == hash(t.secrets[e.secret]);
      }
    }
  }

  ghost predicate Run(hash: Data -> string, states: seq<State>, events: seq<Event>) {
    && |states| == |events| + 1
    && states[0].stored.None? && states[0].records == [None]
    && forall i :: 0 <= i < |events| ==> Next(hash, states[i], events[i], states[i + 1])
  }

  lemma {:induction false} SecretsGrow(hash: Data -> string, states: seq<State>, events: seq<Event>, i: nat, j: nat)
    requires Run(hash, states, events) && i <= j < |states|
    ensures states[i].secrets <= states[j].secrets
  {
    if i < j {
      SecretsGrow(hash, states, events, i, j - 1);
      assert Next(hash, states[j - 1], events[j - 1], states[j]);
    }
  }

  lemma {:induction false} RunKeepsInv(hash: Data -> string, states: seq<State>, events: seq<Event>, n: nat)
    requires Injective(hash) && Run(hash, states, events) && n < |states|
    requires NeverReturns(states[n].secrets)
    ensures Inv(hash, states[n])
  {
    if n > 0 {
      SecretsGrow(hash, states, events, n - 1, n);
      var s, e, t := states[n - 1], events[n - 1], states[n];
      assert NeverReturns(s.secrets) by {
        assert forall i :: 0 <= i < |s.secrets| ==> s.secrets[i] == t.secrets[i];
      }
      RunKeepsInv(hash, states, events, n - 1);
      assert Next(hash, s, e, t);
      match e
      case SecretChanges(data) => SecretChangeKeepsInv(hash, s, data, t);
      case Reconcile(_, _, _, _) => ReconcileKeepsInv(hash, s, e, t);
      case ReconcileWithoutSecret =>
    }
  }

  /** Skipping by hash refines uploading always: every successful reconcile leaves S3 equal to the secret it read,
      however many responses and annotation patches were lost before it. */
  lemma SuccessMeansUploaded(hash: Data -> string, states: seq<State>, events: seq<Event>, n: nat)
    requires Injective(hash) && Run(hash, states, events) && n < |events|
    requires NeverReturns(states[n].secrets)
    requires events[n].Reconcile? && events[n].secret < |states[n].secrets| && events[n].record < |states[n].records|
    requires Outcome(hash, states[n], events[n]).0
    ensures states[n + 1].stored == Some(states[n].secrets[events[n].secret])
  {
    RunKeepsInv(hash, states, events, n);
    assert Next(hash, states[n], events[n], states[n + 1]);
    ReconcileKeepsInv(hash, states[n], events[n], states[n + 1]);
  }

  /** Over this history of the secret, every successful reconcile of every run leaves S3 equal to the secret it read. */
  ghost predicate AlwaysRight(hash: Data -> string, history: seq<Data>) {
    forall states: seq<State>, events: seq<Event>, n: nat ::
      && Run(hash, states, events) && n < |events| && states[n].secrets == history && Succeeds(hash, states[n], events[n])
      ==> states[n + 1].stored == Some(history[events[n].secret])
  }

  ghost predicate Succeeds(hash: Data -> string, s: State, e: Event) {
    e.Reconcile? && e.secret < |s.secrets| && e.record < |s.records| && Outcome(hash, s, e).0
  }

  /** A value that comes back after another one: persist its hash, upload the other one and lose that annotation, and
      the third reconcile is skipped with the other one in S3. */
  lemma ReturningSecretKeepsStaleData(hash: Data -> string, history: seq<Data>, i: nat, j: nat, k: nat)
    requires Injective(hash) && i < j < k < |history| && history[i] == history[k] != history[j]
    ensures !AlwaysRight(hash, history)
  {
    var a, b := history[i], history[j];
    var e1, e2, e3 := Reconcile(i, 0, NoFault, true), Reconcile(j, 1, NoFault, false), Reconcile(k, 1, NoFault, true);
    var s0 := State(history, 0, [None], None);
    var s1 := State(history, i, [None, Some(hash(a))], Some(a));
    var s2 := s1.(seen := j, stored := Some(b));
    var s3 := s2.(seen := k);
    assert s1.records == s0.records + [Some(hash(a))];
    assert Next(hash, s0, e1, s1);
    assert hash(a) != hash(b) && Next(hash, s1, e2, s2);
    assert Next(hash, s2, e3, s3);
    var states, events := [s0, s1, s2, s3], [e1, e2, e3];
    assert Run(hash, states, events) && Succeeds(hash, states[2], events[2]) && states[2].secrets == history;
    assert states[3].stored == Some(b) != Some(history[events[2].secret]);
  }

  /** Skipping by hash refines uploading always over exactly those histories in which no value comes back. */
  lemma AlwaysRightIff(hash: Data -> string, history: seq<Data>)
    requires Injective(hash)
    ensures AlwaysRight(hash, history) <==> NeverReturns(history)
  {
    if NeverReturns(history) {
      forall states: seq<State>, events: seq<Event>, n: nat |
        && Run(hash, states, events) && n < |events| && states[n].secrets == history && Succeeds(hash, states[n], events[n])
        ensures states[n + 1].stored == Some(history[events[n].secret])
      {
        SuccessMeansUploaded(hash, states, events, n);
      }
    } else {
      var i, j, k :| 0 <= i < j < k < |history| && history[i] == history[k] && history[j] != history[i];
      ReturningSecretKeepsStaleData(hash, history, i, j, k);
    }
  }
}
