/** Worker versions may not be newer than the control plane, by precedence (section 11 of Semantic Versioning 2.0.0). */
module VersionSkew {
  import opened Results
  import opened NameServers

  datatype Identifier = Numeric(number: nat) | Alphanumeric(text: string)

  /** Build metadata does not take part in precedence and is left out. */
  datatype Version = Version(major: nat, minor: nat, patch: nat, pre: seq<Identifier>)

  function CompareNat(a: nat, b: nat): int {
    if a < b then -1 else if a > b then 1 else 0
  }

  /** Numeric identifiers come before alphanumeric ones. */
  function CompareIdentifier(a: Identifier, b: Identifier): int {
    match (a, b)
    case (Numeric(m), Numeric(n)) => CompareNat(m, n)
    case (Numeric(_), Alphanumeric(_)) => -1
    case (Alphanumeric(_), Numeric(_)) => 1
    case (Alphanumeric(x), Alphanumeric(y)) => if StringLess(x, y) then -1 else if StringLess(y, x) then 1 else 0
  }

  /** Identifier by identifier; a longer list wins over its own beginning. */
  function ComparePre(a: seq<Identifier>, b: seq<Identifier>): int {
    if a == [] && b == [] then 0
    else if a == [] then -1
    else if b == [] then 1
    else
      var c := CompareIdentifier(a[0], b[0]);
      if c != 0 then c else ComparePre(a[1..], b[1..])
  }

  function Compare(a: Version, b: Version): int {
    if a.major != b.major then CompareNat(a.major, b.major)
    else if a.minor != b.minor then CompareNat(a.minor, b.minor)
    else if a.patch != b.patch then CompareNat(a.patch, b.patch)
    else if a.pre == [] || b.pre == [] then
      (if a.pre == b.pre then 0 else if a.pre == [] then 1 else -1)
    else ComparePre(a.pre, b.pre)
  }

  predicate AtLeast(a: Version, b: Version) {
    Compare(a, b) >= 0
  }

  lemma IdentifierOrder(a: Identifier, b: Identifier, c: Identifier)
    ensures CompareIdentifier(a, b) == -CompareIdentifier(b, a)
    ensures CompareIdentifier(a, b) == 0 <==> a == b
    ensures CompareIdentifier(a, b) <= 0 && CompareIdentifier(b, c) <= 0 ==> CompareIdentifier(a, c) <= 0
  {
    if a.Alphanumeric? && b.Alphanumeric? {
      StringLessTrichotomy(a.text, b.text);
      if c.Alphanumeric? {
        StringLessTrichotomy(b.text, c.text);
        StringLessTrichotomy(a.text, c.text);
        if StringLess(a.text, b.text) && StringLess(b.text, c.text) {
          StringLessTransitive(a.text, b.text, c.text);
        }
      }
    }
  }

  lemma {:induction false} PreAntisymmetric(a: seq<Identifier>, b: seq<Identifier>)
    ensures ComparePre(a, b) == -ComparePre(b, a)
    ensures ComparePre(a, b) == 0 <==> a == b
    decreases |a|
  {
    if a != [] && b != [] {
      IdentifierOrder(a[0], b[0], b[0]);
      PreAntisymmetric(a[1..], b[1..]);
      assert a == [a[0]] + a[1..] && b == [b[0]] + b[1..];
    }
  }

  lemma {:induction false} PreTransitive(a: seq<Identifier>, b: seq<Identifier>, c: seq<Identifier>)
    requires ComparePre(a, b) <= 0 && ComparePre(b, c) <= 0
    ensures ComparePre(a, c) <= 0
    decreases |a|
  {
    if a != [] && b != [] && c != [] {
      IdentifierOrder(a[0], b[0], c[0]);
      IdentifierOrder(b[0], c[0], a[0]);
      IdentifierOrder(a[0], c[0], b[0]);
      if CompareIdentifier(a[0], b[0]) == 0 && CompareIdentifier(b[0], c[0]) == 0 {
        PreTransitive(a[1..], b[1..], c[1..]);
      }
    }
  }

  /** Precedence is a total order on versions, prereleases included. */
  lemma PrecedenceIsTotal(a: Version, b: Version)
    ensures Compare(a, b) == -Compare(b, a)
    ensures Compare(a, b) == 0 <==> a == b
    ensures AtLeast(a, b) || AtLeast(b, a)
  {
    PreAntisymmetric(a.pre, b.pre);
  }

  lemma PrecedenceIsTransitive(a: Version, b: Version, c: Version)
    requires AtLeast(a, b) && AtLeast(b, c)
    ensures AtLeast(a, c)
  {
    PreAntisymmetric(a.pre, b.pre);
    PreAntisymmetric(b.pre, c.pre);
    PreAntisymmetric(a.pre, c.pre);
    if ComparePre(c.pre, b.pre) <= 0 && ComparePre(b.pre, a.pre) <= 0 {
      PreTransitive(c.pre, b.pre, a.pre);
    }
  }

  // ---- the same in the words of the standard ----

  /** In ASCII order: at the first difference, or a longer text over its own beginning. */
  ghost predicate TextAfter(x: string, y: string) {
    exists k :: 0 <= k <= |x| && k <= |y| && x[..k] == y[..k] && k < |x| && (k == |y| || x[k] > y[k])
  }

  /** Numbers by value, text in ASCII order, text over numbers. */
  ghost predicate IdentifierAfter(a: Identifier, b: Identifier) {
    || (a.Numeric? && b.Numeric? && a.number > b.number)
    || (a.Alphanumeric? && b.Numeric?)
    || (a.Alphanumeric? && b.Alphanumeric? && TextAfter(a.text, b.text))
  }

  /** At the first identifier that differs, or more identifiers over their own beginning. */
  ghost predicate PreAfter(a: seq<Identifier>, b: seq<Identifier>) {
    exists k :: 0 <= k < |a| && k <= |b| && a[..k] == b[..k] && (k == |b| || IdentifierAfter(a[k], b[k]))
  }

  /** Major, then minor, then patch; then a release over its prereleases, and prereleases by their identifiers. */
  ghost predicate Newer(a: Version, b: Version) {
    || a.major > b.major
    || (a.major == b.major && a.minor > b.minor)
    || (a.major == b.major && a.minor == b.minor && a.patch > b.patch)
    || (a.major == b.major && a.minor == b.minor && a.patch == b.patch
        && ((a.pre == [] && b.pre != []) || (a.pre != [] && b.pre != [] && PreAfter(a.pre, b.pre))))
  }

  lemma {:induction false} TextAfterIff(x: string, y: string)
    ensures StringLess(y, x) <==> TextAfter(x, y)
  {
    if x != "" && y != "" && x[0] == y[0] {
      TextAfterIff(x[1..], y[1..]);
      if TextAfter(x[1..], y[1..]) {
        var k :|
          && 0 <= k <= |x[1..]| && k <= |y[1..]| && x[1..][..k] == y[1..][..k] && k < |x[1..]|
          && (k == |y[1..]| || x[1..][k] > y[1..][k]);
        assert x[..k + 1] == [x[0]] + x[1..][..k] && y[..k + 1] == [y[0]] + y[1..][..k];
        assert x[..k + 1] == y[..k + 1];
      }
      if TextAfter(x, y) {
        var k :| 0 <= k <= |x| && k <= |y| && x[..k] == y[..k] && k < |x| && (k == |y| || x[k] > y[k]);
        assert k > 0;
        assert x[1..][..k - 1] == x[..k][1..] && y[1..][..k - 1] == y[..k][1..];
      }
    } else if x != "" {
      assert x[..0] == y[..0];
      forall k | 0 < k <= |x| && k <= |y| ensures x[..k] != y[..k] {
        assert x[..k][0] != y[..k][0];
      }
    }
  }

  lemma IdentifierAfterIff(a: Identifier, b: Identifier)
    ensures CompareIdentifier(a, b) > 0 <==> IdentifierAfter(a, b)
  {
    if a.Alphanumeric? && b.Alphanumeric? {
      TextAfterIff(a.text, b.text);
      StringLessTrichotomy(a.text, b.text);
    }
  }

  lemma {:induction false} PreAfterIff(a: seq<Identifier>, b: seq<Identifier>)
    ensures ComparePre(a, b) > 0 <==> PreAfter(a, b)
    decreases |a|
  {
    if a != [] && b != [] && a[0] == b[0] {
      IdentifierOrder(a[0], b[0], b[0]);
      PreAfterIff(a[1..], b[1..]);
      PreAfterTail(a, b);
    } else if a != [] {
      assert a[..0] == b[..0];
      if b != [] {
        IdentifierAfterIff(a[0], b[0]);
        IdentifierOrder(a[0], b[0], b[0]);
      }
      forall k | 0 < k <= |a| && k <= |b| ensures a[..k] != b[..k] {
        assert a[..k][0] != b[..k][0];
      }
    }
  }

  lemma PreAfterTail(a: seq<Identifier>, b: seq<Identifier>)
    requires a != [] && b != [] && a[0] == b[0] && !IdentifierAfter(a[0], b[0])
    ensures PreAfter(a, b) <==> PreAfter(a[1..], b[1..])
  {
    hide IdentifierAfter;
    if PreAfter(a[1..], b[1..]) {
      var k :|
        && 0 <= k < |a[1..]| && k <= |b[1..]| && a[1..][..k] == b[1..][..k]
        && (k == |b[1..]| || IdentifierAfter(a[1..][k], b[1..][k]));
      assert a[..k + 1] == [a[0]] + a[1..][..k] && b[..k + 1] == [b[0]] + b[1..][..k];
      assert k + 1 < |a| && a[..k + 1] == b[..k + 1];
    }
    if PreAfter(a, b) {
      var k :| 0 <= k < |a| && k <= |b| && a[..k] == b[..k] && (k == |b| || IdentifierAfter(a[k], b[k]));
      assert k > 0;
      assert a[1..][..k - 1] == a[..k][1..] && b[1..][..k - 1] == b[..k][1..];
    }
  }

  /** The comparison is that of the standard. */
  lemma NewerIff(a: Version, b: Version)
    ensures Compare(a, b) > 0 <==> Newer(a, b)
    ensures AtLeast(a, b) <==> !Newer(b, a)
  {
    PreAfterIff(a.pre, b.pre);
    PreAfterIff(b.pre, a.pre);
    PreAntisymmetric(a.pre, b.pre);
    hide PreAfter;
  }

  /** Both versions must parse; then the control plane must be at least as new. Parsing is the semver library's. */
  function IsSkewAllowed(parse: string -> Option<Version>, controlPlane: string, worker: string): Result<bool> {
    match parse(controlPlane)
    case None => Err(Failed)
    case Some(c) =>
      match parse(worker)
      case None => Err(Failed)
      case Some(w) => Ok(AtLeast(c, w))
  }

  /** The gate opens exactly for workers that are not newer, and refuses to decide about what it cannot parse. */
  lemma SkewIsAllowedIff(parse: string -> Option<Version>, controlPlane: string, worker: string)
    ensures
      var r := IsSkewAllowed(parse, controlPlane, worker);
      && (r.Ok? <==> parse(controlPlane).Some? && parse(worker).Some?)
      && (r.Ok? ==> (r.value <==> !Newer(parse(worker).value, parse(controlPlane).value)))
  {
    if parse(controlPlane).Some? && parse(worker).Some? {
      NewerIff(parse(controlPlane).value, parse(worker).value);
    }
  }

  // ---- runs ----

  /** The control plane's reported versions, oldest first, and the worker version last written to the workload cluster. */
  datatype State = State(controlPlane: seq<string>, applied: Option<string>)

  datatype Event =
    | Upgrade(version: string)
    | Reconcile(read: nat, worker: string, written: bool)  // `read`: the possibly stale version it saw

  ghost predicate Next(parse: string -> Option<Version>, s: State, e: Event, t: State) {
    match e
    case Upgrade(v) =>
      && t == s.(controlPlane := s.controlPlane + [v])
      && forall i :: 0 <= i < |s.controlPlane| ==> NotOlder(parse, v, s.controlPlane[i])
    case Reconcile(read, worker, written) =>
      && read < |s.controlPlane|
      && t == if IsSkewAllowed(parse, s.controlPlane[read], worker) == Ok(true) && written
              then s.(applied := Some(worker)) else s
  }

  predicate NotOlder(parse: string -> Option<Version>, newer: string, older: string) {
    parse(newer).Some? && parse(older).Some? ==> AtLeast(parse(newer).value, parse(older).value)
  }

  ghost predicate NeverDecreases(parse: string -> Option<Version>, versions: seq<string>) {
    forall i, j :: 0 <= i < j < |versions| ==> NotOlder(parse, versions[j], versions[i])
  }

  /** The applied version was allowed against some version the control plane once had. */
  ghost predicate Inv(parse: string -> Option<Version>, s: State) {
    && NeverDecreases(parse, s.controlPlane)
    && (s.applied.Some? ==>
          exists i :: 0 <= i < |s.controlPlane| && IsSkewAllowed(parse, s.controlPlane[i], s.applied.value) == Ok(true))
  }

  ghost predicate Run(parse: string -> Option<Version>, states: seq<State>, events: seq<Event>) {
    && |states| == |events| + 1 && states[0].applied.None? && NeverDecreases(parse, states[0].controlPlane)
    && forall i :: 0 <= i < |events| ==> Next(parse, states[i], events[i], states[i + 1])
  }

  lemma {:induction false} RunKeepsInv(parse: string -> Option<Version>, states: seq<State>, events: seq<Event>, n: nat)
    requires Run(parse, states, events) && n < |states|
    ensures Inv(parse, states[n])
  {
    if n > 0 {
      RunKeepsInv(parse, states, events, n - 1);
      var s, e, t := states[n - 1], events[n - 1], states[n];
      assert Next(parse, s, e, t);
      if e.Upgrade? {
        if t.applied.Some? {
          var i :| 0 <= i < |s.controlPlane| && IsSkewAllowed(parse, s.controlPlane[i], s.applied.value) == Ok(true);
          assert t.controlPlane[i] == s.controlPlane[i];
        }
      }
    }
  }

  /** In every run with a control plane that never goes back, stale reads included, the workers applied are never
      newer than the control plane. */
  lemma WorkersNeverAhead(parse: string -> Option<Version>, states: seq<State>, events: seq<Event>, n: nat)
    requires Run(parse, states, events) && n < |states|
    requires states[n].controlPlane != [] && states[n].applied.Some?
    requires parse(states[n].controlPlane[|states[n].controlPlane| - 1]).Some?
    ensures
      var current := parse(states[n].controlPlane[|states[n].controlPlane| - 1]).value;
      var worker := parse(states[n].applied.value);
      worker.Some? && !Newer(worker.value, current)
  {
    RunKeepsInv(parse, states, events, n);
    var s := states[n];
    var last := |s.controlPlane| - 1;
    var i :| 0 <= i < |s.controlPlane| && IsSkewAllowed(parse, s.controlPlane[i], s.applied.value) == Ok(true);
    if i < last {
      assert NotOlder(parse, s.controlPlane[last], s.controlPlane[i]);
      PrecedenceIsTransitive(parse(s.controlPlane[last]).value, parse(s.controlPlane[i]).value, parse(s.applied.value).value);
    }
    NewerIff(parse(s.controlPlane[last]).value, parse(s.applied.value).value);
  }
}
