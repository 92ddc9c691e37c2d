/** Comparison of two name server lists, by sorting their normalised forms. */
module NameServers {
  import opened Strings

  /** Go's order on strings. */
  predicate StringLess(a: string, b: string) {
    b != "" && (a == "" || a[0] < b[0] || (a[0] == b[0] && StringLess(a[1..], b[1..])))
  }

  lemma {:induction false} StringLessTrichotomy(a: string, b: string)
    ensures a == b || StringLess(a, b) || StringLess(b, a)
    ensures !(StringLess(a, b) && StringLess(b, a))
    ensures a == b ==> !StringLess(a, b)
  {
    if a != "" && b != "" && a[0] == b[0] {
      StringLessTrichotomy(a[1..], b[1..]);
      assert a == [a[0]] + a[1..] && b == [b[0]] + b[1..];
    }
  }

  lemma {:induction false} StringLessTransitive(a: string, b: string, c: string)
    requires StringLess(a, b) && StringLess(b, c)
    ensures StringLess(a, c)
  {
    if a != "" && a[0] == b[0] && b[0] == c[0] {
      StringLessTransitive(a[1..], b[1..], c[1..]);
    }
  }

  predicate Sorted(s: seq<string>) {
    forall i, j :: 0 <= i < j < |s| ==> !StringLess(s[j], s[i])
  }

  function Insert(x: string, s: seq<string>): (r: seq<string>)
    ensures multiset(r) == multiset(s) + multiset{x}
  {
    if s == [] then [x]
    else if StringLess(s[0], x) then
      assert s == [s[0]] + s[1..];
      [s[0]] + Insert(x, s[1..])
    else
      [x] + s
  }

  function Sort(s: seq<string>): (r: seq<string>)
    ensures multiset(r) == multiset(s)
  {
    if s == [] then []
    else
      assert s == [s[0]] + s[1..];
      Insert(s[0], Sort(s[1..]))
  }

  lemma MemberOfMultiset(s: seq<string>, t: seq<string>, x: string)
    requires multiset(s) == multiset(t) && x in t
    ensures x in s
  {
    assert x in multiset(t);
  }

  lemma {:induction false} InsertKeepsSorted(x: string, s: seq<string>)
    requires Sorted(s)
    ensures Sorted(Insert(x, s))
  {
    if s != [] {
      if StringLess(s[0], x) {
        var rest := Insert(x, s[1..]);
        InsertKeepsSorted(x, s[1..]);
        forall j | 0 <= j < |rest| ensures !StringLess(rest[j], s[0]) {
          assert rest[j] in multiset(rest);
          assert rest[j] == x || rest[j] in s[1..];
          StringLessTrichotomy(s[0], x);
        }
      } else {
        forall j | 0 <= j < |s| ensures !StringLess(s[j], x) {
          if StringLess(s[j], x) {
            StringLessTrichotomy(x, s[0]);
            if x != s[0] {
              StringLessTransitive(s[j], x, s[0]);
            }
          }
        }
      }
    }
  }

  lemma {:induction false} SortSorts(s: seq<string>)
    ensures Sorted(Sort(s))
  {
    if s != [] {
      SortSorts(s[1..]);
      InsertKeepsSorted(s[0], Sort(s[1..]));
    }
  }

  /** A sorted sequence is determined by its multiset. */
  lemma {:induction false} SortedUnique(s: seq<string>, t: seq<string>)
    requires Sorted(s) && Sorted(t) && multiset(s) == multiset(t)
    ensures s == t
  {
    if s == [] || t == [] {
      assert |multiset(s)| == |s| && |multiset(t)| == |t|;
    } else {
      MemberOfMultiset(s, t, t[0]);
      MemberOfMultiset(t, s, s[0]);
      StringLessTrichotomy(s[0], t[0]);
      assert s[0] == t[0];
      assert s == [s[0]] + s[1..] && t == [t[0]] + t[1..];
      assert multiset(s[1..]) == multiset(s) - multiset{s[0]};
      assert multiset(t[1..]) == multiset(t) - multiset{t[0]};
      SortedUnique(s[1..], t[1..]);
    }
  }

  function Normalized(names: seq<string>): (r: seq<string>)
    ensures |r| == |names|
  {
    seq(|names|, i requires 0 <= i < |names| => NormalizeDnsName(names[i]))
  }

  method Normalize(names: seq<string>) returns (ret: seq<string>)
    ensures ret == Sort(Normalized(names))
  {
    ret := [];
    for i := 0 to |names|
      invariant |ret| == i && forall j :: 0 <= j < i ==> ret[j] == NormalizeDnsName(names[j])
    {
      ret := ret + [NormalizeDnsName(names[i])];
    }
    assert ret == Normalized(names);
    ret := Sort(ret);
  }

  // ---- what the comparison means ----

  /** How much of a name there is without one final dot. */
  function Extent(name: string): nat {
    if |name| > 0 && name[|name| - 1] == '.' then |name| - 1 else |name|
  }

  /** The same character, or the two cases of one letter. */
  predicate SameLetter(c: char, d: char) {
    || c == d
    || ('A' <= c <= 'Z' && d as int == c as int + 32)
    || ('A' <= d <= 'Z' && c as int == d as int + 32)
  }

  /** The same DNS name: letter by letter, whatever the case, with or without a final dot. */
  predicate SameName(a: string, b: string) {
    Extent(a) == Extent(b) && forall i :: 0 <= i < Extent(a) ==> SameLetter(a[i], b[i])
  }

  lemma LettersMeetIff(c: char, d: char)
    ensures LowerChar(c) == LowerChar(d) <==> SameLetter(c, d)
  {
  }

  /** Two names are normalised alike if and only if they are the same DNS name. */
  lemma NormalAlikeIff(a: string, b: string)
    ensures NormalizeDnsName(a) == NormalizeDnsName(b) <==> SameName(a, b)
  {
    var x, y := NormalizeDnsName(a), NormalizeDnsName(b);
    assert |x| == Extent(a) + 1 && |y| == Extent(b) + 1;
    assert forall i :: 0 <= i < Extent(a) ==> x[i] == LowerChar(a[i]);
    assert forall i :: 0 <= i < Extent(b) ==> y[i] == LowerChar(b[i]);
    hide NormalizeDnsName;
    hide LowerChar;
    hide SameLetter;
    forall i | 0 <= i < Extent(a) && 0 <= i < Extent(b) ensures x[i] == y[i] <==> SameLetter(a[i], b[i]) {
      LettersMeetIff(a[i], b[i]);
    }
    if SameName(a, b) {
      EqualByIndex(x, y);
    }
  }

  lemma EqualByIndex(x: string, y: string)
    requires |x| == |y| > 0 && x[|x| - 1] == y[|y| - 1] && forall i :: 0 <= i < |x| - 1 ==> x[i] == y[i]
    ensures x == y
  {
  }

  /** The i-th item is paired with the at[i]-th of the other list; none is paired twice, and none is left over. */
  ghost predicate OneToOne(at: seq<nat>, n: nat) {
    && |at| == n && (forall i :: 0 <= i < |at| ==> at[i] < n)
    && (forall i, j :: 0 <= i < j < |at| ==> at[i] != at[j])
  }

  /** A pairing of two lists of name servers by name. */
  ghost predicate Pairing(names: seq<string>, otherNames: seq<string>, at: seq<nat>) {
    && |names| == |otherNames| && OneToOne(at, |names|)
    && forall i :: 0 <= i < |at| ==> SameName(names[i], otherNames[at[i]])
  }

  /** The same name servers: the lists can be paired one to one, so order does not matter and repetitions count. */
  ghost predicate SameServerNames(names: seq<string>, otherNames: seq<string>) {
    exists at :: Pairing(names, otherNames, at)
  }

  function Without<T>(s: seq<T>, j: nat): seq<T>
    requires j < |s|
  {
    s[..j] + s[j + 1..]
  }

  lemma WithoutIsLess<T>(s: seq<T>, j: nat)
    requires j < |s|
    ensures multiset(Without(s, j)) == multiset(s) - multiset{s[j]} && |Without(s, j)| == |s| - 1
    ensures forall k :: 0 <= k < |s| - 1 ==> Without(s, j)[k] == s[if k < j then k else k + 1]
  {
    assert s == s[..j] + ([s[j]] + s[j + 1..]);
  }

  /** A pairing into the list without its j-th item, as a pairing into the whole list. */
  lemma PairedAround<T>(a: seq<T>, b: seq<T>, j: nat, rest: seq<nat>) returns (at: seq<nat>)
    requires |a| == |b| > 0 && j < |b| && b[j] == a[|a| - 1] && OneToOne(rest, |a| - 1)
    requires forall i :: 0 <= i < |rest| ==> a[i] == Without(b, j)[rest[i]]
    ensures OneToOne(at, |a|) && forall i :: 0 <= i < |at| ==> a[i] == b[at[i]]
  {
    var n := |a| - 1;
    WithoutIsLess(b, j);
    at := seq(n, i requires 0 <= i < n => if rest[i] < j then rest[i] else rest[i] + 1) + [j];
  }

  lemma {:induction false} EqualMultisetsPair<T>(a: seq<T>, b: seq<T>) returns (at: seq<nat>)
    requires multiset(a) == multiset(b)
    ensures |a| == |b| && OneToOne(at, |a|) && forall i :: 0 <= i < |at| ==> a[i] == b[at[i]]
    decreases |a|
  {
    assert |a| == |multiset(a)| == |multiset(b)| == |b|;
    at := [];
    if a != [] {
      var n := |a| - 1;
      assert a[n] in multiset(b);
      var j :| 0 <= j < |b| && b[j] == a[n];
      assert a == a[..n] + [a[n]];
      WithoutIsLess(b, j);
      hide OneToOne;
      var rest := EqualMultisetsPair(a[..n], Without(b, j));
      at := PairedAround(a, b, j, rest);
    }
  }

  /** A pairing of the whole lists, without the last item and its partner. */
  lemma PairedWithout<T>(a: seq<T>, b: seq<T>, at: seq<nat>) returns (rest: seq<nat>)
    requires |a| == |b| > 0 && OneToOne(at, |a|) && forall i :: 0 <= i < |at| ==> a[i] == b[at[i]]
    ensures at[|a| - 1] < |b| && OneToOne(rest, |a| - 1)
    ensures forall i :: 0 <= i < |rest| ==> a[i] == Without(b, at[|a| - 1])[rest[i]]
  {
    var n := |a| - 1;
    var j := at[n];
    WithoutIsLess(b, j);
    assert forall i :: 0 <= i < n ==> at[i] != j;
    rest := seq(n, i requires 0 <= i < n => if at[i] < j then at[i] else (at[i] - 1) as nat);
  }

  lemma {:induction false} PairsMakeEqualMultisets<T>(a: seq<T>, b: seq<T>, at: seq<nat>)
    requires |a| == |b| && OneToOne(at, |a|) && forall i :: 0 <= i < |at| ==> a[i] == b[at[i]]
    ensures multiset(a) == multiset(b)
    decreases |a|
  {
    if a != [] {
      var n := |a| - 1;
      var rest := PairedWithout(a, b, at);
      WithoutIsLess(b, at[n]);
      assert a[n] == b[at[n]];
      hide OneToOne;
      hide Without;
      PairsMakeEqualMultisets(a[..n], Without(b, at[n]), rest);
      assert a == a[..n] + [a[n]];
    }
  }

  lemma SameServersIff(names: seq<string>, otherNames: seq<string>)
    ensures multiset(Normalized(names)) == multiset(Normalized(otherNames)) <==> SameServerNames(names, otherNames)
  {
    hide NormalizeDnsName;
    hide SameName;
    var a, b := Normalized(names), Normalized(otherNames);
    forall i, j | 0 <= i < |names| && 0 <= j < |otherNames| ensures a[i] == b[j] <==> SameName(names[i], otherNames[j]) {
      NormalAlikeIff(names[i], otherNames[j]);
    }
    if multiset(a) == multiset(b) {
      var at := EqualMultisetsPair(a, b);
      assert Pairing(names, otherNames, at);
    }
    if at :| Pairing(names, otherNames, at) {
      PairsMakeEqualMultisets(a, b, at);
    }
  }

  lemma EveryListIsItsOwn(names: seq<string>)
    ensures SameServerNames(names, names)
  {
    var at: seq<nat> := seq(|names|, i requires 0 <= i < |names| => i);
    assert Pairing(names, names, at);
  }

  /** Whether two lists name the same servers. */
  method HaveSameDnsNames(names: seq<string>, otherNames: seq<string>) returns (same: bool)
    ensures same <==> SameServerNames(names, otherNames)
  {
    hide SameServerNames;
    var a := Normalize(names);
    var b := Normalize(otherNames);
    same := a == b;
    SortSorts(Normalized(names));
    SortSorts(Normalized(otherNames));
    if multiset(a) == multiset(b) {
      SortedUnique(a, b);
    }
    SameServersIff(names, otherNames);
  }
}
