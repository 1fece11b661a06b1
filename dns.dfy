/**
 * Host names of a service role and the sorted list of addresses they resolve to
 * (dns/dns.go). The AWS region, the environment name and the resolver are
 * inputs: `Hosts` receives them as parameters.
 */
module Dns {
  import opened Common

  const Domain: string := "hailocab.net"
  const Scope: string := "i"

  /** A looked-up address; its textual form comes from the `show` parameter of `Hosts`. */
  type IP = seq<Byte>

  /** The pieces separated by dots, as a format string of dot-separated `%s` verbs lays them out. */
  function JoinDots(parts: seq<string>): string
    requires parts != []
  {
    if |parts| == 1 then parts[0] else parts[0] + ("." + JoinDots(parts[1..]))
  }

  /**
   * `hostName(role)`: the five pieces joined by dots, as
   * `fmt.Sprintf("%s.%s.%s.%s.%s", role, region, scope, env, domain)` lays
   * them out, which spells `role.region.i.env.hailocab.net`.
   */
  function HostName(role: string, region: string, env: string): (name: string)
    ensures name == role + "." + region + ".i." + env + ".hailocab.net"
  {
    var parts := [role, region, Scope, env, Domain];
    assert JoinDots(parts[4..]) == Domain;
    assert JoinDots(parts[3..]) == env + ("." + Domain);
    assert JoinDots(parts[2..]) == Scope + ("." + (env + ("." + Domain)));
    assert JoinDots(parts[1..]) == region + ("." + (Scope + ("." + (env + ("." + Domain)))));
    JoinDots(parts)
  }

  /** The dot-separated labels of a name (Go's `strings.Split(s, sep)` for a one-character separator). */
  function Split(s: string, sep: char): (parts: seq<string>)
    ensures |parts| > 0
  {
    if s == [] then [""]
    else if s[0] == sep then [""] + Split(s[1..], sep)
    else
      var rest := Split(s[1..], sep);
      [[s[0]] + rest[0]] + rest[1..]
  }

  lemma {:induction false} SplitNoSeparator(a: string, sep: char)
    requires sep !in a
    ensures Split(a, sep) == [a]
  {
    if a != [] {
      SplitNoSeparator(a[1..], sep);
      assert [a[0]] + a[1..] == a;
    }
  }

  lemma {:induction false} SplitAtSeparator(a: string, sep: char, b: string)
    requires sep !in a
    ensures Split(a + ([sep] + b), sep) == [a] + Split(b, sep)
  {
    if a == [] {
      assert a + ([sep] + b) == [sep] + b;
      assert ([sep] + b)[1..] == b;
    } else {
      assert (a + ([sep] + b))[1..] == a[1..] + ([sep] + b);
      SplitAtSeparator(a[1..], sep, b);
      assert [a[0]] + a[1..] == a;
    }
  }

  /** Prefixing a dot-free label and a dot adds that label in front. */
  lemma LabelThen(a: string, b: string, labels: seq<string>)
    requires '.' !in a && Split(b, '.') == labels
    ensures Split(a + ("." + b), '.') == [a] + labels
  {
    SplitAtSeparator(a, '.', b);
  }

  /** `LabelThen` with the labels after the first one split into a prefix and the rest. */
  lemma PrependLabel(head: string, tail: string, prefix: seq<string>, lastLabels: seq<string>)
    requires '.' !in head && Split(tail, '.') == prefix + lastLabels
    ensures Split(head + ("." + tail), '.') == ([head] + prefix) + lastLabels
  {
    LabelThen(head, tail, prefix + lastLabels);
  }

  /** The domain is the two labels `hailocab` and `net`. */
  lemma DomainLabels()
    ensures Split(Domain, '.') == ["hailocab", "net"]
  {
    assert Domain == "hailocab" + ("." + "net");
    SplitNoSeparator("net", '.');
    LabelThen("hailocab", "net", ["net"]);
  }

  /**
   * Splitting dot-joined pieces at dots gives back every piece but the last,
   * followed by the labels of the last piece, when no other piece has a dot.
   */
  lemma {:induction false} SplitJoinDots(parts: seq<string>)
    requires parts != []
    requires forall i :: 0 <= i < |parts| - 1 ==> '.' !in parts[i]
    ensures Split(JoinDots(parts), '.') == parts[..|parts| - 1] + Split(parts[|parts| - 1], '.')
  {
    if |parts| > 1 {
      var rest := parts[1..];
      var last := parts[|parts| - 1];
      assert rest[|rest| - 1] == last;
      assert forall i :: 0 <= i < |rest| - 1 ==> '.' !in rest[i] by {
        forall i | 0 <= i < |rest| - 1
          ensures '.' !in rest[i]
        {
          assert rest[i] == parts[i + 1];
        }
      }
      SplitJoinDots(rest);
      PrependLabel(parts[0], JoinDots(rest), rest[..|rest| - 1], Split(last, '.'));
      assert JoinDots(parts) == parts[0] + ("." + JoinDots(rest));
      assert parts[..|parts| - 1] == [parts[0]] + rest[..|rest| - 1];
    }
  }

  /**
   * The host name is the concatenation of its labels: when none of the inputs
   * contains a dot, splitting the name at dots gives back the role, the region,
   * the scope, the environment and the two labels of the domain.
   */
  lemma {:induction false} HostNameLabels(role: string, region: string, env: string)
    requires '.' !in role && '.' !in region && '.' !in env
    ensures Split(HostName(role, region, env), '.') == [role, region, "i", env, "hailocab", "net"]
  {
    var parts := [role, region, Scope, env, Domain];
    SplitJoinDots(parts);
    DomainLabels();
    assert parts[..4] == [role, region, "i", env];
  }

  /**
   * Go's string order: lexicographic on the bytes of the UTF-8 encoding, which
   * is the same as lexicographic on code points; a proper prefix comes first.
   */
  predicate LessEq(a: string, b: string)
  {
    a == [] || (b != [] && (a[0] < b[0] || (a[0] == b[0] && LessEq(a[1..], b[1..]))))
  }

  lemma {:induction false} LessEqReflexive(a: string)
    ensures LessEq(a, a)
  {
    if a != [] {
      LessEqReflexive(a[1..]);
    }
  }

  lemma {:induction false} LessEqTotal(a: string, b: string)
    ensures LessEq(a, b) || LessEq(b, a)
  {
    if a != [] && b != [] && a[0] == b[0] {
      LessEqTotal(a[1..], b[1..]);
    }
  }

  lemma {:induction false} LessEqTransitive(a: string, b: string, c: string)
    requires LessEq(a, b) && LessEq(b, c)
    ensures LessEq(a, c)
  {
    if a != [] && a[0] == b[0] && b[0] == c[0] {
      LessEqTransitive(a[1..], b[1..], c[1..]);
    }
  }

  lemma {:induction false} LessEqAntisymmetric(a: string, b: string)
    requires LessEq(a, b) && LessEq(b, a)
    ensures a == b
  {
    if a != [] {
      LessEqAntisymmetric(a[1..], b[1..]);
      assert a == [a[0]] + a[1..] && b == [b[0]] + b[1..];
    }
  }

  predicate Sorted(s: seq<string>)
  {
    forall i, j :: 0 <= i < j < |s| ==> LessEq(s[i], s[j])
  }

  /** The first element of a sorted sequence is at most any of its elements. */
  lemma SortedFirstLeast(s: seq<string>, x: string)
    requires Sorted(s) && x in s
    ensures LessEq(s[0], x)
  {
    var i :| 0 <= i < |s| && s[i] == x;
    if i == 0 {
      LessEqReflexive(x);
    }
  }

  lemma SortedTail(s: seq<string>)
    requires Sorted(s) && s != []
    ensures Sorted(s[1..])
  {
    forall i, j | 0 <= i < j < |s| - 1
      ensures LessEq(s[1..][i], s[1..][j])
    {
      assert s[1..][i] == s[i + 1] && s[1..][j] == s[j + 1];
    }
  }

  /** Two non-empty sequences with the same first element and the same rest are equal. */
  lemma SameHeadAndTail(s: seq<string>, t: seq<string>)
    requires s != [] && t != [] && s[0] == t[0] && s[1..] == t[1..]
    ensures s == t
  {
    assert s == [s[0]] + s[1..] && t == [t[0]] + t[1..];
  }

  /** Removing the first element of a sequence removes one occurrence of it from its multiset. */
  lemma MultisetTail(s: seq<string>)
    requires s != []
    ensures multiset(s[1..]) == multiset(s) - multiset{s[0]}
  {
    assert s == [s[0]] + s[1..];
  }

  /**
   * A sorted arrangement of a multiset of strings is unique, so the host list
   * `Hosts` returns is determined by the lookup result alone.
   */
  lemma {:induction false} SortedPermutationUnique(s: seq<string>, t: seq<string>)
    requires Sorted(s) && Sorted(t) && multiset(s) == multiset(t)
    ensures s == t
  {
    assert |s| == |multiset(s)| == |t|;
    if s != [] {
      assert s[0] in multiset(t) && t[0] in multiset(s);
      SortedFirstLeast(t, s[0]);
      SortedFirstLeast(s, t[0]);
      LessEqAntisymmetric(s[0], t[0]);
      MultisetTail(s);
      MultisetTail(t);
      SortedTail(s);
      SortedTail(t);
      SortedPermutationUnique(s[1..], t[1..]);
      SameHeadAndTail(s, t);
    }
  }

  /** The textual forms of the looked-up addresses, in lookup order. */
  function Shown(ips: seq<IP>, show: IP -> string): (names: seq<string>)
    ensures |names| == |ips|
    ensures forall i :: 0 <= i < |ips| ==> names[i] == show(ips[i])
  {
    seq(|ips|, i requires 0 <= i < |ips| => show(ips[i]))
  }

  /** The first `n` elements of the array are in order. */
  ghost predicate SortedPrefix(a: array<string>, n: int)
    reads a
    requires 0 <= n <= a.Length
  {
    forall p, q :: 0 <= p < q < n ==> LessEq(a[p], a[q])
  }

  /** One step of the insertion sort: moves `a[i]` down into the sorted prefix before it. */
  method InsertInto(a: array<string>, i: int)
    requires 0 <= i < a.Length && SortedPrefix(a, i)
    modifies a
    ensures SortedPrefix(a, i + 1)
    ensures a[i + 1..] == old(a[i + 1..])
    ensures multiset(a[..]) == old(multiset(a[..]))
  {
    var j := i;
    while j > 0 && !LessEq(a[j - 1], a[j])
      invariant 0 <= j <= i
      invariant a[i + 1..] == old(a[i + 1..])
      invariant forall p, q :: 0 <= p < q <= i && q != j ==> LessEq(a[p], a[q])
      invariant multiset(a[..]) == old(multiset(a[..]))
    {
      LessEqTotal(a[j - 1], a[j]);
      a[j - 1], a[j] := a[j], a[j - 1];
      j := j - 1;
    }
    forall p, q | 0 <= p < q <= i
      ensures LessEq(a[p], a[q])
    {
      if q == j && p < j - 1 {
        LessEqTransitive(a[p], a[j - 1], a[j]);
      }
    }
  }

  /** `sort.Strings`: sorts the slice in place into Go's string order. */
  method SortStrings(a: array<string>)
    modifies a
    ensures Sorted(a[..])
    ensures multiset(a[..]) == old(multiset(a[..]))
  {
    for i := 0 to a.Length
      invariant SortedPrefix(a, i)
      invariant multiset(a[..]) == old(multiset(a[..]))
    {
      InsertInto(a, i);
    }
  }

  /**
   * `Hosts(role)`: resolves the role's host name; a lookup error is returned
   * as is, otherwise the textual forms of the addresses come back sorted.
   */
  method Hosts(role: string, region: string, env: string,
               lookup: string -> Result<seq<IP>>, show: IP -> string)
    returns (r: Result<seq<string>>)
    ensures lookup(HostName(role, region, env)).Err? ==>
              r == Err(lookup(HostName(role, region, env)).error)
    ensures lookup(HostName(role, region, env)).Ok? ==>
              var ips := lookup(HostName(role, region, env)).value;
              && r.Ok?
              && |r.value| == |ips|
              && Sorted(r.value)
              && multiset(r.value) == multiset(Shown(ips, show))
  {
    var name := HostName(role, region, env);
    var found := lookup(name);
    if found.Err? {
      return Err(found.error);
    }
    var ips := found.value;
    var hosts: seq<string> := [];
    for k := 0 to |ips|
      invariant hosts == Shown(ips[..k], show)
    {
      hosts := hosts + [show(ips[k])];
    }
    assert ips[..|ips|] == ips;
    var a := new string[|hosts|](i requires 0 <= i < |hosts| => hosts[i]);
    assert a[..] == hosts;
    SortStrings(a);
    r := Ok(a[..]);
  }
}
