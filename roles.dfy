/** The options of the role dropdown: the sentinel "All", then every role
    that occurs in the data, once each, in order of first appearance. */
module Roles {
  import opened Records
  import Filters

  /** The role column of the data, record by record (json.map). */
  function RolesOf(data: seq<Record>): seq<string>
  {
    seq(|data|, i requires 0 <= i < |data| => data[i].role)
  }

  /** Array.from(new Set(s)): a Set keeps insertion order and ignores an
      element it already holds. */
  function Distinct<T(==)>(s: seq<T>): seq<T>
  {
    if s == [] then []
    else
      var seen := Distinct(s[..|s| - 1]);
      if s[|s| - 1] in seen then seen else seen + [s[|s| - 1]]
  }

  /** The position where x first occurs in s. */
  function FirstIndex<T(==)>(s: seq<T>, x: T): (i: nat)
    requires x in s
    ensures i < |s| && s[i] == x && x !in s[..i]
  {
    if x in s[..|s| - 1] then
      var i := FirstIndex(s[..|s| - 1], x);
      assert s[..i] == s[..|s| - 1][..i];
      i
    else
      assert s == s[..|s| - 1] + [s[|s| - 1]];
      |s| - 1
  }

  /** The role list built when the data arrives: 'All' in front of the
      distinct roles of the data. */
  function RoleOptions(data: seq<Record>): seq<string>
  {
    [Filters.AllRoles] + Distinct(RolesOf(data))
  }

  // ---------------------------------------------------------------------
  // Lemmas about Distinct

  /** One more element at the end: the Set either holds it already or
      takes it last. */
  lemma DistinctSnoc<T>(s: seq<T>, y: T)
    ensures Distinct(s + [y]) == if y in Distinct(s) then Distinct(s) else Distinct(s) + [y]
  {
    assert (s + [y])[..|s + [y]| - 1] == s;
  }

  /** Distinct keeps exactly the elements of its input. */
  lemma {:induction false} DistinctElements<T>(s: seq<T>)
    ensures forall x :: x in Distinct(s) <==> x in s
  {
    if s != [] {
      var init := s[..|s| - 1];
      DistinctElements(init);
      assert s == init + [s[|s| - 1]];
    }
  }

  /** Distinct lists no element twice. */
  lemma {:induction false} DistinctNoDuplicates<T>(s: seq<T>)
    ensures forall i, j :: 0 <= i < j < |Distinct(s)| ==> Distinct(s)[i] != Distinct(s)[j]
  {
    if s != [] {
      DistinctNoDuplicates(s[..|s| - 1]);
    }
  }

  lemma FirstIndexSnoc<T>(s: seq<T>, y: T, x: T)
    requires x in s
    ensures x in s + [y] && FirstIndex(s + [y], x) == FirstIndex(s, x)
  {
    assert (s + [y])[..|s|] == s;
  }

  /** Distinct lists the elements in the order of their first occurrence. */
  lemma {:induction false} DistinctFirstAppearanceOrder<T>(s: seq<T>)
    ensures forall x :: x in Distinct(s) ==> x in s
    ensures forall i, j :: 0 <= i < j < |Distinct(s)| ==>
              FirstIndex(s, Distinct(s)[i]) < FirstIndex(s, Distinct(s)[j])
  {
    DistinctElements(s);
    if s != [] {
      var init, y := s[..|s| - 1], s[|s| - 1];
      var d, e := Distinct(init), Distinct(s);
      assert s == init + [y];
      DistinctFirstAppearanceOrder(init);
      DistinctElements(init);
      assert e == if y in d then d else d + [y];
      forall i, j | 0 <= i < j < |e| ensures FirstIndex(s, e[i]) < FirstIndex(s, e[j]) {
        assert e[i] == d[i] && d[i] in init;
        FirstIndexSnoc(init, y, d[i]);
        if j < |d| {
          assert e[j] == d[j] && d[j] in init;
          FirstIndexSnoc(init, y, d[j]);
        } else {
          assert e[j] == y && y !in init;
        }
      }
    }
  }

  /** Distinct has one entry per distinct element of its input. */
  lemma {:induction false} DistinctLength<T>(s: seq<T>)
    ensures |Distinct(s)| == |set x | x in s|
  {
    if s != [] {
      var init, y := s[..|s| - 1], s[|s| - 1];
      assert s == init + [y];
      DistinctLength(init);
      DistinctElements(init);
      assert (set x | x in s) == (set x | x in init) + {y};
      if y in init {
        assert (set x | x in s) == (set x | x in init);
      } else {
        assert y !in (set x | x in init);
        assert Distinct(s) == Distinct(init) + [y];
      }
    }
  }

  // ---------------------------------------------------------------------
  // Properties of the role list

  /** The role list starts with "All", then holds each role of the data
      exactly once, in order of first appearance, so its length is one more
      than the number of distinct roles. */
  lemma RoleOptionsSpec(data: seq<Record>)
    ensures RoleOptions(data)[0] == Filters.AllRoles
    ensures forall role :: role in RoleOptions(data)[1..] <==> exists r :: r in data && r.role == role
    ensures forall i, j :: 1 <= i < j < |RoleOptions(data)| ==> RoleOptions(data)[i] != RoleOptions(data)[j]
    ensures forall role :: role in RoleOptions(data)[1..] ==> role in RolesOf(data)
    ensures forall i, j :: 1 <= i < j < |RoleOptions(data)| ==>
              FirstIndex(RolesOf(data), RoleOptions(data)[i]) < FirstIndex(RolesOf(data), RoleOptions(data)[j])
    ensures |RoleOptions(data)| == 1 + |set r | r in data :: r.role|
  {
    var roles := RolesOf(data);
    var options := RoleOptions(data);
    assert options[1..] == Distinct(roles);
    DistinctElements(roles);
    DistinctNoDuplicates(roles);
    DistinctFirstAppearanceOrder(roles);
    DistinctLength(roles);
    forall role ensures role in roles <==> exists r :: r in data && r.role == role {
      if role in roles {
        var i :| 0 <= i < |roles| && roles[i] == role;
        assert data[i] in data;
      }
      if exists r :: r in data && r.role == role {
        var r :| r in data && r.role == role;
        var i :| 0 <= i < |data| && data[i] == r;
        assert roles[i] == role;
      }
    }
    assert (set x | x in roles) == (set r | r in data :: r.role);
  }

  /** In a sequence without repetitions every element occurs once. */
  lemma {:induction false} CountWithoutDuplicates<T>(s: seq<T>, x: T)
    requires forall i, j :: 0 <= i < j < |s| ==> s[i] != s[j]
    ensures multiset(s)[x] == if x in s then 1 else 0
  {
    if s != [] {
      var init := s[..|s| - 1];
      assert s == init + [s[|s| - 1]];
      CountWithoutDuplicates(init, x);
      if x in init {
        var i :| 0 <= i < |init| && init[i] == x;
        assert s[i] != s[|s| - 1];
      }
    }
  }

  /** The sentinel is not removed from the data's own roles: when some record
      has the role "All", the list holds "All" twice. */
  lemma SentinelNotDeduplicated(data: seq<Record>)
    ensures multiset(RoleOptions(data))[Filters.AllRoles] ==
              if exists r :: r in data && r.role == Filters.AllRoles then 2 else 1
  {
    var d := Distinct(RolesOf(data));
    RoleOptionsSpec(data);
    DistinctNoDuplicates(RolesOf(data));
    CountWithoutDuplicates(d, Filters.AllRoles);
    assert RoleOptions(data) == [Filters.AllRoles] + d;
    assert RoleOptions(data)[1..] == d;
  }
}
