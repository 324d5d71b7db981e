/** The filter stage run on every filter change: an optional open date
    interval and an optional exact role, combined with AND. */
module Filters {
  import opened Records

  /** The role selection that means "no role filter". */
  const AllRoles: string := "All"

  /** The dashboard's filter selections: the two ends of the date-range
      picker (None while unset) and the selected role. */
  datatype FilterState = FilterState(from: Option<Timestamp>, to: Option<Timestamp>, role: string)

  /** The selections the dashboard starts with. */
  const Initial: FilterState := FilterState(None, None, AllRoles)

  /** The date predicate is applied only when both ends are set. */
  predicate DateRangeSet(f: FilterState)
  {
    f.from.Some? && f.to.Some?
  }

  /** The date predicate: strictly after the start and strictly before the end. */
  predicate InDateRange(f: FilterState, r: Record)
    requires DateRangeSet(f)
  {
    f.from.value < r.time && r.time < f.to.value
  }

  /** The role predicate: exact, case-sensitive equality. */
  predicate HasRole(f: FilterState, r: Record)
  {
    r.role == f.role
  }

  /** Whether a record survives the whole filter stage, both predicates at once. */
  predicate Passes(f: FilterState, r: Record)
  {
    && (DateRangeSet(f) ==> InDateRange(f, r))
    && (f.role != AllRoles ==> HasRole(f, r))
  }

  function DateStage(f: FilterState): Record -> bool
    requires DateRangeSet(f)
  {
    r => InDateRange(f, r)
  }

  function RoleStage(f: FilterState): Record -> bool
  {
    r => HasRole(f, r)
  }

  function Admits(f: FilterState): Record -> bool
  {
    r => Passes(f, r)
  }

  /** Array.prototype.filter: the elements of s that p accepts, in order. */
  function Keep<T>(s: seq<T>, p: T -> bool): seq<T>
  {
    if s == [] then []
    else Keep(s[..|s| - 1], p) + (if p(s[|s| - 1]) then [s[|s| - 1]] else [])
  }

  /** The one-pass reference: the records of raw that pass both predicates, in order. */
  function Selected(raw: seq<Record>, f: FilterState): seq<Record>
  {
    Keep(raw, Admits(f))
  }

  /** a can be obtained from b by deleting elements: an order-preserving subsequence. */
  predicate IsSubsequence<T(==)>(a: seq<T>, b: seq<T>)
    decreases |b|
  {
    if a == [] then true
    else if b == [] then false
    else if a[|a| - 1] == b[|b| - 1] then IsSubsequence(a[..|a| - 1], b[..|b| - 1])
    else IsSubsequence(a, b[..|b| - 1])
  }

  /** The body of handleFilterChange up to the aggregation: start from a copy
      of the records, narrow by date when both ends are set, then narrow by
      role unless the selection is "All". */
  method FilterRecords(raw: seq<Record>, f: FilterState) returns (filtered: seq<Record>)
    ensures filtered == Selected(raw, f)
  {
    filtered := raw;
    if DateRangeSet(f) {
      filtered := Keep(filtered, DateStage(f));
    }
    if f.role != AllRoles {
      filtered := Keep(filtered, RoleStage(f));
    }
    if DateRangeSet(f) && f.role != AllRoles {
      KeepTwice(raw, DateStage(f), RoleStage(f), Admits(f));
    } else if DateRangeSet(f) {
      KeepSame(raw, DateStage(f), Admits(f));
    } else if f.role != AllRoles {
      KeepSame(raw, RoleStage(f), Admits(f));
    } else {
      KeepAllOf(raw, Admits(f));
    }
  }

  // ---------------------------------------------------------------------
  // Lemmas about Keep

  /** Filtering with two predicates that agree gives the same result. */
  lemma {:induction false} KeepSame<T>(s: seq<T>, p: T -> bool, q: T -> bool)
    requires forall x :: p(x) == q(x)
    ensures Keep(s, p) == Keep(s, q)
  {
    if s != [] { KeepSame(s[..|s| - 1], p, q); }
  }

  /** A filter that accepts everything returns its input unchanged. */
  lemma {:induction false} KeepAllOf<T>(s: seq<T>, p: T -> bool)
    requires forall x :: x in s ==> p(x)
    ensures Keep(s, p) == s
  {
    if s != [] {
      assert s == s[..|s| - 1] + [s[|s| - 1]];
      KeepAllOf(s[..|s| - 1], p);
    }
  }

  lemma KeepSnoc<T>(s: seq<T>, x: T, p: T -> bool)
    ensures Keep(s + [x], p) == Keep(s, p) + (if p(x) then [x] else [])
  {
    assert (s + [x])[..|s|] == s;
  }

  /** Two filters in a row are one filter with the conjunction of both predicates. */
  lemma {:induction false} KeepTwice<T>(s: seq<T>, p: T -> bool, q: T -> bool, pq: T -> bool)
    requires forall x :: pq(x) == (p(x) && q(x))
    ensures Keep(Keep(s, p), q) == Keep(s, pq)
  {
    if s != [] {
      var init, x := s[..|s| - 1], s[|s| - 1];
      KeepTwice(init, p, q, pq);
      assert pq(x) == (p(x) && q(x));
      assert s == init + [x];
      KeepSnoc(init, x, p);
      KeepSnoc(init, x, pq);
      if p(x) {
        KeepSnoc(Keep(init, p), x, q);
      } else {
        assert Keep(s, p) == Keep(init, p);
        assert Keep(s, pq) == Keep(init, pq);
      }
    }
  }

  /** Every element Keep returns is accepted by the predicate. */
  lemma {:induction false} KeepAccepted<T>(s: seq<T>, p: T -> bool)
    ensures forall x :: x in Keep(s, p) ==> x in s && p(x)
  {
    if s != [] {
      KeepAccepted(s[..|s| - 1], p);
      assert forall x :: x in s[..|s| - 1] ==> x in s;
    }
  }

  /** Keep takes every occurrence of an accepted element and none of a rejected one. */
  lemma {:induction false} KeepCounts<T>(s: seq<T>, p: T -> bool)
    ensures forall x :: multiset(Keep(s, p))[x] == if p(x) then multiset(s)[x] else 0
  {
    if s != [] {
      var init := s[..|s| - 1];
      assert s == init + [s[|s| - 1]];
      KeepCounts(init, p);
    }
  }

  /** Keep preserves the relative order of what it keeps. */
  lemma {:induction false} KeepIsSubsequence<T>(s: seq<T>, p: T -> bool)
    ensures IsSubsequence(Keep(s, p), s)
  {
    if s != [] {
      var init, x := s[..|s| - 1], s[|s| - 1];
      KeepIsSubsequence(init, p);
      if p(x) {
        assert Keep(s, p)[..|Keep(s, p)| - 1] == Keep(init, p);
      } else {
        var k := Keep(init, p);
        if k != [] {
          KeepAccepted(init, p);
          assert k[|k| - 1] in k;
          assert p(k[|k| - 1]);
          assert k[|k| - 1] != s[|s| - 1];
          assert s[..|s| - 1] == init;
          assert Keep(s, p) == k;
        }
      }
    }
  }

  // ---------------------------------------------------------------------
  // Properties of the filter stage

  /** With the date range incomplete and the role "All", nothing is filtered out. */
  lemma NoFilterIsIdentity(raw: seq<Record>, f: FilterState)
    requires !DateRangeSet(f) && f.role == AllRoles
    ensures Selected(raw, f) == raw
  {
    KeepAllOf(raw, Admits(f));
  }

  /** The filtered records are an order-preserving subsequence of the input. */
  lemma SelectedIsSubsequence(raw: seq<Record>, f: FilterState)
    ensures IsSubsequence(Selected(raw, f), raw)
  {
    KeepIsSubsequence(raw, Admits(f));
  }

  /** Every kept record lies strictly inside a complete date range and has
      the selected role unless that is "All"; every record meeting both
      predicates is kept, as often as it occurs in the input. */
  lemma SelectedExactly(raw: seq<Record>, f: FilterState)
    ensures forall r :: r in Selected(raw, f) ==> r in raw
    ensures DateRangeSet(f) ==> forall r :: r in Selected(raw, f) ==> f.from.value < r.time < f.to.value
    ensures f.role != AllRoles ==> forall r :: r in Selected(raw, f) ==> r.role == f.role
    ensures forall r :: multiset(Selected(raw, f))[r] == if Passes(f, r) then multiset(raw)[r] else 0
  {
    KeepAccepted(raw, Admits(f));
    KeepCounts(raw, Admits(f));
  }
}
