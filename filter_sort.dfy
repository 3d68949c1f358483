/** The client-side filter and sort applied to a sticky's task list
    (`StickyViewModel.filteredTasks`). */
module FilterSort {
  import opened Wrappers
  import opened Timestamps
  import opened TaskModel

  // =====================================================================
  // Case-insensitive substring match

  /** Case folding, restricted to ASCII letters. */
  function Lower(c: char): char {
    if 'A' <= c <= 'Z' then (c as int + 32) as char else c
  }

  function Fold(s: string): (r: string)
    ensures |r| == |s| && forall i | 0 <= i < |s| :: r[i] == Lower(s[i])
  {
    seq(|s|, i requires 0 <= i < |s| => Lower(s[i]))
  }

  /** `needle` occurs in `hay` as a contiguous run. */
  predicate IsInfix(needle: string, hay: string)
    decreases |hay|
  {
    needle <= hay || (hay != [] && IsInfix(needle, hay[1..]))
  }

  /** `needle` sits in `hay` starting at index i. */
  predicate OccursAt(needle: string, hay: string, i: int) {
    0 <= i && i + |needle| <= |hay| && hay[i..i + |needle|] == needle
  }

  /** IsInfix holds iff `needle` sits at some position of `hay`. */
  lemma {:induction false} IsInfixAt(needle: string, hay: string)
    ensures IsInfix(needle, hay) <==> exists i :: OccursAt(needle, hay, i)
    decreases |hay|
  {
    if needle <= hay {
      assert OccursAt(needle, hay, 0);
    } else if hay != [] {
      IsInfixAt(needle, hay[1..]);
      if exists j :: OccursAt(needle, hay[1..], j) {
        var j :| OccursAt(needle, hay[1..], j);
        assert hay[j + 1..j + 1 + |needle|] == hay[1..][j..j + |needle|];
        assert OccursAt(needle, hay, j + 1);
      }
      if exists i :: OccursAt(needle, hay, i) {
        var i :| OccursAt(needle, hay, i);
        if i > 0 {
          assert hay[1..][i - 1..i - 1 + |needle|] == hay[i..i + |needle|];
          assert OccursAt(needle, hay[1..], i - 1);
        }
      }
    }
  }

  /** `localizedCaseInsensitiveContains`, with ASCII case folding. */
  predicate ContainsIgnoringCase(hay: string, needle: string) {
    IsInfix(Fold(needle), Fold(hay))
  }

  /** The filter predicate: the text occurs in the title, the project or a tag. */
  predicate Matches(t: TWTask, filter: string) {
    || ContainsIgnoringCase(t.title, filter)
    || (t.project.Some? && ContainsIgnoringCase(t.project.value, filter))
    || exists i | 0 <= i < |t.tags| :: ContainsIgnoringCase(t.tags[i], filter)
  }

  function FilterTasks(ts: seq<TWTask>, filter: string): seq<TWTask> {
    if ts == [] then []
    else if Matches(ts[0], filter) then [ts[0]] + FilterTasks(ts[1..], filter)
    else FilterTasks(ts[1..], filter)
  }

  /** `a` is `b` with some elements left out, the rest in their order. */
  predicate IsSubsequence(a: seq<TWTask>, b: seq<TWTask>)
    decreases |b|
  {
    if b == [] then a == []
    else (a != [] && a[0] == b[0] && IsSubsequence(a[1..], b[1..])) || IsSubsequence(a, b[1..])
  }

  /** The filter result is a subsequence of its input. */
  lemma {:induction false} FilterIsSubsequence(ts: seq<TWTask>, filter: string)
    ensures IsSubsequence(FilterTasks(ts, filter), ts)
  {
    if ts != [] {
      FilterIsSubsequence(ts[1..], filter);
    }
  }

  /** A task is kept, as many times as it occurs, iff it matches. */
  lemma {:induction false} FilterKeepsExactlyMatches(ts: seq<TWTask>, filter: string)
    ensures forall x :: multiset(FilterTasks(ts, filter))[x] == if Matches(x, filter) then multiset(ts)[x] else 0
  {
    if ts != [] {
      FilterKeepsExactlyMatches(ts[1..], filter);
      assert ts == [ts[0]] + ts[1..];
    }
  }

  // =====================================================================
  // The sort keys and the comparator

  datatype SortField = ByTitle | ByProject | ByAge | ByPriority | Unrecognised

  function FieldNamed(sortBy: string): SortField {
    match sortBy
    case "title" => ByTitle
    case "project" => ByProject
    case "age" => ByAge
    case "priority" => ByPriority
    case _ => Unrecognised
  }

  /** A string as its character codes, for `String <` as code order. */
  function Codes(s: string): (r: seq<int>)
    ensures |r| == |s|
  {
    seq(|s|, i requires 0 <= i < |s| => s[i] as int)
  }

  /** The value a field compares; a missing project or priority counts as
      "", a missing entry date as `Date.distantPast`. */
  function SortKey(field: SortField, t: TWTask): seq<int> {
    match field
    case ByTitle => Codes(t.title)
    case ByProject => Codes(t.project.GetOr(""))
    case ByAge => Fields(t.age.GetOr(DistantPast))
    case ByPriority => Codes(t.priority.GetOr(""))
    case Unrecognised => []
  }

  /** Lexicographic strict order. */
  predicate LexLess(a: seq<int>, b: seq<int>)
    decreases |a|
  {
    if a == [] then b != []
    else b != [] && (a[0] < b[0] || (a[0] == b[0] && LexLess(a[1..], b[1..])))
  }

  lemma {:induction false} LexIrreflexive(a: seq<int>)
    ensures !LexLess(a, a)
  {
    if a != [] { LexIrreflexive(a[1..]); }
  }

  lemma {:induction false} LexAsymmetric(a: seq<int>, b: seq<int>)
    ensures LexLess(a, b) ==> !LexLess(b, a)
  {
    if a != [] && b != [] { LexAsymmetric(a[1..], b[1..]); }
  }

  lemma {:induction false} LexTransitive(a: seq<int>, b: seq<int>, c: seq<int>)
    requires LexLess(a, b) && LexLess(b, c)
    ensures LexLess(a, c)
  {
    if a != [] && a[0] == b[0] && b[0] == c[0] {
      LexTransitive(a[1..], b[1..], c[1..]);
    }
  }

  lemma {:induction false} LexTrichotomy(a: seq<int>, b: seq<int>)
    ensures a == b || LexLess(a, b) || LexLess(b, a)
  {
    if a != [] && b != [] && a[0] == b[0] {
      LexTrichotomy(a[1..], b[1..]);
      if a[1..] == b[1..] {
        assert a == [a[0]] + a[1..] && b == [b[0]] + b[1..];
      }
    }
  }

  /** The closure passed to `sort`: the key order, flipped for descending;
      for an unrecognised field nothing precedes anything. */
  predicate Precedes(field: SortField, ascending: bool, a: TWTask, b: TWTask) {
    if field == Unrecognised then false
    else if ascending then LexLess(SortKey(field, a), SortKey(field, b))
    else LexLess(SortKey(field, b), SortKey(field, a))
  }

  /** Tasks with equal keys never precede one another. */
  lemma EqualKeysTie(field: SortField, ascending: bool, a: TWTask, b: TWTask)
    requires SortKey(field, a) == SortKey(field, b)
    ensures !Precedes(field, ascending, a, b)
  {
    LexIrreflexive(SortKey(field, a));
  }

  lemma PrecedesAsymmetric(field: SortField, ascending: bool, a: TWTask, b: TWTask)
    ensures Precedes(field, ascending, a, b) ==> !Precedes(field, ascending, b, a)
  {
    LexAsymmetric(SortKey(field, a), SortKey(field, b));
    LexAsymmetric(SortKey(field, b), SortKey(field, a));
  }

  /** "Not after" is transitive, as a sort needs of its comparator. */
  lemma NotPrecedesTransitive(field: SortField, ascending: bool, a: TWTask, b: TWTask, c: TWTask)
    requires !Precedes(field, ascending, b, a) && !Precedes(field, ascending, c, b)
    ensures !Precedes(field, ascending, c, a)
  {
    if field != Unrecognised {
      var ka, kb, kc := SortKey(field, a), SortKey(field, b), SortKey(field, c);
      LexTrichotomy(ka, kb);
      LexTrichotomy(kb, kc);
      LexAsymmetric(ka, kc);
      LexAsymmetric(kc, ka);
      LexIrreflexive(ka);
      if ascending {
        if LexLess(ka, kb) && LexLess(kb, kc) { LexTransitive(ka, kb, kc); }
      } else {
        if LexLess(kb, ka) && LexLess(kc, kb) { LexTransitive(kc, kb, ka); }
      }
    }
  }

  /** Tasks with different keys are ordered one way or the other. */
  lemma DistinctKeysOrdered(field: SortField, ascending: bool, a: TWTask, b: TWTask)
    requires SortKey(field, a) != SortKey(field, b)
    ensures Precedes(field, ascending, a, b) || Precedes(field, ascending, b, a)
  {
    LexTrichotomy(SortKey(field, a), SortKey(field, b));
  }

  // =====================================================================
  // A stable sort

  /** Puts x after every element that strictly precedes it, before the rest. */
  function Insert(field: SortField, ascending: bool, x: TWTask, s: seq<TWTask>): seq<TWTask> {
    if s == [] || !Precedes(field, ascending, s[0], x) then [x] + s
    else [s[0]] + Insert(field, ascending, x, s[1..])
  }

  /** Insertion sort: each element goes in front of the equal-keyed ones
      that came after it, so ties keep their input order. */
  function Sort(field: SortField, ascending: bool, s: seq<TWTask>): seq<TWTask> {
    if s == [] then [] else Insert(field, ascending, s[0], Sort(field, ascending, s[1..]))
  }

  /** No later element precedes an earlier one. */
  predicate Sorted(field: SortField, ascending: bool, s: seq<TWTask>) {
    forall i, j | 0 <= i < j < |s| :: !Precedes(field, ascending, s[j], s[i])
  }

  lemma {:induction false} InsertPermutes(field: SortField, ascending: bool, x: TWTask, s: seq<TWTask>)
    ensures multiset(Insert(field, ascending, x, s)) == multiset(s) + multiset{x}
  {
    if s != [] && Precedes(field, ascending, s[0], x) {
      InsertPermutes(field, ascending, x, s[1..]);
      assert s == [s[0]] + s[1..];
    }
  }

  lemma {:induction false} SortPermutes(field: SortField, ascending: bool, s: seq<TWTask>)
    ensures multiset(Sort(field, ascending, s)) == multiset(s)
  {
    if s != [] {
      SortPermutes(field, ascending, s[1..]);
      InsertPermutes(field, ascending, s[0], Sort(field, ascending, s[1..]));
      assert s == [s[0]] + s[1..];
    }
  }

  /** Every element of Insert(x, s) is x or an element of s. */
  lemma InsertMembers(field: SortField, ascending: bool, x: TWTask, s: seq<TWTask>)
    ensures forall y | y in Insert(field, ascending, x, s) :: y == x || y in s
  {
    InsertPermutes(field, ascending, x, s);
    forall y | y in Insert(field, ascending, x, s) ensures y == x || y in s {
      assert y in multiset(Insert(field, ascending, x, s));
    }
  }

  /** x goes first when the head of s does not precede it. */
  lemma InsertSortedFront(field: SortField, ascending: bool, x: TWTask, s: seq<TWTask>)
    requires Sorted(field, ascending, s)
    requires s != [] && !Precedes(field, ascending, s[0], x)
    ensures Sorted(field, ascending, [x] + s)
  {
    var r := [x] + s;
    forall i, j | 0 <= i < j < |r| ensures !Precedes(field, ascending, r[j], r[i]) {
      if i == 0 && j > 1 {
        assert r[j] == s[j - 1];
        NotPrecedesTransitive(field, ascending, x, s[0], s[j - 1]);
      } else if i > 0 {
        assert r[i] == s[i - 1] && r[j] == s[j - 1];
      }
    }
  }

  /** The head stays first when it precedes x. */
  lemma InsertSortedBehind(field: SortField, ascending: bool, x: TWTask, s: seq<TWTask>, rest: seq<TWTask>)
    requires Sorted(field, ascending, s) && Sorted(field, ascending, rest)
    requires s != [] && Precedes(field, ascending, s[0], x)
    requires forall y | y in rest :: y == x || y in s[1..]
    ensures Sorted(field, ascending, [s[0]] + rest)
  {
    var r := [s[0]] + rest;
    forall i, j | 0 <= i < j < |r| ensures !Precedes(field, ascending, r[j], r[i]) {
      assert r[j] == rest[j - 1];
      if i == 0 {
        var y := rest[j - 1];
        assert y in rest;
        if y == x {
          PrecedesAsymmetric(field, ascending, s[0], x);
        } else {
          var k :| 0 <= k < |s[1..]| && s[1..][k] == y;
          assert s[k + 1] == y;
        }
      } else {
        assert r[i] == rest[i - 1];
      }
    }
  }

  lemma {:induction false} InsertSorted(field: SortField, ascending: bool, x: TWTask, s: seq<TWTask>)
    requires Sorted(field, ascending, s)
    ensures Sorted(field, ascending, Insert(field, ascending, x, s))
  {
    if s == [] {
    } else if !Precedes(field, ascending, s[0], x) {
      InsertSortedFront(field, ascending, x, s);
    } else {
      InsertSorted(field, ascending, x, s[1..]);
      InsertMembers(field, ascending, x, s[1..]);
      InsertSortedBehind(field, ascending, x, s, Insert(field, ascending, x, s[1..]));
    }
  }

  /** The sort result is ordered by the comparator. */
  lemma {:induction false} SortSorted(field: SortField, ascending: bool, s: seq<TWTask>)
    ensures Sorted(field, ascending, Sort(field, ascending, s))
  {
    if s != [] {
      SortSorted(field, ascending, s[1..]);
      InsertSorted(field, ascending, s[0], Sort(field, ascending, s[1..]));
    }
  }

  /** The tasks of `s` whose key is k, in their order in `s`. */
  function WithKey(field: SortField, k: seq<int>, s: seq<TWTask>): seq<TWTask> {
    if s == [] then []
    else (if SortKey(field, s[0]) == k then [s[0]] else []) + WithKey(field, k, s[1..])
  }

  lemma {:induction false} InsertStable(field: SortField, ascending: bool, x: TWTask, s: seq<TWTask>, k: seq<int>)
    ensures WithKey(field, k, Insert(field, ascending, x, s)) ==
            (if SortKey(field, x) == k then [x] else []) + WithKey(field, k, s)
  {
    if s == [] || !Precedes(field, ascending, s[0], x) {
      assert ([x] + s)[1..] == s;
    } else {
      var rest := Insert(field, ascending, x, s[1..]);
      assert ([s[0]] + rest)[1..] == rest;
      InsertStable(field, ascending, x, s[1..], k);
      if SortKey(field, s[0]) == SortKey(field, x) {
        EqualKeysTie(field, ascending, s[0], x);
      }
    }
  }

  /** The sort is stable: the tasks of one key keep their input order. */
  lemma {:induction false} SortStable(field: SortField, ascending: bool, s: seq<TWTask>, k: seq<int>)
    ensures WithKey(field, k, Sort(field, ascending, s)) == WithKey(field, k, s)
  {
    if s != [] {
      SortStable(field, ascending, s[1..], k);
      InsertStable(field, ascending, s[0], Sort(field, ascending, s[1..]), k);
    }
  }

  /** With an unrecognised field the order is left as it is. */
  lemma {:induction false} UnrecognisedKeepsOrder(ascending: bool, s: seq<TWTask>)
    ensures Sort(Unrecognised, ascending, s) == s
  {
    if s != [] {
      UnrecognisedKeepsOrder(ascending, s[1..]);
      assert [s[0]] + s[1..] == s;
    }
  }

  // ---------------------------------------------------------------------
  // Descending is the reverse of ascending, for distinct keys

  function Reverse(s: seq<TWTask>): (r: seq<TWTask>)
    ensures |r| == |s| && forall i | 0 <= i < |s| :: r[i] == s[|s| - 1 - i]
  {
    seq(|s|, i requires 0 <= i < |s| => s[|s| - 1 - i])
  }

  lemma {:induction false} ReversePermutes(s: seq<TWTask>)
    ensures multiset(Reverse(s)) == multiset(s)
  {
    if s != [] {
      var n := |s| - 1;
      ReversePermutes(s[..n]);
      assert Reverse(s) == [s[n]] + Reverse(s[..n]);
      assert s == s[..n] + [s[n]];
    }
  }

  /** Different tasks have different keys. */
  predicate DistinctKeys(field: SortField, s: seq<TWTask>) {
    forall x, y | x in s && y in s && x != y :: SortKey(field, x) != SortKey(field, y)
  }

  lemma SortedHeadsAgree(field: SortField, ascending: bool, a: seq<TWTask>, b: seq<TWTask>)
    requires a != [] && b != [] && multiset(a) == multiset(b)
    requires Sorted(field, ascending, a) && Sorted(field, ascending, b)
    requires DistinctKeys(field, a)
    ensures a[0] == b[0]
  {
    if a[0] != b[0] {
      assert a[0] in multiset(b) && b[0] in multiset(a);
      var j :| 0 <= j < |b| && b[j] == a[0];
      var i :| 0 <= i < |a| && a[i] == b[0];
      assert !Precedes(field, ascending, a[i], a[0]);
      assert !Precedes(field, ascending, b[j], b[0]);
      DistinctKeysOrdered(field, ascending, a[0], b[0]);
    }
  }

  /** Two orderings of the same tasks, both sorted, with distinct keys, agree. */
  lemma {:induction false} SortedPermutationUnique(field: SortField, ascending: bool, a: seq<TWTask>, b: seq<TWTask>)
    requires multiset(a) == multiset(b)
    requires Sorted(field, ascending, a) && Sorted(field, ascending, b)
    requires DistinctKeys(field, a)
    ensures a == b
    decreases |a|
  {
    if a == [] {
      assert |multiset(b)| == 0;
    } else {
      assert |b| == |multiset(b)| == |multiset(a)| == |a|;
      SortedHeadsAgree(field, ascending, a, b);
      TailsPermutation(a, b);
      DistinctKeysTail(field, a);
      SortedTail(field, ascending, a);
      SortedTail(field, ascending, b);
      SortedPermutationUnique(field, ascending, a[1..], b[1..]);
    }
  }

  lemma TailsPermutation(a: seq<TWTask>, b: seq<TWTask>)
    requires a != [] && b != [] && a[0] == b[0] && multiset(a) == multiset(b)
    ensures multiset(a[1..]) == multiset(b[1..])
  {
    assert a == [a[0]] + a[1..] && b == [b[0]] + b[1..];
    assert multiset(a) == multiset{a[0]} + multiset(a[1..]);
    assert multiset(b) == multiset{b[0]} + multiset(b[1..]);
    assert multiset(a[1..]) == multiset(a) - multiset{a[0]};
    assert multiset(b[1..]) == multiset(b) - multiset{b[0]};
  }

  lemma DistinctKeysTail(field: SortField, s: seq<TWTask>)
    requires s != [] && DistinctKeys(field, s)
    ensures DistinctKeys(field, s[1..])
  {
    forall x, y | x in s[1..] && y in s[1..] && x != y ensures SortKey(field, x) != SortKey(field, y) {
      assert x in s && y in s;
    }
  }

  lemma SortedTail(field: SortField, ascending: bool, s: seq<TWTask>)
    requires s != [] && Sorted(field, ascending, s)
    ensures Sorted(field, ascending, s[1..])
  {
    forall i, j | 0 <= i < j < |s[1..]| ensures !Precedes(field, ascending, s[1..][j], s[1..][i]) {
      assert s[1..][j] == s[j + 1] && s[1..][i] == s[i + 1];
    }
  }

  /** Reversing an ascending order gives a descending one. */
  lemma ReverseSorted(field: SortField, s: seq<TWTask>)
    requires Sorted(field, true, s)
    ensures Sorted(field, false, Reverse(s))
  {
    var r := Reverse(s);
    forall i, j | 0 <= i < j < |r| ensures !Precedes(field, false, r[j], r[i]) {
      assert r[j] == s[|s| - 1 - j] && r[i] == s[|s| - 1 - i];
    }
  }

  lemma DistinctKeysPermutation(field: SortField, a: seq<TWTask>, b: seq<TWTask>)
    requires multiset(a) == multiset(b) && DistinctKeys(field, a)
    ensures DistinctKeys(field, b)
  {
    forall x, y | x in b && y in b && x != y ensures SortKey(field, x) != SortKey(field, y) {
      assert x in multiset(b) && y in multiset(b);
      assert x in a && y in a;
    }
  }

  /** For distinct keys, sorting descending gives the ascending result reversed. */
  lemma DescendingReversesAscending(field: SortField, s: seq<TWTask>)
    requires DistinctKeys(field, s)
    ensures Sort(field, false, s) == Reverse(Sort(field, true, s))
  {
    var up, down := Sort(field, true, s), Sort(field, false, s);
    SortPermutes(field, true, s);
    SortPermutes(field, false, s);
    SortSorted(field, true, s);
    SortSorted(field, false, s);
    ReversePermutes(up);
    ReverseSorted(field, up);
    DistinctKeysPermutation(field, s, down);
    SortedPermutationUnique(field, false, down, Reverse(up));
  }

  // =====================================================================
  // filteredTasks

  /** Ascending unless the order is exactly "descending". */
  function IsAscending(sortOrder: Option<string>): bool {
    sortOrder != Some("descending")
  }

  /** A nil or empty filter keeps every task. */
  function Filtered(tasks: seq<TWTask>, filter: Option<string>): seq<TWTask> {
    if filter.Some? && filter.value != "" then FilterTasks(tasks, filter.value) else tasks
  }

  /** The tasks a sticky shows: filtered, then sorted when a field is set. */
  function Apply(tasks: seq<TWTask>, filter: Option<string>, sortBy: Option<string>, sortOrder: Option<string>): seq<TWTask> {
    var filtered := Filtered(tasks, filter);
    if sortBy.Some? then Sort(FieldNamed(sortBy.value), IsAscending(sortOrder), filtered) else filtered
  }

  /** With a non-empty filter the shown tasks are exactly the matching ones,
      each as often as in the input; without one, all tasks are shown. */
  lemma ApplyFilters(tasks: seq<TWTask>, filter: Option<string>, sortBy: Option<string>, sortOrder: Option<string>)
    ensures filter.Some? && filter.value != "" ==>
      forall x :: multiset(Apply(tasks, filter, sortBy, sortOrder))[x] ==
        if Matches(x, filter.value) then multiset(tasks)[x] else 0
    ensures filter.None? || filter == Some("") ==>
      multiset(Apply(tasks, filter, sortBy, sortOrder)) == multiset(tasks)
  {
    var filtered := Filtered(tasks, filter);
    if sortBy.Some? {
      SortPermutes(FieldNamed(sortBy.value), IsAscending(sortOrder), filtered);
    }
    if filter.Some? && filter.value != "" {
      FilterKeepsExactlyMatches(tasks, filter.value);
    }
  }

  /** Without a sort field the filtered tasks keep their order: the result is
      a subsequence of the tasks, and all of them without a filter. */
  lemma ApplyUnsorted(tasks: seq<TWTask>, filter: Option<string>, sortOrder: Option<string>)
    ensures IsSubsequence(Apply(tasks, filter, None, sortOrder), tasks)
    ensures filter.None? || filter == Some("") ==> Apply(tasks, filter, None, sortOrder) == tasks
  {
    if filter.Some? && filter.value != "" {
      FilterIsSubsequence(tasks, filter.value);
    } else {
      FilterIsSubsequence(tasks, "");
      SubsequenceReflexive(tasks);
    }
  }

  lemma {:induction false} SubsequenceReflexive(s: seq<TWTask>)
    ensures IsSubsequence(s, s)
  {
    if s != [] { SubsequenceReflexive(s[1..]); }
  }

  /** With a sort field, the shown tasks are the filtered ones reordered:
      sorted by the field's key in the chosen direction, ties in input order. */
  lemma ApplySorted(tasks: seq<TWTask>, filter: Option<string>, sortBy: string, sortOrder: Option<string>)
    ensures var field, ascending := FieldNamed(sortBy), IsAscending(sortOrder);
      var shown := Apply(tasks, filter, Some(sortBy), sortOrder);
      && multiset(shown) == multiset(Filtered(tasks, filter))
      && Sorted(field, ascending, shown)
      && forall k :: WithKey(field, k, shown) == WithKey(field, k, Filtered(tasks, filter))
  {
    var field, ascending := FieldNamed(sortBy), IsAscending(sortOrder);
    SortPermutes(field, ascending, Filtered(tasks, filter));
    SortSorted(field, ascending, Filtered(tasks, filter));
    forall k {
      SortStable(field, ascending, Filtered(tasks, filter), k);
    }
  }

  /** Any order other than exactly "descending" sorts ascending. */
  lemma OnlyDescendingFlips(tasks: seq<TWTask>, filter: Option<string>, sortBy: Option<string>, sortOrder: Option<string>)
    requires sortOrder != Some("descending")
    ensures Apply(tasks, filter, sortBy, sortOrder) == Apply(tasks, filter, sortBy, None)
    ensures Apply(tasks, filter, sortBy, sortOrder) == Apply(tasks, filter, sortBy, Some("ascending"))
  {
  }

  /** An unrecognised sort field leaves the filtered order unchanged. */
  lemma UnrecognisedFieldFiltersOnly(tasks: seq<TWTask>, filter: Option<string>, sortBy: string, sortOrder: Option<string>)
    requires FieldNamed(sortBy) == Unrecognised
    ensures Apply(tasks, filter, Some(sortBy), sortOrder) == Filtered(tasks, filter)
  {
    UnrecognisedKeepsOrder(IsAscending(sortOrder), Filtered(tasks, filter));
  }

  /** For shown tasks with distinct keys, "descending" is "ascending" reversed. */
  lemma ApplyDescending(tasks: seq<TWTask>, filter: Option<string>, sortBy: string)
    requires DistinctKeys(FieldNamed(sortBy), Filtered(tasks, filter))
    ensures Apply(tasks, filter, Some(sortBy), Some("descending")) == Reverse(Apply(tasks, filter, Some(sortBy), None))
  {
    DescendingReversesAscending(FieldNamed(sortBy), Filtered(tasks, filter));
  }
}
