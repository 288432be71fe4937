/** A chain of timelines as values: the flattened chain, positions in it, and what a window between
    two cursors shows when events are added to the chain. */
module WindowModel {
  type EventId(==, !new, 0)

  datatype MatrixEvent = MatrixEvent(id: EventId, body: string)

  type Lists = seq<seq<MatrixEvent>>

  /** The events of the first `n` timelines of the chain, oldest first. */
  function FlatTo(lists: Lists, n: nat): seq<MatrixEvent>
    requires n <= |lists|
  {
    if n == 0 then [] else FlatTo(lists, n - 1) + lists[n - 1]
  }

  /** All the events of the chain. */
  function Flat(lists: Lists): seq<MatrixEvent> {
    FlatTo(lists, |lists|)
  }

  /** The position in the flattened chain where timeline `i` starts. */
  function Offset(lists: Lists, i: nat): nat
    requires i <= |lists|
  {
    if i == 0 then 0 else Offset(lists, i - 1) + |lists[i - 1]|
  }

  /** The events from index `a` of timeline `i` up to index `b` of timeline `j`. */
  function Between(lists: Lists, i: nat, a: int, j: nat, b: int): seq<MatrixEvent>
    requires i <= j < |lists| && 0 <= a <= |lists[i]| && 0 <= b <= |lists[j]|
    requires i == j ==> a <= b
  {
    if i == j then lists[i][a..b]
    else Between(lists, i, a, j - 1, |lists[j - 1]|) + lists[j][..b]
  }

  /** Offsets grow. */
  lemma {:induction false} OffsetMonotone(lists: Lists, i: nat, j: nat)
    requires i <= j <= |lists|
    ensures Offset(lists, i) <= Offset(lists, j)
  {
    if i < j {
      OffsetMonotone(lists, i, j - 1);
    }
  }

  /** How many events lie ahead of a cursor in the first timeline, from its own on, that has any ahead. */
  function Ahead(lists: Lists, i: nat, a: int): nat
    requires i < |lists| && 0 <= a <= |lists[i]|
    decreases |lists| - i
  {
    if a < |lists[i]| then |lists[i]| - a
    else if i + 1 < |lists| then Ahead(lists, i + 1, 0)
    else 0
  }

  /** And behind it. */
  function Behind(lists: Lists, i: nat, a: int): nat
    requires i < |lists| && 0 <= a <= |lists[i]|
  {
    if a > 0 then a
    else if i > 0 then Behind(lists, i - 1, |lists[i - 1]|)
    else 0
  }

  /** In terms of positions: from anywhere in the flattened chain it is the way to the end of the timeline
      that holds the next event, whatever timelines without events lie in between. */
  lemma {:induction false} AheadIs(lists: Lists, i: nat, a: int, k: nat)
    requires i < |lists| && 0 <= a <= |lists[i]| && k < |lists|
    ensures var p := Offset(lists, i) + a;
            (Offset(lists, k) <= p < Offset(lists, k + 1) ==> Ahead(lists, i, a) == Offset(lists, k + 1) - p) &&
            (Ahead(lists, i, a) == 0 <==> p == Offset(lists, |lists|))
    decreases |lists| - i
  {
    var p := Offset(lists, i) + a;
    OffsetMonotone(lists, i + 1, |lists|);
    if a < |lists[i]| {
      if k < i {
        OffsetMonotone(lists, k + 1, i);
      } else if k > i {
        OffsetMonotone(lists, i + 1, k);
      }
    } else if i + 1 < |lists| {
      AheadIs(lists, i + 1, 0, k);
    } else {
      OffsetMonotone(lists, k + 1, |lists|);
    }
  }

  lemma {:induction false} BehindIs(lists: Lists, i: nat, a: int, k: nat)
    requires i < |lists| && 0 <= a <= |lists[i]| && k < |lists|
    ensures var p := Offset(lists, i) + a;
            (Offset(lists, k) < p <= Offset(lists, k + 1) ==> Behind(lists, i, a) == p - Offset(lists, k)) &&
            (Behind(lists, i, a) == 0 <==> p == 0)
  {
    if a > 0 {
      if k < i {
        OffsetMonotone(lists, k + 1, i);
      } else if k > i {
        OffsetMonotone(lists, i + 1, k);
      }
    } else if i > 0 {
      BehindIs(lists, i - 1, |lists[i - 1]|, k);
    }
  }

  lemma {:induction false} FlatToLength(lists: Lists, n: nat)
    requires n <= |lists|
    ensures |FlatTo(lists, n)| == Offset(lists, n)
  {
    if n > 0 {
      FlatToLength(lists, n - 1);
    }
  }

  /** Timeline `i` lies at its offset in the flattened chain. */
  lemma {:induction false} FlatAt(lists: Lists, i: nat, n: nat)
    requires i < n <= |lists|
    ensures Offset(lists, i) + |lists[i]| <= |FlatTo(lists, n)|
    ensures FlatTo(lists, n)[Offset(lists, i)..Offset(lists, i) + |lists[i]|] == lists[i]
  {
    FlatToLength(lists, n - 1);
    if i < n - 1 {
      FlatAt(lists, i, n - 1);
    }
  }

  /** A part of timeline `i` in the flattened chain. */
  lemma PartAt(lists: Lists, i: nat, a: int, b: int)
    requires i < |lists| && 0 <= a <= b <= |lists[i]|
    ensures Offset(lists, i) + b <= |Flat(lists)|
    ensures lists[i][a..b] == Flat(lists)[Offset(lists, i) + a..Offset(lists, i) + b]
  {
    FlatAt(lists, i, |lists|);
    SubSlice(Flat(lists), Offset(lists, i), |lists[i]|, a, b);
  }

  lemma SubSlice(s: seq<MatrixEvent>, o: nat, n: nat, a: int, b: int)
    requires 0 <= a <= b <= n && o + n <= |s|
    ensures s[o..o + n][a..b] == s[o + a..o + b]
  {
    var t, u := s[o..o + n][a..b], s[o + a..o + b];
    forall k | 0 <= k < |t|
      ensures t[k] == u[k]
    {
      assert s[o..o + n][a + k] == s[o + (a + k)];
    }
  }

  lemma SliceConcat(s: seq<MatrixEvent>, a: nat, m: nat, b: nat)
    requires a <= m <= b <= |s|
    ensures s[a..m] + s[m..b] == s[a..b]
  {
  }

  /** Reading the timelines one by one between two cursors is slicing the flattened chain. */
  lemma {:induction false} BetweenIsSlice(lists: Lists, i: nat, a: int, j: nat, b: int)
    requires i <= j < |lists| && 0 <= a <= |lists[i]| && 0 <= b <= |lists[j]|
    requires i == j ==> a <= b
    ensures Offset(lists, i) + a <= Offset(lists, j) + b <= |Flat(lists)|
    ensures Between(lists, i, a, j, b) == Flat(lists)[Offset(lists, i) + a..Offset(lists, j) + b]
  {
    if i == j {
      PartAt(lists, i, a, b);
    } else {
      PartAt(lists, j, 0, b);
      BetweenIsSlice(lists, i, a, j - 1, |lists[j - 1]|);
      SliceConcat(Flat(lists), Offset(lists, i) + a, Offset(lists, j), Offset(lists, j) + b);
    }
  }

  // ---------- adding events ----------

  /** Timelines outside a window do not matter to it. */
  lemma {:induction false} BetweenLocal(lists: Lists, changed: Lists, i: nat, a: int, j: nat, b: int)
    requires i <= j < |lists| && j < |changed|
    requires forall k :: i <= k <= j ==> changed[k] == lists[k]
    requires 0 <= a <= |lists[i]| && 0 <= b <= |lists[j]| && (i == j ==> a <= b)
    ensures Between(changed, i, a, j, b) == Between(lists, i, a, j, b)
  {
    if i < j {
      BetweenLocal(lists, changed, i, a, j - 1, |lists[j - 1]|);
    }
  }

  /** Appending to the last timeline of a window that stops within it does not show. */
  lemma BetweenAppendLast(lists: Lists, i: nat, a: int, j: nat, b: int, e: MatrixEvent)
    requires i <= j < |lists| && 0 <= a <= |lists[i]| && 0 <= b <= |lists[j]|
    requires i == j ==> a <= b
    ensures Between(lists[j := lists[j] + [e]], i, a, j, b) == Between(lists, i, a, j, b)
  {
    var changed := lists[j := lists[j] + [e]];
    if i < j {
      BetweenLocal(lists, changed, i, a, j - 1, |lists[j - 1]|);
    }
    assert (lists[j] + [e])[..b] == lists[j][..b];
  }

  /** Prepending to the first timeline of a window moves its start along. */
  lemma {:induction false} BetweenPrependFirst(lists: Lists, i: nat, a: int, j: nat, b: int, e: MatrixEvent)
    requires i <= j < |lists| && 0 <= a <= |lists[i]| && 0 <= b <= |lists[j]|
    requires i == j ==> a <= b
    ensures Between(lists[i := [e] + lists[i]], i, a + 1, j, if i == j then b + 1 else b) == Between(lists, i, a, j, b)
  {
    if i == j {
      assert ([e] + lists[i])[a + 1..b + 1] == lists[i][a..b];
    } else {
      BetweenPrependFirst(lists, i, a, j - 1, |lists[j - 1]|, e);
    }
  }

  /** Changing the length of one timeline inside a window changes the length of what it shows. */
  lemma {:induction false} BetweenGrows(lists: Lists, changed: Lists, i: nat, a: int, a': int, j: nat, b: int, b': int, k: nat)
    requires |changed| == |lists| && i <= k <= j < |lists|
    requires 0 <= a <= |lists[i]| && 0 <= b <= |lists[j]| && (i == j ==> a <= b)
    requires 0 <= a' <= |changed[i]| && 0 <= b' <= |changed[j]| && (i == j ==> a' <= b')
    requires forall m :: i <= m <= j && m != k ==> changed[m] == lists[m]
    requires |changed[k]| == |lists[k]| + 1
    requires k == i ==> i < j && a' == a
    requires k != i ==> a' == a
    requires k == j ==> b' == b + 1
    requires k != j ==> b' == b
    ensures |Between(changed, i, a', j, b')| == |Between(lists, i, a, j, b)| + 1
  {
    if i < j {
      var c, c' := |lists[j - 1]|, |changed[j - 1]|;
      if k == j {
        BetweenLocal(lists, changed, i, a, j - 1, c);
      } else if i == j - 1 {
        assert k == i;
      } else {
        BetweenGrows(lists, changed, i, a, a', j - 1, c, c', k);
      }
    }
  }

  /** A cursor: a timeline of the chain and an index relative to that timeline's base index. */
  datatype Cursor = Cursor(at: nat, index: int)

  predicate InChain(lists: Lists, bases: seq<int>, c: Cursor) {
    |bases| == |lists| && c.at < |lists| && 0 <= c.index + bases[c.at] <= |lists[c.at]|
  }

  predicate InOrder(lists: Lists, bases: seq<int>, s: Cursor, e: Cursor) {
    InChain(lists, bases, s) && InChain(lists, bases, e) && s.at <= e.at && (s.at == e.at ==> s.index <= e.index)
  }

  /** What a window between two cursors shows. */
  function Shown(lists: Lists, bases: seq<int>, s: Cursor, e: Cursor): seq<MatrixEvent>
    requires InOrder(lists, bases, s, e)
  {
    Between(lists, s.at, s.index + bases[s.at], e.at, e.index + bases[e.at])
  }

  function Appended(lists: Lists, k: nat, x: MatrixEvent): Lists
    requires k < |lists|
  {
    lists[k := lists[k] + [x]]
  }

  function Prepended(lists: Lists, k: nat, x: MatrixEvent): Lists
    requires k < |lists|
  {
    lists[k := [x] + lists[k]]
  }

  /** An event appended to timeline `k` leaves a window as it is, if and only if `k` is not a
      timeline that the window runs through to its end. */
  lemma AppendShows(lists: Lists, bases: seq<int>, s: Cursor, e: Cursor, k: nat, x: MatrixEvent)
    requires InOrder(lists, bases, s, e) && k < |lists|
    ensures InOrder(Appended(lists, k, x), bases, s, e)
    ensures Shown(Appended(lists, k, x), bases, s, e) == Shown(lists, bases, s, e) <==> !(s.at <= k < e.at)
    ensures |Shown(Appended(lists, k, x), bases, s, e)| == |Shown(lists, bases, s, e)| + if s.at <= k < e.at then 1 else 0
  {
    var changed := Appended(lists, k, x);
    var a, b := s.index + bases[s.at], e.index + bases[e.at];
    if k < s.at || e.at < k {
      BetweenLocal(lists, changed, s.at, a, e.at, b);
    } else if k == e.at {
      BetweenAppendLast(lists, s.at, a, e.at, b, x);
    } else {
      BetweenGrows(lists, changed, s.at, a, a, e.at, b, b, k);
    }
  }

  /** An event prepended to timeline `k`, whose base index is raised, leaves a window as it is, if
      and only if `k` is not a timeline that the window enters at its start. */
  lemma PrependShows(lists: Lists, bases: seq<int>, s: Cursor, e: Cursor, k: nat, x: MatrixEvent)
    requires InOrder(lists, bases, s, e) && k < |lists|
    ensures InOrder(Prepended(lists, k, x), bases[k := bases[k] + 1], s, e)
    ensures Shown(Prepended(lists, k, x), bases[k := bases[k] + 1], s, e) == Shown(lists, bases, s, e)
            <==> !(s.at < k <= e.at)
    ensures |Shown(Prepended(lists, k, x), bases[k := bases[k] + 1], s, e)| ==
            |Shown(lists, bases, s, e)| + if s.at < k <= e.at then 1 else 0
  {
    var changed := Prepended(lists, k, x);
    var a, b := s.index + bases[s.at], e.index + bases[e.at];
    if k < s.at || e.at < k {
      BetweenLocal(lists, changed, s.at, a, e.at, b);
    } else if k == s.at {
      BetweenPrependFirst(lists, s.at, a, e.at, b, x);
    } else {
      BetweenGrows(lists, changed, s.at, a, a, e.at, b, if k == e.at then b + 1 else b, k);
    }
  }

  // ---------- linking another chain ----------

  /** Timelines in front of a chain only shift the numbers of its timelines. */
  lemma {:induction false} BetweenShift(front: Lists, lists: Lists, i: nat, a: int, j: nat, b: int)
    requires i <= j < |lists| && 0 <= a <= |lists[i]| && 0 <= b <= |lists[j]| && (i == j ==> a <= b)
    ensures Between(front + lists, |front| + i, a, |front| + j, b) == Between(lists, i, a, j, b)
  {
    if i < j {
      BetweenShift(front, lists, i, a, j - 1, |lists[j - 1]|);
    }
  }

  /** A chain that is linked to the end of a window's chain does not show. */
  lemma LinkAtEndShows(lists: Lists, bases: seq<int>, more: Lists, moreBases: seq<int>, s: Cursor, e: Cursor)
    requires InOrder(lists, bases, s, e) && |more| == |moreBases|
    ensures InOrder(lists + more, bases + moreBases, s, e)
    ensures Shown(lists + more, bases + moreBases, s, e) == Shown(lists, bases, s, e)
  {
    BetweenLocal(lists, lists + more, s.at, s.index + bases[s.at], e.at, e.index + bases[e.at]);
  }

  function Shifted(c: Cursor, n: nat): Cursor {
    c.(at := n + c.at)
  }

  /** Nor does one that is linked to its start; the cursors are in the same timelines, further on. */
  lemma LinkAtStartShows(lists: Lists, bases: seq<int>, more: Lists, moreBases: seq<int>, s: Cursor, e: Cursor)
    requires InOrder(lists, bases, s, e) && |more| == |moreBases|
    ensures InOrder(more + lists, moreBases + bases, Shifted(s, |more|), Shifted(e, |more|))
    ensures Shown(more + lists, moreBases + bases, Shifted(s, |more|), Shifted(e, |more|)) == Shown(lists, bases, s, e)
  {
    BetweenShift(more, lists, s.at, s.index + bases[s.at], e.at, e.index + bases[e.at]);
  }
}
