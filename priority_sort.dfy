/** Stage 1 of the generator: a copy of the show list sorted by descending priority rank.
    The source sorts with the engine's Array.prototype.sort, which is stable, so this module
    models it as a stable insertion sort and proves it equal to the reference ordering
    "all high shows, then all medium shows, then all low shows, each in input order". */
module PrioritySort {
  import opened Types

  /** The shows of `shows` whose priority is `p`, in their input order. */
  function WithPriority(shows: seq<Show>, p: Priority): (r: seq<Show>)
    ensures |r| <= |shows|
    ensures forall i :: 0 <= i < |r| ==> r[i].priority == p
  {
    if shows == [] then []
    else (if shows[0].priority == p then [shows[0]] else []) + WithPriority(shows[1..], p)
  }

  /** Places `s` in front of the first show whose rank is not above its own, so that it
      stays ahead of the equal-rank shows that followed it in the input. */
  function Insert(s: Show, sorted: seq<Show>): (r: seq<Show>)
    ensures multiset(r) == multiset(sorted) + multiset{s}
  {
    if sorted == [] || Rank(sorted[0].priority) <= Rank(s.priority) then [s] + sorted
    else
      assert sorted == [sorted[0]] + sorted[1..];
      [sorted[0]] + Insert(s, sorted[1..])
  }

  /** The comparator `rank(b) - rank(a)` under a stable sort. */
  function SortByPriority(shows: seq<Show>): (r: seq<Show>)
    ensures multiset(r) == multiset(shows)
  {
    if shows == [] then []
    else
      assert shows == [shows[0]] + shows[1..];
      Insert(shows[0], SortByPriority(shows[1..]))
  }

  /** Inserting past a block of strictly higher-ranked shows leaves that block in front. */
  lemma {:induction false} InsertPast(s: Show, a: seq<Show>, b: seq<Show>)
    requires forall i :: 0 <= i < |a| ==> Rank(a[i].priority) > Rank(s.priority)
    ensures Insert(s, a + b) == a + Insert(s, b)
  {
    if a == [] {
      assert a + b == b;
    } else {
      assert (a + b)[0] == a[0];
      assert (a + b)[1..] == a[1..] + b;
      InsertPast(s, a[1..], b);
      assert a == [a[0]] + a[1..];
    }
  }

  /** Inserting into "high block, medium block, low block" puts the show at the front of
      its own priority's block. */
  lemma InsertIntoBlocks(x: Show, h: seq<Show>, m: seq<Show>, l: seq<Show>)
    requires forall i :: 0 <= i < |h| ==> h[i].priority == High
    requires forall i :: 0 <= i < |m| ==> m[i].priority == Medium
    requires forall i :: 0 <= i < |l| ==> l[i].priority == Low
    ensures x.priority == High ==> Insert(x, h + m + l) == [x] + (h + m + l)
    ensures x.priority == Medium ==> Insert(x, h + m + l) == h + ([x] + (m + l))
    ensures x.priority == Low ==> Insert(x, h + m + l) == (h + m) + ([x] + l)
  {
    if x.priority == High {
      assert h + m + l == [] || Rank((h + m + l)[0].priority) <= Rank(x.priority);
    } else if x.priority == Medium {
      assert h + m + l == h + (m + l);
      InsertPast(x, h, m + l);
      assert m + l == [] || Rank((m + l)[0].priority) <= Rank(x.priority);
    } else {
      assert h + m + l == (h + m) + l;
      InsertPast(x, h + m, l);
      assert l == [] || Rank(l[0].priority) <= Rank(x.priority);
    }
  }

  /** The filter of a list whose first show is `x`: `x` heads it when it has the priority,
      and the rest is the filter of the tail. */
  lemma WithPriorityFirst(shows: seq<Show>, p: Priority)
    requires shows != []
    ensures shows[0].priority == p ==> WithPriority(shows, p) == [shows[0]] + WithPriority(shows[1..], p)
    ensures shows[0].priority != p ==> WithPriority(shows, p) == WithPriority(shows[1..], p)
  {
    if shows[0].priority != p {
      assert [] + WithPriority(shows[1..], p) == WithPriority(shows[1..], p);
    }
  }

  /** Regrouping the three blocks after `x` joined the front of one of them. */
  lemma Regroup(x: Show, h: seq<Show>, m: seq<Show>, l: seq<Show>)
    ensures [x] + (h + m + l) == ([x] + h) + m + l
    ensures h + ([x] + (m + l)) == h + ([x] + m) + l
    ensures (h + m) + ([x] + l) == h + m + ([x] + l)
  {
  }

  /** The sorted list is the high block, then the medium block, then the low block. */
  lemma {:induction false} SortIsRankBlocks(shows: seq<Show>)
    ensures SortByPriority(shows)
         == WithPriority(shows, High) + WithPriority(shows, Medium) + WithPriority(shows, Low)
  {
    if shows != [] {
      var x, rest := shows[0], shows[1..];
      var h, m, l := WithPriority(rest, High), WithPriority(rest, Medium), WithPriority(rest, Low);
      var h', m', l' := WithPriority(shows, High), WithPriority(shows, Medium), WithPriority(shows, Low);
      assert SortByPriority(shows) == Insert(x, h + m + l) by {
        SortIsRankBlocks(rest);
      }
      assert Insert(x, h + m + l) == h' + m' + l' by {
        WithPriorityFirst(shows, High);
        WithPriorityFirst(shows, Medium);
        WithPriorityFirst(shows, Low);
        InsertIntoBlocks(x, h, m, l);
        Regroup(x, h, m, l);
      }
    }
  }

  /** Filtering by priority distributes over concatenation. */
  lemma {:induction false} WithPriorityAppend(a: seq<Show>, b: seq<Show>, p: Priority)
    ensures WithPriority(a + b, p) == WithPriority(a, p) + WithPriority(b, p)
  {
    if a == [] {
      assert a + b == b;
    } else {
      assert (a + b)[0] == a[0];
      assert (a + b)[1..] == a[1..] + b;
      WithPriorityAppend(a[1..], b, p);
    }
  }

  /** Filtering a block that holds only priority `q` keeps it whole or empties it. */
  lemma {:induction false} WithPriorityOfBlock(s: seq<Show>, q: Priority, p: Priority)
    requires forall i :: 0 <= i < |s| ==> s[i].priority == q
    ensures WithPriority(s, p) == if p == q then s else []
  {
    if s != [] {
      WithPriorityOfBlock(s[1..], q, p);
      assert s == [s[0]] + s[1..];
    }
  }

  /** Descending rank: a show never precedes a show of higher priority in the sorted list. */
  lemma SortIsDescending(shows: seq<Show>)
    ensures forall i, j :: 0 <= i < j < |SortByPriority(shows)| ==>
              Rank(SortByPriority(shows)[i].priority) >= Rank(SortByPriority(shows)[j].priority)
  {
    var h, m, l := WithPriority(shows, High), WithPriority(shows, Medium), WithPriority(shows, Low);
    var r := SortByPriority(shows);
    assert r == h + m + l by {
      SortIsRankBlocks(shows);
    }
    forall i, j | 0 <= i < j < |r|
      ensures Rank(r[i].priority) >= Rank(r[j].priority)
    {
      if i < |h| {
        assert r[i] == h[i];
      } else if j >= |h| + |m| {
        assert r[j] == l[j - |h| - |m|];
      } else {
        assert r[i] == m[i - |h|];
        assert r[j] == m[j - |h|];
      }
    }
  }

  /** Stability: the shows of any one priority keep their input order in the sorted list. */
  lemma SortIsStable(shows: seq<Show>, p: Priority)
    ensures WithPriority(SortByPriority(shows), p) == WithPriority(shows, p)
  {
    var h, m, l := WithPriority(shows, High), WithPriority(shows, Medium), WithPriority(shows, Low);
    assert SortByPriority(shows) == h + m + l by {
      SortIsRankBlocks(shows);
    }
    assert WithPriority(h + m + l, p) == WithPriority(h, p) + WithPriority(m, p) + WithPriority(l, p) by {
      WithPriorityAppend(h + m, l, p);
      WithPriorityAppend(h, m, p);
    }
    WithPriorityOfBlock(h, High, p);
    WithPriorityOfBlock(m, Medium, p);
    WithPriorityOfBlock(l, Low, p);
    if p == High {
      assert WithPriority(h, p) + WithPriority(m, p) + WithPriority(l, p) == h + [] + [];
    } else if p == Medium {
      assert WithPriority(h, p) + WithPriority(m, p) + WithPriority(l, p) == [] + m + [];
    } else {
      assert WithPriority(h, p) + WithPriority(m, p) + WithPriority(l, p) == [] + [] + l;
    }
  }
}
