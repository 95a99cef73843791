/**
 * The admin listing: choose founders, seekers or both, keep one status,
 * sort newest first (in place, stably) and cut one page; plus the approve and
 * reject answers, which only echo their input.
 */
module Admin {
  import opened Wrappers
  import Paging

  /** A submission as the admin listing sees it: only the fields it reads. */
  datatype Entry = Entry(id: string, status: string, createdAt: int)

  datatype Decision = Decision(message: string, id: string, status: string, reason: Option<string>)

  const DefaultPage: int := 1
  const DefaultLimit: int := 20

  /** `type === 'founder'`, `type === 'seeker'`, otherwise founders then seekers. */
  function Select(founders: seq<Entry>, seekers: seq<Entry>, kind: Option<string>): (r: seq<Entry>)
    ensures kind == Some("founder") ==> r == founders
    ensures kind == Some("seeker") ==> r == seekers
    ensures kind != Some("founder") && kind != Some("seeker") ==> r == founders + seekers
  {
    if kind == Some("founder") then founders
    else if kind == Some("seeker") then seekers
    else founders + seekers
  }

  /** `if (status)` keep the entries with exactly that status, in order. */
  function FilterStatus(s: seq<Entry>, status: Option<string>): (r: seq<Entry>)
    ensures status.None? || status.value == "" ==> r == s
    ensures status.Some? && status.value != "" ==>
      && (forall x :: x in r <==> x in s && x.status == status.value)
      && |r| <= |s|
  {
    if status.None? || status.value == "" then s
    else if s == [] then []
    else
      var rest := FilterStatus(s[1..], status);
      assert forall x :: x in s[1..] ==> x in s;
      if s[0].status == status.value then [s[0]] + rest else rest
  }

  /**
   * The filter keeps entries in order and once each: it works entry by entry,
   * and filtering a concatenation filters each part.
   */
  lemma {:induction false} FilterStatusSplits(a: seq<Entry>, b: seq<Entry>, status: Option<string>)
    ensures FilterStatus(a + b, status) == FilterStatus(a, status) + FilterStatus(b, status)
    ensures forall x :: FilterStatus([x], status) ==
                         (if status.None? || status.value == "" || x.status == status.value then [x] else [])
  {
    if status.Some? && status.value != "" {
      if a == [] {
        assert a + b == b;
      } else {
        assert (a + b)[0] == a[0] && (a + b)[1..] == a[1..] + b;
        FilterStatusSplits(a[1..], b, status);
      }
      forall x ensures FilterStatus([x], status) == if x.status == status.value then [x] else [] {
        assert [x][1..] == [];
      }
    }
  }

  // ---------------------------------------------------------------------------
  // Newest first, stable

  predicate NewestFirst(s: seq<Entry>) {
    forall i, j :: 0 <= i < j < |s| ==> s[i].createdAt >= s[j].createdAt
  }

  /** Place `x` after every entry at least as new, shifting from the right. */
  function Insert(x: Entry, s: seq<Entry>): (r: seq<Entry>)
    ensures |r| == |s| + 1
  {
    if s == [] then [x]
    else if s[|s| - 1].createdAt >= x.createdAt then s + [x]
    else Insert(x, s[..|s| - 1]) + [s[|s| - 1]]
  }

  /** The order `data.sort((a, b) => b.createdAt - a.createdAt)` leaves: a stable sort, newest first. */
  function Sort(s: seq<Entry>): (r: seq<Entry>)
    ensures |r| == |s|
  {
    if s == [] then [] else Insert(s[|s| - 1], Sort(s[..|s| - 1]))
  }

  /** The entries created at time `t`, in order. */
  function CreatedAt(s: seq<Entry>, t: int): seq<Entry> {
    if s == [] then []
    else CreatedAt(s[..|s| - 1], t) + (if s[|s| - 1].createdAt == t then [s[|s| - 1]] else [])
  }

  lemma {:induction false} InsertMultiset(x: Entry, s: seq<Entry>)
    ensures multiset(Insert(x, s)) == multiset(s) + multiset{x}
  {
    if s != [] && s[|s| - 1].createdAt < x.createdAt {
      var init := s[..|s| - 1];
      assert s == init + [s[|s| - 1]];
      InsertMultiset(x, init);
    }
  }

  lemma {:induction false} InsertSorted(x: Entry, s: seq<Entry>)
    requires NewestFirst(s)
    ensures NewestFirst(Insert(x, s))
  {
    if s != [] && s[|s| - 1].createdAt < x.createdAt {
      var init := s[..|s| - 1];
      var last := s[|s| - 1];
      InsertSorted(x, init);
      InsertMultiset(x, init);
      var ins := Insert(x, init);
      var r := ins + [last];
      forall i, j | 0 <= i < j < |r|
        ensures r[i].createdAt >= r[j].createdAt
      {
        if j == |r| - 1 {
          assert r[i] == ins[i];
          assert ins[i] in multiset(ins);
          if ins[i] != x {
            assert ins[i] in multiset(init);
            var k :| 0 <= k < |init| && init[k] == ins[i];
            assert s[k] == init[k];
          }
        } else {
          assert r[i] == ins[i] && r[j] == ins[j];
        }
      }
    }
  }

  lemma {:induction false} InsertStable(x: Entry, s: seq<Entry>, t: int)
    ensures CreatedAt(Insert(x, s), t) == CreatedAt(s, t) + (if x.createdAt == t then [x] else [])
  {
    if s == [] {
      assert [x][..0] == [];
    } else if s[|s| - 1].createdAt >= x.createdAt {
      var r := s + [x];
      assert r[..|r| - 1] == s;
    } else {
      var init := s[..|s| - 1];
      InsertStable(x, init, t);
      var ins := Insert(x, init);
      var r := ins + [s[|s| - 1]];
      assert r[..|r| - 1] == ins;
    }
  }

  /** Sorting yields the same entries, newest first, and keeps entries of equal time in their order. */
  lemma {:induction false} SortSpec(s: seq<Entry>)
    ensures NewestFirst(Sort(s))
    ensures multiset(Sort(s)) == multiset(s)
    ensures forall t :: CreatedAt(Sort(s), t) == CreatedAt(s, t)
  {
    if s != [] {
      var init := s[..|s| - 1];
      SortSpec(init);
      InsertSorted(s[|s| - 1], Sort(init));
      InsertMultiset(s[|s| - 1], Sort(init));
      forall t ensures CreatedAt(Sort(s), t) == CreatedAt(s, t) {
        InsertStable(s[|s| - 1], Sort(init), t);
      }
      assert s == init + [s[|s| - 1]];
    }
  }

  /** Stable insertion sort of `a`, newest first, in place. */
  method SortNewestFirst(a: array<Entry>)
    modifies a
    ensures a[..] == Sort(old(a[..]))
  {
    ghost var orig := a[..];
    var i := 0;
    while i < a.Length
      invariant 0 <= i <= a.Length
      invariant a[..i] == Sort(orig[..i])
      invariant a[i..] == orig[i..]
    {
      InsertLast(a, i);
      assert orig[..i + 1][..i] == orig[..i];
      assert orig[..i + 1][i] == orig[i];
      i := i + 1;
    }
    assert orig[..a.Length] == orig;
  }

  /** Move `a[i]` left past every strictly older entry of `a[..i]`. */
  method InsertLast(a: array<Entry>, i: nat)
    requires i < a.Length
    modifies a
    ensures a[..i + 1] == Insert(old(a[i]), old(a[..i]))
    ensures a[i + 1..] == old(a[i + 1..])
  {
    ghost var sorted := a[..i];
    ghost var rest := a[i + 1..];
    var x := a[i];
    var j := i;
    assert a[..] == Shifting(sorted, x, rest, j);
    assert sorted[..j] == sorted && sorted[j..] == [];
    while j > 0 && a[j - 1].createdAt < x.createdAt
      invariant 0 <= j <= i
      invariant a[..] == Shifting(sorted, x, rest, j)
      invariant Insert(x, sorted) == Insert(x, sorted[..j]) + sorted[j..]
    {
      ShiftStep(sorted, x, rest, j);
      InsertShift(x, sorted, j);
      a[j] := a[j - 1];
      j := j - 1;
    }
    ShiftDone(sorted, x, rest, j);
    a[j] := x;
    InsertStop(x, sorted, j);
  }

  /** The array while `x` travels left: a gap at `j` holding a copy of its right neighbour. */
  ghost function Shifting(sorted: seq<Entry>, x: Entry, rest: seq<Entry>, j: nat): seq<Entry>
    requires j <= |sorted|
  {
    sorted[..j] + [if j == |sorted| then x else sorted[j]] + sorted[j..] + rest
  }

  lemma ShiftStep(sorted: seq<Entry>, x: Entry, rest: seq<Entry>, j: nat)
    requires 0 < j <= |sorted|
    ensures Shifting(sorted, x, rest, j)[j - 1] == sorted[j - 1]
    ensures Shifting(sorted, x, rest, j)[j := sorted[j - 1]] == Shifting(sorted, x, rest, j - 1)
  {
    var s := Shifting(sorted, x, rest, j);
    var t := Shifting(sorted, x, rest, j - 1);
    assert |s| == |t|;
    forall k | 0 <= k < |s|
      ensures s[j := sorted[j - 1]][k] == t[k]
    {
      if k > j {
        assert s[k] == (sorted[j..] + rest)[k - j - 1];
        assert t[k] == (sorted[j - 1..] + rest)[k - j];
      }
    }
  }

  lemma ShiftDone(sorted: seq<Entry>, x: Entry, rest: seq<Entry>, j: nat)
    requires j <= |sorted|
    ensures |Shifting(sorted, x, rest, j)| == |sorted| + 1 + |rest|
    ensures var r := Shifting(sorted, x, rest, j)[j := x];
      r[..|sorted| + 1] == sorted[..j] + [x] + sorted[j..] && r[|sorted| + 1..] == rest
  {
    var r := Shifting(sorted, x, rest, j)[j := x];
    assert r == (sorted[..j] + [x] + sorted[j..]) + rest;
  }

  lemma InsertShift(x: Entry, s: seq<Entry>, j: nat)
    requires 0 < j <= |s| && s[j - 1].createdAt < x.createdAt
    ensures Insert(x, s[..j]) + s[j..] == Insert(x, s[..j - 1]) + s[j - 1..]
  {
    assert s[..j][..j - 1] == s[..j - 1];
    assert s[j - 1..] == [s[j - 1]] + s[j..];
  }

  lemma InsertStop(x: Entry, s: seq<Entry>, j: nat)
    requires j <= |s| && (j == 0 || s[j - 1].createdAt >= x.createdAt)
    ensures Insert(x, s[..j]) == s[..j] + [x]
  {
  }

  /**
   * `getAllSubmissions`: select, filter by status, sort newest first and cut
   * page `page` of `limit` (defaults 1 and 20).
   */
  method GetAllSubmissions(founders: seq<Entry>, seekers: seq<Entry>, kind: Option<string>,
                           status: Option<string>, page: Option<int>, limit: Option<int>)
    returns (r: Paging.Listing<Entry>)
    ensures var data := Sort(FilterStatus(Select(founders, seekers, kind), status));
      r == Paging.Paginate(data, page.GetOr(DefaultPage), limit.GetOr(DefaultLimit))
  {
    var data := Select(founders, seekers, kind);
    data := FilterStatus(data, status);
    var a := new Entry[|data|](i requires 0 <= i < |data| => data[i]);
    assert a[..] == data;
    SortNewestFirst(a);
    r := Paging.Paginate(a[..], page.GetOr(DefaultPage), limit.GetOr(DefaultLimit));
  }

  /**
   * A listing holds the selected entries with the status, newest first, ties in
   * their original order (the founders' before the seekers' when both are
   * listed), and counts all of them in `total`.
   */
  lemma ListingOrder(founders: seq<Entry>, seekers: seq<Entry>, kind: Option<string>,
                     status: string, page: int, limit: int)
    requires status != ""
    ensures var kept := FilterStatus(Select(founders, seekers, kind), Some(status));
      var data := Sort(kept);
      && NewestFirst(data)
      && multiset(data) == multiset(kept)
      && (forall x :: x in data <==> x in Select(founders, seekers, kind) && x.status == status)
      && (forall t :: CreatedAt(data, t) == CreatedAt(kept, t))
      && Paging.Paginate(data, page, limit).total == |kept|
      && (kind != Some("founder") && kind != Some("seeker") ==>
            kept == FilterStatus(founders, Some(status)) + FilterStatus(seekers, Some(status)))
  {
    var kept := FilterStatus(Select(founders, seekers, kind), Some(status));
    FilterStatusSplits(founders, seekers, Some(status));
    SortSpec(kept);
    forall x ensures x in Sort(kept) <==> x in kept {
      assert x in Sort(kept) <==> x in multiset(Sort(kept));
    }
  }

  /** `approveSubmission`: echoes the id with status `approved`. */
  function Approve(id: string): (d: Decision)
    ensures d.id == id && d.status == "approved" && d.reason.None?
  {
    Decision("Submission approved successfully", id, "approved", None)
  }

  /** `rejectSubmission`: echoes the id and the reason with status `rejected`. */
  function Reject(id: string, reason: Option<string>): (d: Decision)
    ensures d.id == id && d.status == "rejected" && d.reason == reason
  {
    Decision("Submission rejected", id, "rejected", reason)
  }
}
