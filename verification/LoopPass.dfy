/** One pass of CoreImpl::loop over the registry. */
module LoopPass {
  import opened Bytes
  import opened Scan
  import opened Store
  import opened Gateway
  import opened Soundness
  import opened Operations
  import opened Visits
  import opened Ownership

  /** The do-while loop from row i on: visit it, read the next row, and stop at a zero address or, after one more
      visit, at the address of the last client. Also the rows visited. */
  ghost function PassFrom(s: Sys, i: nat, last: nat, heartbeat: Option<nat>, garbage: bool): (Sys, seq<nat>)
    requires Inv(s)
    decreases |s.db.registry| - i
  {
    hide Visit, Inv;
    var visited := Visit(s, i, heartbeat, garbage);
    VisitKeepsSize(s, i, heartbeat, garbage);
    var next := NthClient(visited.db, i + 1);
    if next.address == 0 then (visited, [i])
    else if next.address == last then (Visit(visited, i + 1, heartbeat, garbage), [i, i + 1])
    else
      var (end, rows) := PassFrom(visited, i + 1, last, heartbeat, garbage);
      (end, [i] + rows)
  }

  /** One pass of loop with both sides online. */
  ghost function Pass(s: Sys, heartbeat: Option<nat>, garbage: bool): (Sys, seq<nat>)
    requires Inv(s)
  {
    var last := LastAddress(s.db);
    if last == 0 then (s, []) else PassFrom(s, 0, last, heartbeat, garbage)
  }

  /** A visit neither adds nor removes rows, so the pass ends. */
  lemma VisitKeepsSize(s: Sys, n: nat, heartbeat: Option<nat>, garbage: bool)
    requires Inv(s)
    ensures Inv(Visit(s, n, heartbeat, garbage))
    ensures |Visit(s, n, heartbeat, garbage).db.registry| == |s.db.registry|
  {
    hide Inv, Visit;
    VisitKeeps(s, n, heartbeat, garbage);
    SizeKept(s, n, heartbeat, garbage);
  }

  ghost function Range(i: nat, j: nat): seq<nat>
    requires i <= j
  {
    seq(j - i, k requires 0 <= k < j - i => i + k)
  }

  /** The first row after i that is not in use. */
  ghost function StopAfter(rows: seq<Client>, i: nat): (j: nat)
    ensures i < j && (j <= i + 1 || j <= |rows|)
    ensures forall k | i < k < j && k < |rows| :: rows[k].id != ""
    ensures j < |rows| ==> rows[j].id == ""
    decreases |rows| - i
  {
    if i + 1 < |rows| && rows[i + 1].id != "" then StopAfter(rows, i + 1) else i + 1
  }

  /** The visits of a pass, one by one. */
  ghost function VisitAll(s: Sys, rows: seq<nat>, heartbeat: Option<nat>, garbage: bool): Sys
    decreases |rows|
  {
    if rows == [] then s else VisitAll(Visit(s, rows[0], heartbeat, garbage), rows[1..], heartbeat, garbage)
  }

  /** A visit to row i leaves the rows after it as they were. */
  lemma VisitSparesTheRest(s: Sys, i: nat, heartbeat: Option<nat>, garbage: bool)
    requires Inv(s) && Owned(s.db)
    ensures var t := Visit(s, i, heartbeat, garbage);
            && Inv(t) && Owned(t.db) && |t.db.registry| == |s.db.registry|
            && forall j | i < j < |s.db.registry| :: t.db.registry[j] == s.db.registry[j]
  {
    hide Inv, Visit, Owned;
    VisitKeepsSize(s, i, heartbeat, garbage);
    if i < |s.db.registry| && s.db.registry[i].id != "" {
      VisitOnly(s, i, heartbeat, garbage);
    } else {
      EmptyVisit(s, i, heartbeat, garbage);
      SameRowsOwned(s.db, Visit(s, i, heartbeat, garbage).db);
    }
  }

  lemma {:induction false} StopAgrees(rows: seq<Client>, after: seq<Client>, i: nat)
    requires |after| == |rows| && forall j | i < j < |rows| :: after[j] == rows[j]
    ensures StopAfter(after, i) == StopAfter(rows, i)
    decreases |rows| - i
  {
    if i + 1 < |rows| && rows[i + 1].id != "" {
      StopAgrees(rows, after, i + 1);
    }
  }

  lemma LiveMeansAddress(s: Sys, j: nat)
    requires Inv(s) && j < |s.db.registry|
    ensures s.db.registry[j].id == "" <==> s.db.registry[j].address == 0
    ensures s.db.registry[j].id == "" <==> s.db.registry[j].status == EMPTY
  {
  }

  /** The row with the last client's address is the last client's. */
  lemma LastByAddress(s: Sys, l: nat, j: nat)
    requires Inv(s) && Owned(s.db) && l < |s.db.registry| && j < |s.db.registry|
    requires s.db.registry[l].id != "" && s.db.registry[j].address == s.db.registry[l].address
    ensures j == l
  {
    LiveMeansAddress(s, j);
    LiveMeansAddress(s, l);
  }

  lemma VisitsUnfold(s: Sys, i: nat, rest: seq<nat>, heartbeat: Option<nat>, garbage: bool)
    ensures VisitAll(s, [i] + rest, heartbeat, garbage) ==
            VisitAll(Visit(s, i, heartbeat, garbage), rest, heartbeat, garbage)
    ensures VisitAll(s, [], heartbeat, garbage) == s
  {
    hide Visit;
    assert ([i] + rest)[1..] == rest;
  }

  lemma RangeUnfolds(i: nat, j: nat)
    requires i < j
    ensures Range(i, j) == [i] + Range(i + 1, j) && Range(j, j) == []
  {
  }

  lemma StopUnfolds(rows: seq<Client>, i: nat)
    ensures StopAfter(rows, i) == if i + 1 < |rows| && rows[i + 1].id != "" then StopAfter(rows, i + 1) else i + 1
  {
  }

  lemma PassUnfolds(s: Sys, i: nat, last: nat, heartbeat: Option<nat>, garbage: bool)
    requires Inv(s) && Inv(Visit(s, i, heartbeat, garbage))
    ensures var t := Visit(s, i, heartbeat, garbage);
            var next := NthClient(t.db, i + 1).address;
            PassFrom(s, i, last, heartbeat, garbage) ==
            if next == 0 then (t, [i])
            else if next == last then (Visit(t, i + 1, heartbeat, garbage), [i, i + 1])
            else (PassFrom(t, i + 1, last, heartbeat, garbage).0, [i] + PassFrom(t, i + 1, last, heartbeat, garbage).1)
  {
    hide Inv, Visit;
  }

  /** From row i on, with the last client l still ahead: rows are visited in order up to the first hole. */
  lemma {:induction false} PassFromVisits(s: Sys, i: nat, l: nat, heartbeat: Option<nat>, garbage: bool)
    requires Inv(s) && Owned(s.db) && i <= l < |s.db.registry| && (i == l ==> l == 0)
    requires s.db.registry[l].id != "" && forall j | l < j < |s.db.registry| :: s.db.registry[j].id == ""
    ensures var (end, rows) := PassFrom(s, i, s.db.registry[l].address, heartbeat, garbage);
            && rows == Range(i, StopAfter(s.db.registry, i))
            && end == VisitAll(s, rows, heartbeat, garbage)
    decreases l - i
  {
    hide Inv, Owned, Visit, PassFrom, VisitAll, StopAfter, Range;
    var last := s.db.registry[l].address;
    var t := Visit(s, i, heartbeat, garbage);
    var rows := t.db.registry;
    VisitSparesTheRest(s, i, heartbeat, garbage);
    StopAgrees(s.db.registry, rows, i);
    var stop := StopAfter(rows, i);
    StopUnfolds(rows, i);
    RangeUnfolds(i, stop);
    PassUnfolds(s, i, last, heartbeat, garbage);
    VisitsUnfold(s, i, Range(i + 1, stop), heartbeat, garbage);
    VisitsUnfold(t, i + 1, [], heartbeat, garbage);
    if i + 1 < |rows| {
      LiveMeansAddress(t, i + 1);
    }
    if i + 1 < |rows| && rows[i + 1].id != "" {
      if rows[i + 1].address == last {
        LastByAddress(t, l, i + 1);
        StopUnfolds(rows, i + 1);
        RangeUnfolds(i + 1, stop);
        assert [i] + [i + 1] == [i, i + 1] && [i + 1] + [] == [i + 1];
        VisitsUnfold(Visit(t, i + 1, heartbeat, garbage), i + 2, [], heartbeat, garbage);
      } else {
        PassFromVisits(t, i + 1, l, heartbeat, garbage);
      }
    } else {
      RangeUnfolds(i, i + 1);
      assert [i] + [] == [i];
    }
  }

  /** One pass visits the rows from the first one up to the first hole after it, each once and in order. It serves
      every client exactly when there is no hole between row 0 and the last client. */
  lemma PassServes(s: Sys, heartbeat: Option<nat>, garbage: bool)
    requires Inv(s) && Owned(s.db) && Last(s.db.registry, InUse) >= 0
    ensures var (end, rows) := Pass(s, heartbeat, garbage);
            var l := Last(s.db.registry, InUse);
            && rows == Range(0, StopAfter(s.db.registry, 0))
            && end == VisitAll(s, rows, heartbeat, garbage)
            && ((forall n | 0 <= n < |s.db.registry| && s.db.registry[n].id != "" :: n in rows) <==>
                (forall n | 1 <= n <= l :: s.db.registry[n].id != ""))
  {
    hide Inv, Owned, PassFrom, VisitAll;
    var l := Last(s.db.registry, InUse);
    var all := s.db.registry;
    forall j | 0 <= j < |all| ensures InUse(all[j]) <==> all[j].id != "" {
      LiveMeansAddress(s, j);
    }
    LiveMeansAddress(s, l);
    PassFromVisits(s, 0, l, heartbeat, garbage);
    var stop := StopAfter(all, 0);
    RangeHolds(stop);
    if stop <= l {
      assert all[stop].id == "";
      assert l !in Range(0, stop);
    }
  }

  lemma RangeHolds(j: nat)
    ensures forall n: nat :: n in Range(0, j) <==> n < j
  {
    forall n: nat | n < j ensures n in Range(0, j) {
      assert Range(0, j)[n] == n;
    }
  }

  /** Without any client there is nothing to visit. */
  lemma EmptyPass(s: Sys, heartbeat: Option<nat>, garbage: bool)
    requires Inv(s) && Last(s.db.registry, InUse) == -1
    ensures Pass(s, heartbeat, garbage) == (s, [])
  {
  }
}
