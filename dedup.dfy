/** The seen-ledger discipline shared by every source: walk a batch in order,
    report a record when its id is neither in the ledger nor reported earlier
    in the batch, append the id immediately, and at the end keep only the
    newest `Cap` ids of that source. */
module Dedup {

  /** How many ids each source's list keeps after a check. */
  const Cap: nat := 1000

  /** What a source's relevance filter and id extraction make of one raw record. */
  datatype Verdict<L> = Reject | Accept(id: string, lead: L)

  ghost predicate Distinct(s: seq<string>) {
    forall i, j :: 0 <= i < j < |s| ==> s[i] != s[j]
  }

  function Ids<L>(found: seq<(string, L)>): (ids: seq<string>)
    ensures |ids| == |found|
    ensures forall i :: 0 <= i < |found| ==> ids[i] == found[i].0
  {
    seq(|found|, i requires 0 <= i < |found| => found[i].0)
  }

  function Leads<L>(found: seq<(string, L)>): (leads: seq<L>)
    ensures |leads| == |found|
    ensures forall i :: 0 <= i < |found| ==> leads[i] == found[i].1
  {
    seq(|found|, i requires 0 <= i < |found| => found[i].1)
  }

  lemma IdsAppend<L>(found: seq<(string, L)>, x: (string, L))
    ensures Ids(found + [x]) == Ids(found) + [x.0]
    ensures Leads(found + [x]) == Leads(found) + [x.1]
  {
  }

  lemma IdsConcat<L>(a: seq<(string, L)>, b: seq<(string, L)>)
    ensures Ids(a + b) == Ids(a) + Ids(b)
    ensures Leads(a + b) == Leads(a) + Leads(b)
  {
  }

  /** The `(id, lead)` pairs a source reports for `batch` when the ledger already
      holds `seen`, in the order of the loop that appends them. */
  function Scan<R, L>(classify: R -> Verdict<L>, seen: seq<string>, batch: seq<R>): seq<(string, L)>
    decreases |batch|
  {
    if batch == [] then []
    else
      var done := Scan(classify, seen, batch[..|batch| - 1]);
      var v := classify(batch[|batch| - 1]);
      if v.Accept? && v.id !in seen + Ids(done) then done + [(v.id, v.lead)] else done
  }

  /** The loop body for one record, given the pairs `done` reported so far. */
  function Step<R, L>(classify: R -> Verdict<L>, seen: seq<string>, done: seq<(string, L)>, r: R): seq<(string, L)> {
    var v := classify(r);
    if v.Accept? && v.id !in seen + Ids(done) then done + [(v.id, v.lead)] else done
  }

  /** Scanning one more record: the step the source's loop body takes. */
  lemma ScanSnoc<R, L>(classify: R -> Verdict<L>, seen: seq<string>, batch: seq<R>, r: R)
    ensures Scan(classify, seen, batch + [r]) == Step(classify, seen, Scan(classify, seen, batch), r)
  {
    assert (batch + [r])[..|batch|] == batch;
  }

  ghost predicate AcceptedIn<R, L>(classify: R -> Verdict<L>, batch: seq<R>, x: string) {
    exists j :: 0 <= j < |batch| && classify(batch[j]).Accept? && classify(batch[j]).id == x
  }

  /** An id is reported exactly when some record of the batch is accepted with
      that id and the ledger did not already hold it: an id already in `seen`
      is never reported, a rejected record contributes nothing, and no accepted
      fresh id is lost. */
  lemma {:induction false} ScanIdsExactly<R, L>(classify: R -> Verdict<L>, seen: seq<string>, batch: seq<R>)
    ensures forall x :: x in Ids(Scan(classify, seen, batch)) <==>
      x !in seen && AcceptedIn(classify, batch, x)
    decreases |batch|
  {
    if batch != [] {
      var prefix := batch[..|batch| - 1];
      var last := batch[|batch| - 1];
      ScanIdsExactly(classify, seen, prefix);
      var done := Scan(classify, seen, prefix);
      var v := classify(last);
      if v.Accept? && v.id !in seen + Ids(done) {
        IdsAppend(done, (v.id, v.lead));
      }
      forall x ensures AcceptedIn(classify, batch, x) <==>
        AcceptedIn(classify, prefix, x) || (v.Accept? && v.id == x)
      {
        if AcceptedIn(classify, batch, x) {
          var j :| 0 <= j < |batch| && classify(batch[j]).Accept? && classify(batch[j]).id == x;
          if j < |prefix| {
            assert prefix[j] == batch[j];
          }
        }
        if AcceptedIn(classify, prefix, x) {
          var j :| 0 <= j < |prefix| && classify(prefix[j]).Accept? && classify(prefix[j]).id == x;
          assert batch[j] == prefix[j];
        }
        if v.Accept? && v.id == x {
          assert batch[|batch| - 1] == last;
        }
      }
    }
  }

  /** The reported ids are pairwise distinct and none of them was in the ledger,
      so a ledger without duplicates stays without duplicates. */
  lemma {:induction false} ScanDistinct<R, L>(classify: R -> Verdict<L>, seen: seq<string>, batch: seq<R>)
    ensures Distinct(Ids(Scan(classify, seen, batch)))
    ensures forall x :: x in Ids(Scan(classify, seen, batch)) ==> x !in seen
    ensures Distinct(seen) ==> Distinct(seen + Ids(Scan(classify, seen, batch)))
    decreases |batch|
  {
    if batch != [] {
      var prefix := batch[..|batch| - 1];
      ScanDistinct(classify, seen, prefix);
      var done := Scan(classify, seen, prefix);
      var v := classify(batch[|batch| - 1]);
      if v.Accept? && v.id !in seen + Ids(done) {
        IdsAppend(done, (v.id, v.lead));
        assert seen + Ids(done + [(v.id, v.lead)]) == (seen + Ids(done)) + [v.id];
      }
    }
  }

  /** Every reported pair is the verdict of some record of the batch: the id a
      record was accepted under, with the lead built from that record. */
  lemma {:induction false} ScanSound<R, L>(classify: R -> Verdict<L>, seen: seq<string>, batch: seq<R>)
    ensures forall p :: p in Scan(classify, seen, batch) ==>
      exists j :: 0 <= j < |batch| && classify(batch[j]) == Accept(p.0, p.1)
    decreases |batch|
  {
    if batch != [] {
      var n := |batch| - 1;
      var prefix := batch[..n];
      ScanSound(classify, seen, prefix);
      var done := Scan(classify, seen, prefix);
      forall p | p in done ensures exists j :: 0 <= j < |batch| && classify(batch[j]) == Accept(p.0, p.1) {
        var j :| 0 <= j < |prefix| && classify(prefix[j]) == Accept(p.0, p.1);
        assert batch[j] == prefix[j];
      }
    }
  }

  /** Scanning two batches one after the other is scanning their concatenation:
      the second starts from the ledger the first left behind. */
  lemma {:induction false} ScanAppend<R, L>(classify: R -> Verdict<L>, seen: seq<string>, a: seq<R>, b: seq<R>)
    ensures Scan(classify, seen, a + b) ==
      Scan(classify, seen, a) + Scan(classify, seen + Ids(Scan(classify, seen, a)), b)
    decreases |b|
  {
    if b == [] {
      assert a + b == a;
    } else {
      var n := |b| - 1;
      var x := b[n];
      var first := Scan(classify, seen, a);
      var rest := Scan(classify, seen + Ids(first), b[..n]);
      calc {
        Scan(classify, seen, a + b);
        { assert a + b == (a + b[..n]) + [x]; ScanSnoc(classify, seen, a + b[..n], x); }
        Step(classify, seen, Scan(classify, seen, a + b[..n]), x);
        { ScanAppend(classify, seen, a, b[..n]); }
        Step(classify, seen, first + rest, x);
        { StepConcat(classify, seen, first, rest, x); }
        first + Step(classify, seen + Ids(first), rest, x);
        { assert b == b[..n] + [x]; ScanSnoc(classify, seen + Ids(first), b[..n], x); }
        first + Scan(classify, seen + Ids(first), b);
      }
    }
  }

  /** The scan of a batch is its first record's step followed by the scan of
      the rest, started from the ledger that step left. */
  lemma ScanCons<R, L>(classify: R -> Verdict<L>, seen: seq<string>, r: R, rest: seq<R>)
    ensures var head := Step(classify, seen, [], r);
      Scan(classify, seen, [r] + rest) == head + Scan(classify, seen + Ids(head), rest)
  {
    ScanAppend(classify, seen, [r], rest);
    assert [r] == [] + [r];
    ScanSnoc(classify, seen, [], r);
  }

  /** A step after two runs of reports is a step of the second run, started
      from the ledger the first one left. */
  lemma StepConcat<R, L>(classify: R -> Verdict<L>, seen: seq<string>, first: seq<(string, L)>,
                         rest: seq<(string, L)>, r: R)
    ensures Step(classify, seen, first + rest, r) == first + Step(classify, seen + Ids(first), rest, r)
  {
    IdsConcat(first, rest);
    assert seen + Ids(first + rest) == (seen + Ids(first)) + Ids(rest);
    var v := classify(r);
    if v.Accept? && v.id !in seen + Ids(first + rest) {
      assert (first + rest) + [(v.id, v.lead)] == first + (rest + [(v.id, v.lead)]);
    }
  }

  /** The loop every check runs over its records: classify each record, report
      it when its id is neither in the source's list nor reported earlier, and
      append the id to the list at once. `ids` is the list afterwards. */
  method ScanBatch<R, L>(classify: R -> Verdict<L>, batch: seq<R>, ledgerIds: seq<string>)
    returns (newLeads: seq<L>, ids: seq<string>)
    ensures var found := Scan(classify, ledgerIds, batch);
      newLeads == Leads(found) && ids == ledgerIds + Ids(found)
  {
    newLeads := [];
    ids := ledgerIds;
    ghost var found: seq<(string, L)> := [];
    assert ledgerIds + Ids(found) == ledgerIds;
    var i := 0;
    while i < |batch|
      invariant 0 <= i <= |batch|
      invariant found == Scan(classify, ledgerIds, batch[..i])
      invariant ids == ledgerIds + Ids(found)
      invariant newLeads == Leads(found)
    {
      ghost var next := Step(classify, ledgerIds, found, batch[i]);
      assert Scan(classify, ledgerIds, batch[..i + 1]) == next by {
        assert batch[..i + 1] == batch[..i] + [batch[i]];
        ScanSnoc(classify, ledgerIds, batch[..i], batch[i]);
      }
      match classify(batch[i]) {
        case Reject =>
        case Accept(id, lead) =>
          if id !in ids {
            IdsAppend(found, (id, lead));
            newLeads := newLeads + [lead];
            ids := ids + [id];
          }
      }
      found := next;
      i := i + 1;
    }
    assert batch[..i] == batch;
  }

  // ----------------------------------------------------------- reference order

  /** Record `j` is the first record of the batch accepted with its id, and that
      id was not in the ledger. */
  ghost predicate FirstSighting<R, L>(classify: R -> Verdict<L>, seen: seq<string>, batch: seq<R>, j: nat)
    requires j < |batch|
  {
    var v := classify(batch[j]);
    && v.Accept?
    && v.id !in seen
    && forall k :: 0 <= k < j ==> !(classify(batch[k]).Accept? && classify(batch[k]).id == v.id)
  }

  /** A reference definition that looks only at the batch: the first sightings
      of fresh ids, in batch order, each with the lead of that first record. */
  ghost function FirstSightings<R, L>(classify: R -> Verdict<L>, seen: seq<string>, batch: seq<R>): seq<(string, L)>
    decreases |batch|
  {
    if batch == [] then []
    else
      var n := |batch| - 1;
      FirstSightings(classify, seen, batch[..n])
        + (if FirstSighting(classify, seen, batch, n)
           then [(classify(batch[n]).id, classify(batch[n]).lead)] else [])
  }

  /** The ledger-driven loop reports exactly the first sightings, in batch order:
      each fresh id once, with the lead of its first record. */
  lemma {:induction false} ScanIsFirstSightings<R, L>(classify: R -> Verdict<L>, seen: seq<string>, batch: seq<R>)
    ensures Scan(classify, seen, batch) == FirstSightings(classify, seen, batch)
    decreases |batch|
  {
    if batch != [] {
      var n := |batch| - 1;
      var prefix := batch[..n];
      ScanIsFirstSightings(classify, seen, prefix);
      ScanIdsExactly(classify, seen, prefix);
      var done := Scan(classify, seen, prefix);
      var v := classify(batch[n]);
      if v.Accept? {
        var earlier := exists k :: 0 <= k < n && classify(batch[k]).Accept? && classify(batch[k]).id == v.id;
        assert AcceptedIn(classify, prefix, v.id) <==> earlier by {
          if earlier {
            var k :| 0 <= k < n && classify(batch[k]).Accept? && classify(batch[k]).id == v.id;
            assert prefix[k] == batch[k];
          }
          if AcceptedIn(classify, prefix, v.id) {
            var k :| 0 <= k < |prefix| && classify(prefix[k]).Accept? && classify(prefix[k]).id == v.id;
            assert prefix[k] == batch[k];
          }
        }
        assert (v.id !in seen + Ids(done)) <==> FirstSighting(classify, seen, batch, n);
      }
    }
  }

  // ----------------------------------------------------------------- retention

  /** The newest `Cap` ids of `ids`, all of them when there are fewer. */
  function Retain(ids: seq<string>): (r: seq<string>)
    ensures |r| == if |ids| <= Cap then |ids| else Cap
    ensures r == ids[|ids| - |r|..]
  {
    if |ids| <= Cap then ids else ids[|ids| - Cap..]
  }

  /** Trimming evicts oldest first: every id among the newest `Cap` survives, and
      no duplicates appear. */
  lemma RetainKeepsNewest(ids: seq<string>)
    ensures forall j :: 0 <= j < |ids| && |ids| - Cap <= j ==> ids[j] in Retain(ids)
    ensures Distinct(ids) ==> Distinct(Retain(ids))
  {
    var r := Retain(ids);
    forall j | 0 <= j < |ids| && |ids| - Cap <= j ensures ids[j] in r {
      assert r[j - (|ids| - |r|)] == ids[j];
    }
  }

  /** Appending `added` to `ids` and trimming: at most `Cap` ids, the newest of
      the concatenation, untouched when it fits, every added id kept when no
      more than `Cap` were added, and no duplicates introduced. */
  lemma RetainAppend(ids: seq<string>, added: seq<string>)
    ensures var r := Retain(ids + added);
      && |r| <= Cap
      && r == (ids + added)[|ids| + |added| - |r|..]
      && (|ids| + |added| <= Cap ==> r == ids + added)
      && (|added| <= Cap ==> forall x :: x in added ==> x in r)
      && (Distinct(ids + added) ==> Distinct(r))
  {
    var all := ids + added;
    RetainKeepsNewest(all);
    forall x | |added| <= Cap && x in added ensures x in Retain(all) {
      var k :| 0 <= k < |added| && added[k] == x;
      assert all[|ids| + k] == x;
    }
  }

  /** Cross-run dedup: once a batch has been recorded and trimmed, none of the
      ids it reported is reported again by any later batch, provided the batch
      added no more than `Cap` ids (otherwise trimming may evict some of them). */
  lemma NoReReport<R, L>(classify: R -> Verdict<L>, seen: seq<string>, first: seq<R>, later: seq<R>)
    requires |Scan(classify, seen, first)| <= Cap
    ensures var reported := Ids(Scan(classify, seen, first));
      var ledger := Retain(seen + reported);
      forall x :: x in reported ==> x !in Ids(Scan(classify, ledger, later))
  {
    var reported := Ids(Scan(classify, seen, first));
    var all := seen + reported;
    var ledger := Retain(all);
    RetainKeepsNewest(all);
    forall x | x in reported ensures x in ledger {
      var k :| 0 <= k < |reported| && reported[k] == x;
      assert all[|seen| + k] == x;
    }
    ScanIdsExactly(classify, ledger, later);
  }
}
