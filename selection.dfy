/** The greedy transaction selector of CreateNewBlock: building the queued
    candidates and the waiting orphans from the pool, then repeatedly taking
    the best candidate off the queue, appending it when it fits, and
    releasing the orphans that were waiting only for it. */
module Selection {
  import opened MinerTypes
  import opened TxPriorityCompare
  import opened BlockLimits

  /** COrphan: a candidate that waits for the pending parents in
      `dependsOn` before it may be queued. */
  datatype Orphan = Orphan(tx: Tx, dependsOn: set<TxId>, priority: int, feeRate: int)

  /** Neither a coinbase nor locked until later: worth considering. */
  predicate IsCandidate(tx: Tx)
  {
    !tx.isCoinBase && tx.isFinal
  }

  /** Parents of `tx` that the coin view does not hold, i.e. that are still
      pending in the pool. */
  function PendingParents(coins: set<TxId>, tx: Tx): set<TxId>
  {
    set h | h in tx.inputs && h !in coins
  }

  /** Every input of every pool transaction is found in the coin view or in
      the pool itself. */
  predicate Consistent(pool: seq<Tx>, coins: set<TxId>)
  {
    forall i, h :: 0 <= i < |pool| && h in pool[i].inputs ==> h in coins || h in Ids(pool)
  }

  function EntryOf(tx: Tx): Entry
  {
    Entry(ModifiedPriority(tx), ModifiedFeeRate(tx), tx)
  }

  function OrphanOf(coins: set<TxId>, tx: Tx): Orphan
  {
    Orphan(tx, PendingParents(coins, tx), ModifiedPriority(tx), ModifiedFeeRate(tx))
  }

  /** The queue entry an orphan becomes once released. */
  function Released(o: Orphan): Entry
  {
    Entry(o.priority, o.feeRate, o.tx)
  }

  /** The candidates queued at once, in pool order: those without pending
      parents. */
  function InitialQueue(pool: seq<Tx>, coins: set<TxId>): seq<Entry>
  {
    if pool == [] then []
    else
      var tx := pool[|pool| - 1];
      InitialQueue(pool[..|pool| - 1], coins) +
        (if IsCandidate(tx) && PendingParents(coins, tx) == {} then [EntryOf(tx)] else [])
  }

  /** The candidates held back as orphans, in pool order: those with at
      least one pending parent. */
  function InitialOrphans(pool: seq<Tx>, coins: set<TxId>): seq<Orphan>
  {
    if pool == [] then []
    else
      var tx := pool[|pool| - 1];
      InitialOrphans(pool[..|pool| - 1], coins) +
        (if IsCandidate(tx) && PendingParents(coins, tx) != {} then [OrphanOf(coins, tx)] else [])
  }

  /** mapDependers, with orphans named by their index in the orphan list:
      orphan `o` is listed under `h` exactly when it waits on `h`. */
  predicate DependersIndex(orphans: seq<Orphan>, dependers: map<TxId, seq<nat>>)
  {
    (forall h, o {:trigger o in dependers[h]} ::
      h in dependers && o in dependers[h] ==> o < |orphans| && h in orphans[o].dependsOn) &&
    (forall o, h {:trigger h in orphans[o].dependsOn} ::
      0 <= o < |orphans| && h in orphans[o].dependsOn ==> h in dependers && o in dependers[h])
  }

  predicate DistinctEntries(q: seq<Entry>)
  {
    forall i, j :: 0 <= i < j < |q| ==> q[i].tx.id != q[j].tx.id
  }

  predicate DistinctOrphans(orphans: seq<Orphan>)
  {
    forall a, b :: 0 <= a < b < |orphans| ==> orphans[a].tx.id != orphans[b].tx.id
  }

  /** A tx is queued at once exactly when it is a candidate pool
      transaction with no pending parent. */
  lemma {:induction false} InitialQueueMembers(pool: seq<Tx>, coins: set<TxId>)
    ensures forall e :: e in InitialQueue(pool, coins) ==>
      e == EntryOf(e.tx) && e.tx in pool && IsCandidate(e.tx) && PendingParents(coins, e.tx) == {}
    ensures forall tx :: tx in pool && IsCandidate(tx) && PendingParents(coins, tx) == {} ==>
      EntryOf(tx) in InitialQueue(pool, coins)
  {
    if pool != [] {
      var init := pool[..|pool| - 1];
      InitialQueueMembers(init, coins);
      assert pool == init + [pool[|pool| - 1]];
    }
  }

  /** A tx is held back as an orphan exactly when it is a candidate pool
      transaction with some pending parent; its record lists exactly those
      parents. */
  lemma {:induction false} InitialOrphansMembers(pool: seq<Tx>, coins: set<TxId>)
    ensures forall o :: o in InitialOrphans(pool, coins) ==>
      o == OrphanOf(coins, o.tx) && o.tx in pool && IsCandidate(o.tx) && o.dependsOn != {}
    ensures forall tx :: tx in pool && IsCandidate(tx) && PendingParents(coins, tx) != {} ==>
      OrphanOf(coins, tx) in InitialOrphans(pool, coins)
  {
    if pool != [] {
      var init := pool[..|pool| - 1];
      InitialOrphansMembers(init, coins);
      assert pool == init + [pool[|pool| - 1]];
    }
  }

  /** Recording that orphan `o` also waits on `h` keeps the index exact. */
  lemma DependersAdd(orphans: seq<Orphan>, dependers: map<TxId, seq<nat>>, o: nat, h: TxId)
    requires DependersIndex(orphans, dependers) && o < |orphans|
    ensures var listed := if h in dependers then dependers[h] else [];
      DependersIndex(orphans[o := orphans[o].(dependsOn := orphans[o].dependsOn + {h})],
                     dependers[h := listed + [o]])
  {
    var listed := if h in dependers then dependers[h] else [];
    var orphans' := orphans[o := orphans[o].(dependsOn := orphans[o].dependsOn + {h})];
    var dependers' := dependers[h := listed + [o]];
    forall g, p | g in dependers' && p in dependers'[g]
      ensures p < |orphans'| && g in orphans'[p].dependsOn
    {
      if g == h {
        if p in listed {
          assert h in dependers && p in dependers[h];
          assert p < |orphans| && h in orphans[p].dependsOn;
          assert orphans[p].dependsOn <= orphans'[p].dependsOn;
        } else {
          assert p == o;
        }
      } else {
        assert p in dependers[g];
        assert p < |orphans| && g in orphans[p].dependsOn;
        assert orphans[p].dependsOn <= orphans'[p].dependsOn;
      }
    }
    forall p, g | 0 <= p < |orphans'| && g in orphans'[p].dependsOn
      ensures g in dependers' && p in dependers'[g]
    {
      if g == h {
        if p != o {
          assert g in orphans[p].dependsOn;
        }
        assert p in listed + [o];
      } else {
        assert g in orphans[p].dependsOn;
      }
    }
  }

  /** The last transaction of a pool with distinct ids has an id no
      earlier one has. */
  lemma LastFresh(pool: seq<Tx>)
    requires pool != [] && DistinctIds(pool)
    ensures forall t :: t in pool[..|pool| - 1] ==> t.id != pool[|pool| - 1].id
  {
    var init := pool[..|pool| - 1];
    forall t | t in init ensures t.id != pool[|pool| - 1].id {
      var i :| 0 <= i < |init| && init[i] == t;
      assert pool[i] == t;
    }
  }

  lemma DistinctEntriesAppend(q: seq<Entry>, e: Entry)
    requires DistinctEntries(q) && forall x :: x in q ==> x.tx.id != e.tx.id
    ensures DistinctEntries(q + [e])
  {
    var q' := q + [e];
    forall i, j | 0 <= i < j < |q'| ensures q'[i].tx.id != q'[j].tx.id {
      assert q'[i] in q;
    }
  }

  lemma DistinctOrphansAppend(os: seq<Orphan>, o: Orphan)
    requires DistinctOrphans(os) && forall x :: x in os ==> x.tx.id != o.tx.id
    ensures DistinctOrphans(os + [o])
  {
    var os' := os + [o];
    forall i, j | 0 <= i < j < |os'| ensures os'[i].tx.id != os'[j].tx.id {
      assert os'[i] in os;
    }
  }

  /** Distinct pool ids give distinct queue entries and orphans, and no
      transaction is both queued and an orphan. */
  lemma {:induction false} InitialDistinct(pool: seq<Tx>, coins: set<TxId>)
    requires DistinctIds(pool)
    ensures DistinctEntries(InitialQueue(pool, coins))
    ensures DistinctOrphans(InitialOrphans(pool, coins))
    ensures forall o, e :: o in InitialOrphans(pool, coins) && e in InitialQueue(pool, coins) ==> o.tx.id != e.tx.id
  {
    if pool != [] {
      var init := pool[..|pool| - 1];
      var tx := pool[|pool| - 1];
      assert DistinctIds(init) by {
        forall i, j | 0 <= i < j < |init| ensures init[i].id != init[j].id {
          assert init[i] == pool[i] && init[j] == pool[j];
        }
      }
      InitialDistinct(init, coins);
      InitialQueueMembers(init, coins);
      InitialOrphansMembers(init, coins);
      LastFresh(pool);
      if IsCandidate(tx) && PendingParents(coins, tx) == {} {
        DistinctEntriesAppend(InitialQueue(init, coins), EntryOf(tx));
      } else if IsCandidate(tx) {
        DistinctOrphansAppend(InitialOrphans(init, coins), OrphanOf(coins, tx));
      }
    }
  }

  /** Removing one entry from a queue of distinct entries leaves distinct
      entries, none with the removed entry's id. */
  lemma RemoveDistinct(q: seq<Entry>, k: nat)
    requires k < |q| && DistinctEntries(q)
    ensures var rest := q[..k] + q[k + 1..];
      DistinctEntries(rest) &&
      (forall x :: x in rest ==> x in q && x.tx.id != q[k].tx.id)
  {
    var rest := q[..k] + q[k + 1..];
    assert forall i :: 0 <= i < |rest| ==> rest[i] == if i < k then q[i] else q[i + 1];
  }

  /** The pending parents recorded for each orphan, minus those already
      selected, still cover every input outside the coin view. */
  predicate OrphansTrackParents(coins: set<TxId>, selected: seq<Tx>, orphans: seq<Orphan>)
  {
    forall o, h :: 0 <= o < |orphans| && h in orphans[o].tx.inputs && h !in coins ==>
      h in orphans[o].dependsOn || h in Ids(selected)
  }

  /** Number of orphans still waiting for a parent. */
  function Waiting(orphans: seq<Orphan>): nat
  {
    if orphans == [] then 0
    else Waiting(orphans[..|orphans| - 1]) + (if orphans[|orphans| - 1].dependsOn != {} then 1 else 0)
  }

  lemma {:induction false} WaitingUpdate(orphans: seq<Orphan>, o: nat, x: Orphan)
    requires o < |orphans|
    ensures Waiting(orphans[o := x]) + (if orphans[o].dependsOn != {} then 1 else 0)
         == Waiting(orphans) + (if x.dependsOn != {} then 1 else 0)
  {
    var n := |orphans|;
    if o < n - 1 {
      assert orphans[o := x][..n - 1] == orphans[..n - 1][o := x];
      WaitingUpdate(orphans[..n - 1], o, x);
    } else {
      assert orphans[o := x][..n - 1] == orphans[..n - 1];
    }
  }

  /** The coin view holds every input of `tx` (view.HaveInputs). */
  predicate HaveInputs(view: set<TxId>, tx: Tx)
  {
    forall h :: h in tx.inputs ==> h in view
  }

  /** No transaction comes before a pending parent: every input outside the
      coin view is the id of an earlier transaction of the sequence. */
  predicate ParentsFirst(coins: set<TxId>, txs: seq<Tx>)
  {
    forall i, h :: 0 <= i < |txs| && h in txs[i].inputs && h !in coins ==>
      exists j :: 0 <= j < i && txs[j].id == h
  }

  lemma ParentsFirstAppend(coins: set<TxId>, txs: seq<Tx>, t: Tx)
    requires ParentsFirst(coins, txs)
    requires HaveInputs(coins + Ids(txs), t)
    ensures ParentsFirst(coins, txs + [t])
  {
    var s := txs + [t];
    forall i, h | 0 <= i < |s| && h in s[i].inputs && h !in coins
      ensures exists j :: 0 <= j < i && s[j].id == h
    {
      if i < |txs| {
        var j :| 0 <= j < i && txs[j].id == h;
        assert s[j] == txs[j];
      } else {
        assert h in Ids(txs);
        var j :| 0 <= j < |txs| && txs[j].id == h;
        assert s[j] == txs[j];
      }
    }
  }

  /** The loop over the inputs of one candidate: the first input outside
      the coin view opens an orphan record for `tx`, and every such input
      is added to the record's parents and lists the record under that
      parent in `dependers`. Without such an input nothing changes. */
  method RecordPendingInputs(tx: Tx, coins: set<TxId>, orphans0: seq<Orphan>, dependers0: map<TxId, seq<nat>>)
    returns (orphans: seq<Orphan>, dependers: map<TxId, seq<nat>>, isOrphan: bool)
    requires DependersIndex(orphans0, dependers0)
    ensures isOrphan == (PendingParents(coins, tx) != {})
    ensures !isOrphan ==> orphans == orphans0 && dependers == dependers0
    ensures isOrphan ==> orphans == orphans0 + [Orphan(tx, PendingParents(coins, tx), 0, 0)]
    ensures DependersIndex(orphans, dependers)
  {
    orphans, dependers, isOrphan := orphans0, dependers0, false;
    var j := 0;
    while j < |tx.inputs|
      invariant 0 <= j <= |tx.inputs|
      invariant !isOrphan ==>
        orphans == orphans0 && dependers == dependers0 && (forall h :: h in tx.inputs[..j] ==> h in coins)
      invariant isOrphan ==>
        |orphans| == |orphans0| + 1 && orphans[..|orphans0|] == orphans0 &&
        orphans[|orphans0|] == Orphan(tx, set h | h in tx.inputs[..j] && h !in coins, 0, 0) &&
        orphans[|orphans0|].dependsOn != {}
      invariant DependersIndex(orphans, dependers)
    {
      var h := tx.inputs[j];
      assert tx.inputs[..j + 1] == tx.inputs[..j] + [h];
      if h !in coins {
        // Has to wait for this pending parent.
        if !isOrphan {
          orphans := orphans + [Orphan(tx, {}, 0, 0)];
          isOrphan := true;
        }
        var o := |orphans| - 1;
        DependersAdd(orphans, dependers, o, h);
        var listed := if h in dependers then dependers[h] else [];
        dependers := dependers[h := listed + [o]];
        orphans := orphans[o := orphans[o].(dependsOn := orphans[o].dependsOn + {h})];
      }
      j := j + 1;
    }
    assert tx.inputs[..j] == tx.inputs;
    if isOrphan {
      assert orphans == orphans0 + [orphans[|orphans0|]];
    } else {
      assert PendingParents(coins, tx) == {};
    }
  }

  /** The loop building vOrphan, mapDependers and vecPriority from the pool,
      in pool order. Coinbase and non-final transactions are skipped; a
      transaction with an input outside the coin view gets one orphan
      record, listed under each such input; the others are queued. */
  method BuildCandidates(pool: seq<Tx>, coins: set<TxId>)
    returns (queue: seq<Entry>, orphans: seq<Orphan>, dependers: map<TxId, seq<nat>>)
    requires Consistent(pool, coins)
    ensures queue == InitialQueue(pool, coins)
    ensures orphans == InitialOrphans(pool, coins)
    ensures DependersIndex(orphans, dependers)
  {
    queue, orphans, dependers := [], [], map[];
    var i := 0;
    while i < |pool|
      invariant 0 <= i <= |pool|
      invariant queue == InitialQueue(pool[..i], coins)
      invariant orphans == InitialOrphans(pool[..i], coins)
      invariant DependersIndex(orphans, dependers)
    {
      var tx := pool[i];
      assert pool[..i + 1][..i] == pool[..i];
      if !IsCandidate(tx) {
        i := i + 1;
        continue;
      }
      var isOrphan;
      orphans, dependers, isOrphan := RecordPendingInputs(tx, coins, orphans, dependers);
      if isOrphan {
        var o := |orphans| - 1;
        orphans := orphans[o := orphans[o].(priority := ModifiedPriority(tx), feeRate := ModifiedFeeRate(tx))];
      } else {
        queue := queue + [EntryOf(tx)];
      }
      i := i + 1;
    }
    assert pool[..i] == pool;
  }

  /** The invariant that keeps every transaction from being queued twice:
      queued ids are distinct and not yet taken off the queue (`seen`), and
      an orphan still waiting is neither queued nor seen. */
  ghost predicate Unique(queue: seq<Entry>, orphans: seq<Orphan>, seen: set<TxId>)
  {
    DistinctEntries(queue) &&
    DistinctOrphans(orphans) &&
    (forall e :: e in queue ==> e.tx.id !in seen) &&
    (forall o :: 0 <= o < |orphans| && orphans[o].dependsOn != {} ==>
      orphans[o].tx.id !in seen && forall e :: e in queue ==> e.tx.id != orphans[o].tx.id)
  }

  /** `e` is the entry of a listed orphan that waited for `hash` alone. */
  ghost predicate ReleasedFrom(orphans: seq<Orphan>, listed: seq<nat>, hash: TxId, e: Entry)
  {
    exists o :: 0 <= o < |orphans| && o in listed && orphans[o].dependsOn == {hash} && e == Released(orphans[o])
  }

  /** One orphan forgets a parent that has just been selected: the
      recorded parents still cover the pending inputs, and if none is left
      the orphan's entry may join the queue without breaking uniqueness;
      its inputs are then all in the coin view or already selected. */
  lemma ForgetParent(hash: TxId, orphans: seq<Orphan>, queue: seq<Entry>, o: nat,
                     coins: set<TxId>, selected: seq<Tx>, seen: set<TxId>)
    requires o < |orphans| && orphans[o].dependsOn != {}
    requires hash in Ids(selected)
    requires OrphansTrackParents(coins, selected, orphans)
    requires Unique(queue, orphans, seen)
    ensures var updated := orphans[o].(dependsOn := orphans[o].dependsOn - {hash});
      var orphans' := orphans[o := updated];
      OrphansTrackParents(coins, selected, orphans') &&
      (updated.dependsOn != {} ==> Unique(queue, orphans', seen)) &&
      (updated.dependsOn == {} ==>
        Unique(queue + [Released(updated)], orphans', seen) &&
        HaveInputs(coins + Ids(selected), updated.tx))
  {
    var updated := orphans[o].(dependsOn := orphans[o].dependsOn - {hash});
    if updated.dependsOn == {} {
      var q := queue + [Released(updated)];
      assert forall e :: e in queue ==> e.tx.id != updated.tx.id;
      assert forall i :: 0 <= i < |queue| ==> q[i] == queue[i];
    }
  }

  /** After the orphans listed in `listed` have forgotten `hash`: exactly
      those lost `hash` from their pending parents, nothing else changed. */
  ghost predicate Forgotten(orphans0: seq<Orphan>, listed: seq<nat>, hash: TxId, orphans: seq<Orphan>)
  {
    |orphans| == |orphans0| &&
    forall o :: 0 <= o < |orphans| ==>
      orphans[o] == orphans0[o].(dependsOn := if o in listed then orphans0[o].dependsOn - {hash} else orphans0[o].dependsOn)
  }

  /** The entries pushed after `queue0` are released orphans from `listed`,
      each with all its inputs in `view`. */
  ghost predicate PushedReleased(queue0: seq<Entry>, queue: seq<Entry>, orphans0: seq<Orphan>,
                                 listed: seq<nat>, hash: TxId, view: set<TxId>)
  {
    |queue| >= |queue0| && queue[..|queue0|] == queue0 &&
    forall k :: |queue0| <= k < |queue| ==>
      ReleasedFrom(orphans0, listed, hash, queue[k]) && HaveInputs(view, queue[k].tx)
  }

  /** Forgetting `hash` in the next listed orphan extends `Forgotten` by one
      step; an orphan left waiting for nothing had waited for `hash` alone. */
  lemma ForgottenStep(orphans0: seq<Orphan>, listed: seq<nat>, k: nat, hash: TxId, orphans: seq<Orphan>)
    requires k < |listed| && listed[k] < |orphans|
    requires Forgotten(orphans0, listed[..k], hash, orphans)
    ensures var o := listed[k];
      Forgotten(orphans0, listed[..k + 1], hash, orphans[o := orphans[o].(dependsOn := orphans[o].dependsOn - {hash})]) &&
      (orphans[o].dependsOn != {} && orphans[o].dependsOn - {hash} == {} ==> orphans0[o].dependsOn == {hash})
  {
    var o := listed[k];
    assert listed[..k + 1] == listed[..k] + [o];
  }

  /** Pushing at most one orphan released by `hash`, listed at position `k`,
      extends `PushedReleased` by one step. */
  lemma PushedStep(queue0: seq<Entry>, queue: seq<Entry>, orphans0: seq<Orphan>, listed: seq<nat>,
                   k: nat, hash: TxId, view: set<TxId>, extra: seq<Entry>)
    requires k < |listed| && listed[k] < |orphans0|
    requires PushedReleased(queue0, queue, orphans0, listed[..k], hash, view)
    requires extra == [] || (extra == [Released(orphans0[listed[k]])] &&
      orphans0[listed[k]].dependsOn == {hash} && HaveInputs(view, orphans0[listed[k]].tx))
    ensures PushedReleased(queue0, queue + extra, orphans0, listed[..k + 1], hash, view)
  {
    var o := listed[k];
    assert listed[..k + 1] == listed[..k] + [o];
    var q := queue + extra;
    forall j | |queue0| <= j < |q|
      ensures ReleasedFrom(orphans0, listed[..k + 1], hash, q[j]) && HaveInputs(view, q[j].tx)
    {
      if j < |queue| {
        assert q[j] == queue[j] && ReleasedFrom(orphans0, listed[..k], hash, queue[j]);
        var p :| 0 <= p < |orphans0| && p in listed[..k] && orphans0[p].dependsOn == {hash} && queue[j] == Released(orphans0[p]);
        assert p in listed[..k + 1];
      } else {
        assert o in listed[..k + 1];
      }
    }
    assert q[..|queue0|] == queue[..|queue0|];
  }

  /** The loop over mapDependers[hash] after `hash` was appended: each
      listed orphan still waiting forgets `hash`, and one left waiting for
      nothing is pushed onto the queue. */
  method ReleaseDependers(hash: TxId, listed: seq<nat>, orphans0: seq<Orphan>, queue0: seq<Entry>,
                          ghost coins: set<TxId>, ghost selected: seq<Tx>, ghost seen: set<TxId>)
    returns (orphans: seq<Orphan>, queue: seq<Entry>)
    requires forall o :: o in listed ==> o < |orphans0|
    requires hash in Ids(selected)
    requires OrphansTrackParents(coins, selected, orphans0)
    requires Unique(queue0, orphans0, seen)
    ensures Forgotten(orphans0, listed, hash, orphans)
    ensures OrphansTrackParents(coins, selected, orphans)
    ensures Unique(queue, orphans, seen)
    ensures PushedReleased(queue0, queue, orphans0, listed, hash, coins + Ids(selected))
    ensures |queue| - |queue0| + Waiting(orphans) == Waiting(orphans0)
  {
    orphans, queue := orphans0, queue0;
    var k := 0;
    while k < |listed|
      invariant 0 <= k <= |listed|
      invariant Forgotten(orphans0, listed[..k], hash, orphans)
      invariant OrphansTrackParents(coins, selected, orphans)
      invariant Unique(queue, orphans, seen)
      invariant PushedReleased(queue0, queue, orphans0, listed[..k], hash, coins + Ids(selected))
      invariant |queue| - |queue0| + Waiting(orphans) == Waiting(orphans0)
    {
      var o := listed[k];
      assert o in listed;
      ForgottenStep(orphans0, listed, k, hash, orphans);
      if orphans[o].dependsOn != {} {
        var updated := orphans[o].(dependsOn := orphans[o].dependsOn - {hash});
        WaitingUpdate(orphans, o, updated);
        ForgetParent(hash, orphans, queue, o, coins, selected, seen);
        orphans := orphans[o := updated];
        if updated.dependsOn == {} {
          assert Released(updated) == Released(orphans0[o]);
          PushedStep(queue0, queue, orphans0, listed, k, hash, coins + Ids(selected), [Released(updated)]);
          queue := queue + [Released(updated)];
        } else {
          PushedStep(queue0, queue, orphans0, listed, k, hash, coins + Ids(selected), []);
          assert queue + [] == queue;
        }
      } else {
        assert orphans[o].(dependsOn := orphans[o].dependsOn - {hash}) == orphans[o];
        assert orphans[o := orphans[o].(dependsOn := orphans[o].dependsOn - {hash})] == orphans;
        PushedStep(queue0, queue, orphans0, listed, k, hash, coins + Ids(selected), []);
        assert queue + [] == queue;
      }
      k := k + 1;
    }
    assert listed[..k] == listed;
  }

  /** The block being assembled: the transactions appended after the
      coinbase with their fees and signature-operation counts (the three
      parallel vectors), the running size and signature-operation count,
      and the fee total. */
  datatype Draft = Draft(txs: seq<Tx>, fees: seq<int>, sigOps: seq<nat>,
                         size: nat, sigOpCount: nat, totalFees: int)

  /** The empty block: only the reserve for the header and the coinbase. */
  const EmptyDraft := Draft([], [], [], 1000, 100, 0)

  /** Appending `tx` to every vector and every running total. */
  function Append(d: Draft, tx: Tx): Draft
  {
    Draft(d.txs + [tx], d.fees + [tx.fee], d.sigOps + [TxSigOps(tx)],
          d.size + tx.size, d.sigOpCount + TxSigOps(tx), d.totalFees + tx.fee)
  }

  /** The block obtained by appending `txs`, in order, to the empty one. */
  function DraftOf(txs: seq<Tx>): Draft
  {
    if txs == [] then EmptyDraft else Append(DraftOf(txs[..|txs| - 1]), txs[|txs| - 1])
  }

  /** The block's vectors and totals are exactly those of its transactions. */
  predicate Tally(d: Draft)
  {
    d == DraftOf(d.txs)
  }

  /** The fee and signature-operation vectors line up with the
      transactions entry by entry. */
  predicate Aligned(d: Draft)
  {
    |d.fees| == |d.txs| && |d.sigOps| == |d.txs| &&
    forall i :: 0 <= i < |d.txs| ==> d.fees[i] == d.txs[i].fee && d.sigOps[i] == TxSigOps(d.txs[i])
  }

  lemma AppendAligned(d: Draft, tx: Tx)
    requires Aligned(d)
    ensures Aligned(Append(d, tx))
  {
  }

  /** A block built by appending holds exactly the transactions appended. */
  lemma {:induction false} DraftTxs(txs: seq<Tx>)
    ensures DraftOf(txs).txs == txs
  {
    if txs != [] {
      var init, t := txs[..|txs| - 1], txs[|txs| - 1];
      DraftTxs(init);
      assert txs == init + [t];
      assert DraftOf(txs) == Append(DraftOf(init), t);
    }
  }

  /** The fee and signature-operation vectors of a block built by appending
      line up with its transactions entry by entry. */
  lemma {:induction false} DraftVectors(txs: seq<Tx>)
    ensures Aligned(DraftOf(txs))
  {
    if txs != [] {
      DraftVectors(txs[..|txs| - 1]);
      AppendAligned(DraftOf(txs[..|txs| - 1]), txs[|txs| - 1]);
    }
  }

  /** The running size, signature-operation count and fee total of a block
      built by appending are the reserve plus the sums over its vectors. */
  lemma {:induction false} DraftTotals(txs: seq<Tx>)
    ensures var d := DraftOf(txs);
      d.size == 1000 + SumSizes(txs) && d.sigOpCount == 100 + Sum(d.sigOps) &&
      d.totalFees == Sum(d.fees)
  {
    if txs != [] {
      var init := txs[..|txs| - 1];
      var t := txs[|txs| - 1];
      DraftTotals(init);
      SumAppend(DraftOf(init).fees, t.fee);
      SumAppend(DraftOf(init).sigOps, TxSigOps(t));
    }
  }

  /** Appending to a block keeps it the block of its transactions. */
  lemma TallyAppend(d: Draft, tx: Tx)
    requires Tally(d)
    ensures Tally(Append(d, tx))
  {
    assert (d.txs + [tx])[..|d.txs|] == d.txs;
  }

  lemma TallyEmpty()
    ensures Tally(EmptyDraft)
  {
  }

  /** The vectors line up with the transactions and the totals are the
      reserves plus the sums over them. */
  predicate Balanced(d: Draft)
  {
    Aligned(d) &&
    d.size == 1000 + SumSizes(d.txs) && d.sigOpCount == 100 + Sum(d.sigOps) &&
    d.totalFees == Sum(d.fees)
  }

  /** A block that is the block of its transactions is balanced. */
  lemma TallyFacts(d: Draft)
    requires Tally(d)
    ensures Balanced(d)
  {
    DraftVectors(d.txs);
    DraftTotals(d.txs);
  }

  /** What the appended transactions have in common: candidates of the pool
      whose scripts pass, no two alike, parents first; the coin view is the
      initial one plus their outputs. */
  predicate Chosen(pool: seq<Tx>, coins: set<TxId>, txs: seq<Tx>, view: set<TxId>)
  {
    (forall t :: t in txs ==> t in pool && IsCandidate(t) && t.scriptsValid) &&
    DistinctIds(txs) &&
    ParentsFirst(coins, txs) &&
    view == coins + Ids(txs)
  }

  lemma ChosenEmpty(pool: seq<Tx>, coins: set<TxId>)
    ensures Chosen(pool, coins, [], coins)
  {
    assert Ids([]) == {};
  }

  lemma ChosenAppend(pool: seq<Tx>, coins: set<TxId>, txs: seq<Tx>, view: set<TxId>, tx: Tx)
    requires Chosen(pool, coins, txs, view)
    requires tx in pool && IsCandidate(tx) && tx.scriptsValid
    requires tx.id !in Ids(txs)
    requires HaveInputs(view, tx)
    ensures Chosen(pool, coins, txs + [tx], view + {tx.id})
  {
    ParentsFirstAppend(coins, txs, tx);
    IdsAppend(txs, tx);
    DistinctAppend(txs, tx);
  }

  /** A transaction whose id is new keeps the ids distinct. */
  lemma DistinctAppend(txs: seq<Tx>, tx: Tx)
    requires DistinctIds(txs) && tx.id !in Ids(txs)
    ensures DistinctIds(txs + [tx])
  {
    var s := txs + [tx];
    forall i, j | 0 <= i < j < |s| ensures s[i].id != s[j].id {
      if j == |txs| {
        assert s[i] == txs[i];
      }
    }
  }

  /** What is still to be considered: queued candidates of the pool, and
      the orphans as built (all candidates of the pool), each with its
      recorded parents shrinking as they are selected; nothing is queued
      twice and nothing selected comes back (`seen` holds every id taken
      off the queue). */
  ghost predicate Pending(pool: seq<Tx>, coins: set<TxId>, orphans0: seq<Orphan>,
                          queue: seq<Entry>, orphans: seq<Orphan>, txs: seq<Tx>, seen: set<TxId>)
  {
    (forall e :: e in queue ==> e.tx in pool && IsCandidate(e.tx)) &&
    (forall o :: 0 <= o < |orphans0| ==> orphans0[o].tx in pool && IsCandidate(orphans0[o].tx)) &&
    |orphans| == |orphans0| &&
    (forall o :: 0 <= o < |orphans| ==> orphans[o] == orphans0[o].(dependsOn := orphans[o].dependsOn)) &&
    OrphansTrackParents(coins, txs, orphans) &&
    Unique(queue, orphans, seen) &&
    Ids(txs) <= seen
  }

  /** Before the first round nothing is selected and nothing seen. */
  lemma PendingInit(pool: seq<Tx>, coins: set<TxId>)
    requires DistinctIds(pool)
    ensures Pending(pool, coins, InitialOrphans(pool, coins), InitialQueue(pool, coins),
                    InitialOrphans(pool, coins), [], {})
  {
    var orphans := InitialOrphans(pool, coins);
    InitialQueueMembers(pool, coins);
    InitialOrphansMembers(pool, coins);
    InitialDistinct(pool, coins);
    forall o | 0 <= o < |orphans| ensures orphans[o] == OrphanOf(coins, orphans[o].tx) {
      assert orphans[o] in orphans;
    }
  }

  /** Taking entry `k` off the queue and marking it seen keeps everything
      pending consistent. */
  lemma PendingPop(pool: seq<Tx>, coins: set<TxId>, orphans0: seq<Orphan>,
                   queue: seq<Entry>, orphans: seq<Orphan>, txs: seq<Tx>, seen: set<TxId>, k: nat)
    requires Pending(pool, coins, orphans0, queue, orphans, txs, seen)
    requires k < |queue|
    ensures Pending(pool, coins, orphans0, queue[..k] + queue[k + 1..], orphans, txs, seen + {queue[k].tx.id})
    ensures queue[k].tx in pool && IsCandidate(queue[k].tx) && queue[k].tx.id !in Ids(txs)
  {
    RemoveDistinct(queue, k);
    assert queue[k] in queue;
  }

  /** Appending a popped transaction keeps the orphans' record of pending
      parents valid, since parents only ever leave it by being selected. */
  lemma PendingAppend(pool: seq<Tx>, coins: set<TxId>, orphans0: seq<Orphan>,
                      queue: seq<Entry>, orphans: seq<Orphan>, txs: seq<Tx>, seen: set<TxId>, tx: Tx)
    requires Pending(pool, coins, orphans0, queue, orphans, txs, seen)
    requires tx.id in seen
    ensures Pending(pool, coins, orphans0, queue, orphans, txs + [tx], seen)
    ensures tx.id in Ids(txs + [tx])
  {
    IdsAppend(txs, tx);
  }

  /** After releasing the dependers of a selected transaction, everything
      pending is consistent again. */
  lemma PendingRelease(pool: seq<Tx>, coins: set<TxId>, orphans0: seq<Orphan>,
                       dependers: map<TxId, seq<nat>>, hash: TxId,
                       queue: seq<Entry>, orphans: seq<Orphan>, txs: seq<Tx>, seen: set<TxId>,
                       queue': seq<Entry>, orphans': seq<Orphan>)
    requires Pending(pool, coins, orphans0, queue, orphans, txs, seen)
    requires hash in dependers
    requires Forgotten(orphans, dependers[hash], hash, orphans')
    requires OrphansTrackParents(coins, txs, orphans')
    requires Unique(queue', orphans', seen)
    requires PushedReleased(queue, queue', orphans, dependers[hash], hash, coins + Ids(txs))
    ensures Pending(pool, coins, orphans0, queue', orphans', txs, seen)
  {
    forall e | e in queue' ensures e.tx in pool && IsCandidate(e.tx) {
      var k :| 0 <= k < |queue'| && queue'[k] == e;
      if k < |queue| {
        assert e == queue[k];
      } else {
        assert ReleasedFrom(orphans, dependers[hash], hash, e);
        var o :| 0 <= o < |orphans| && o in dependers[hash] && orphans[o].dependsOn == {hash} && e == Released(orphans[o]);
        assert orphans[o].tx == orphans0[o].tx;
      }
    }
  }

  /** The end of one round of the selection loop, for a transaction that
      passed every check: UpdateCoins, the append to the block, and the
      release of the orphans that waited only for it. Nothing pending is
      lost: the queue grows by exactly as many entries as orphans stop
      waiting. */
  method Admit(tx: Tx, d: Draft, view: set<TxId>, queue: seq<Entry>, orphans: seq<Orphan>,
               dependers: map<TxId, seq<nat>>,
               ghost pool: seq<Tx>, ghost coins: set<TxId>, ghost orphans0: seq<Orphan>, ghost seen: set<TxId>)
    returns (d': Draft, view': set<TxId>, queue': seq<Entry>, orphans': seq<Orphan>)
    requires Tally(d) && Chosen(pool, coins, d.txs, view)
    requires Pending(pool, coins, orphans0, queue, orphans, d.txs, seen)
    requires DependersIndex(orphans0, dependers)
    requires tx in pool && IsCandidate(tx) && tx.scriptsValid
    requires tx.id in seen && tx.id !in Ids(d.txs)
    requires HaveInputs(view, tx)
    ensures d' == Append(d, tx) && view' == view + {tx.id}
    ensures Tally(d') && Chosen(pool, coins, d'.txs, view')
    ensures Pending(pool, coins, orphans0, queue', orphans', d'.txs, seen)
    ensures |queue'| + Waiting(orphans') == |queue| + Waiting(orphans)
    ensures tx.id in dependers ==>
      Forgotten(orphans, dependers[tx.id], tx.id, orphans') &&
      PushedReleased(queue, queue', orphans, dependers[tx.id], tx.id, view')
    ensures tx.id !in dependers ==> queue' == queue && orphans' == orphans
  {
    TallyAppend(d, tx);
    ChosenAppend(pool, coins, d.txs, view, tx);
    PendingAppend(pool, coins, orphans0, queue, orphans, d.txs, seen, tx);
    view' := view + {tx.id};
    d' := Append(d, tx);
    queue', orphans' := queue, orphans;
    if tx.id in dependers {
      orphans', queue' := ReleaseDependers(tx.id, dependers[tx.id], orphans, queue, coins, d'.txs, seen);
      PendingRelease(pool, coins, orphans0, dependers, tx.id, queue, orphans, d'.txs, seen, queue', orphans');
    }
  }

  /** The comparator starts as fee order exactly when no space is reserved
      for high-priority transactions, and once it is fee order it stays so:
      `modes` lists the order each pop used, and the current order follows
      the last of them. */
  predicate OneWaySwitch(limits: Limits, sortedByFee: bool, modes: seq<bool>)
  {
    (|modes| > 0 ==> modes[0] == (limits.prioritySize == 0)) &&
    (|modes| == 0 ==> sortedByFee == (limits.prioritySize == 0)) &&
    (forall i, j :: 0 <= i < j < |modes| && modes[i] ==> modes[j]) &&
    (forall i :: 0 <= i < |modes| && modes[i] ==> sortedByFee)
  }

  /** The invariant of the selection loop. */
  ghost predicate Selecting(pool: seq<Tx>, coins: set<TxId>, orphans0: seq<Orphan>,
                            dependers: map<TxId, seq<nat>>, limits: Limits,
                            d: Draft, view: set<TxId>, queue: seq<Entry>, orphans: seq<Orphan>,
                            seen: set<TxId>, sortedByFee: bool, modes: seq<bool>)
  {
    DependersIndex(orphans0, dependers) &&
    Tally(d) &&
    (d.txs != [] ==> d.size < limits.maxSize && d.sigOpCount < MAX_BLOCK_SIGOPS) &&
    Chosen(pool, coins, d.txs, view) &&
    Pending(pool, coins, orphans0, queue, orphans, d.txs, seen) &&
    OneWaySwitch(limits, sortedByFee, modes)
  }

  /** The set-up before the selection loop: the block holds only its
      reserve, the coin view is the initial one, and the comparator is
      fee order exactly when no priority space is configured. */
  method StartSelection(ghost pool: seq<Tx>, queue0: seq<Entry>, orphans0: seq<Orphan>,
                        dependers: map<TxId, seq<nat>>, coins: set<TxId>, limits: Limits)
    returns (d: Draft, view: set<TxId>, queue: seq<Entry>, orphans: seq<Orphan>,
             ghost seen: set<TxId>, sortedByFee: bool, ghost modes: seq<bool>)
    requires DistinctIds(pool)
    requires queue0 == InitialQueue(pool, coins)
    requires orphans0 == InitialOrphans(pool, coins)
    requires DependersIndex(orphans0, dependers)
    ensures d == EmptyDraft && view == coins && queue == queue0 && orphans == orphans0
    ensures sortedByFee == (limits.prioritySize == 0) && modes == []
    ensures Selecting(pool, coins, orphans0, dependers, limits, d, view, queue, orphans, seen, sortedByFee, modes)
  {
    PendingInit(pool, coins);
    ChosenEmpty(pool, coins);
    TallyEmpty();
    d, view, queue, orphans := EmptyDraft, coins, queue0, orphans0;
    seen := {};
    sortedByFee := limits.prioritySize == 0;
    modes := [];
  }

  /** Taking entry `k` off the queue, and noting the order it was taken
      by, keeps the selection invariant. */
  lemma PopKeeps(pool: seq<Tx>, coins: set<TxId>, orphans0: seq<Orphan>,
                 dependers: map<TxId, seq<nat>>, limits: Limits,
                 d: Draft, view: set<TxId>, queue: seq<Entry>, orphans: seq<Orphan>,
                 seen: set<TxId>, sortedByFee: bool, modes: seq<bool>, k: nat)
    requires k < |queue|
    requires Selecting(pool, coins, orphans0, dependers, limits, d, view, queue, orphans, seen, sortedByFee, modes)
    ensures Selecting(pool, coins, orphans0, dependers, limits, d, view, queue[..k] + queue[k + 1..], orphans,
                      seen + {queue[k].tx.id}, sortedByFee, modes + [sortedByFee])
    ensures queue[k].tx in pool && IsCandidate(queue[k].tx) && queue[k].tx.id !in Ids(d.txs)
  {
    PendingPop(pool, coins, orphans0, queue, orphans, d.txs, seen, k);
  }

  /** Switching to fee order after at least one pop keeps the selection
      invariant. */
  lemma SwitchKeeps(pool: seq<Tx>, coins: set<TxId>, orphans0: seq<Orphan>,
                    dependers: map<TxId, seq<nat>>, limits: Limits,
                    d: Draft, view: set<TxId>, queue: seq<Entry>, orphans: seq<Orphan>,
                    seen: set<TxId>, modes: seq<bool>)
    requires modes != []
    requires Selecting(pool, coins, orphans0, dependers, limits, d, view, queue, orphans, seen, false, modes)
    ensures Selecting(pool, coins, orphans0, dependers, limits, d, view, queue, orphans, seen, true, modes)
  {
  }

  /** The checks a popped entry must pass before the comparator may switch:
      the block stays below the size and legacy signature-operation
      ceilings, and the entry is not skipped as free (in fee order, without
      a positive delta, below the relay fee rate, once the minimum size is
      met). */
  predicate PassesEarlyChecks(d: Draft, limits: Limits, minRelayFeeRate: int, sortedByFee: bool, e: Entry)
  {
    d.size + e.tx.size < limits.maxSize &&
    d.sigOpCount + e.tx.legacySigOps < MAX_BLOCK_SIGOPS &&
    !(sortedByFee && e.tx.priorityDelta <= 0 && e.tx.feeDelta <= 0 &&
      e.feeRate < minRelayFeeRate && d.size + e.tx.size >= limits.minSize)
  }

  /** The popped entry is appended: it passes the early checks, the coin
      view holds its inputs, its full signature-operation count stays below
      the ceiling, and its scripts pass. */
  predicate Accepts(d: Draft, view: set<TxId>, limits: Limits, minRelayFeeRate: int, sortedByFee: bool, e: Entry)
  {
    PassesEarlyChecks(d, limits, minRelayFeeRate, sortedByFee, e) &&
    HaveInputs(view, e.tx) &&
    d.sigOpCount + TxSigOps(e.tx) < MAX_BLOCK_SIGOPS &&
    e.tx.scriptsValid
  }

  /** The order after a round: fee order stays; priority order becomes fee
      order when the popped entry passed the early checks and either
      reaches the priority size or may not be free. */
  predicate OrderAfter(d: Draft, limits: Limits, minRelayFeeRate: int, sortedByFee: bool, e: Entry)
  {
    sortedByFee ||
    (PassesEarlyChecks(d, limits, minRelayFeeRate, sortedByFee, e) &&
     (d.size + e.tx.size >= limits.prioritySize || !AllowFree(e.priority)))
  }

  /** The state the selection loop carries from round to round. */
  datatype SelectionState = SelectionState(d: Draft, view: set<TxId>, queue: seq<Entry>,
                                           orphans: seq<Orphan>, sortedByFee: bool)

  /** One round: the state before, the entry taken off the queue, the queue
      without it, and the state after. */
  datatype Round = Round(before: SelectionState, popped: Entry, rest: seq<Entry>, after: SelectionState)

  /** An accepted transaction `tx` is appended to the block and joins the
      view, and the orphans listed under it are released: each forgets it,
      and exactly those left waiting for nothing are pushed after `rest`,
      each once (the queue stays free of repeats). */
  ghost predicate Appended(dependers: map<TxId, seq<nat>>, d: Draft, view: set<TxId>, rest: seq<Entry>,
                           orphans: seq<Orphan>, tx: Tx,
                           d': Draft, view': set<TxId>, queue': seq<Entry>, orphans': seq<Orphan>)
  {
    d' == Append(d, tx) && view' == view + {tx.id} &&
    |queue'| - |rest| + Waiting(orphans') == Waiting(orphans) &&
    DistinctEntries(queue') &&
    (tx.id in dependers ==>
       Forgotten(orphans, dependers[tx.id], tx.id, orphans') &&
       PushedReleased(rest, queue', orphans, dependers[tx.id], tx.id, view')) &&
    (tx.id !in dependers ==> queue' == rest && orphans' == orphans)
  }

  /** What a round does with the popped entry `e`, once `rest` is left on
      the queue: the order becomes OrderAfter; an accepted entry is
      Appended; a rejected entry leaves everything else as it was. */
  ghost predicate Outcome(dependers: map<TxId, seq<nat>>, limits: Limits, minRelayFeeRate: int,
                          d: Draft, view: set<TxId>, orphans: seq<Orphan>, sortedByFee: bool,
                          e: Entry, rest: seq<Entry>, s': SelectionState)
  {
    s'.sortedByFee == OrderAfter(d, limits, minRelayFeeRate, sortedByFee, e) &&
    if Accepts(d, view, limits, minRelayFeeRate, sortedByFee, e) then
      Appended(dependers, d, view, rest, orphans, e.tx, s'.d, s'.view, s'.queue, s'.orphans)
    else
      s'.d == d && s'.view == view && s'.queue == rest && s'.orphans == orphans
  }

  /** What a round does: it takes off the queue one entry that no queued
      entry beats in the current order, then the Outcome. */
  ghost predicate RoundTaken(dependers: map<TxId, seq<nat>>, limits: Limits, minRelayFeeRate: int, r: Round)
  {
    var s := r.before;
    IsBest(s.sortedByFee, s.queue, r.popped) &&
    multiset(r.rest) + multiset{r.popped} == multiset(s.queue) &&
    Outcome(dependers, limits, minRelayFeeRate, s.d, s.view, s.orphans, s.sortedByFee, r.popped, r.rest, r.after)
  }

  /** The checks after the comparator switch, for an entry `e` that passed
      the early checks in order `sortedByFee` and left the order
      `sortedByFee'`: the coin view must hold the inputs, the full
      signature-operation count (legacy plus P2SH) must stay below the
      ceiling, and the scripts must pass; then the transaction is
      admitted. */
  method CheckAndAdmit(ghost pool: seq<Tx>, ghost coins: set<TxId>, ghost orphans0: seq<Orphan>,
                       dependers: map<TxId, seq<nat>>, limits: Limits, ghost minRelayFeeRate: int,
                       d: Draft, view: set<TxId>, rest: seq<Entry>, orphans: seq<Orphan>,
                       ghost seen: set<TxId>, ghost sortedByFee: bool, sortedByFee': bool,
                       ghost modes: seq<bool>, e: Entry)
    returns (d': Draft, view': set<TxId>, queue': seq<Entry>, orphans': seq<Orphan>)
    requires Selecting(pool, coins, orphans0, dependers, limits, d, view, rest, orphans, seen, sortedByFee', modes)
    requires e.tx in pool && IsCandidate(e.tx) && e.tx.id in seen && e.tx.id !in Ids(d.txs)
    requires PassesEarlyChecks(d, limits, minRelayFeeRate, sortedByFee, e)
    requires sortedByFee' == OrderAfter(d, limits, minRelayFeeRate, sortedByFee, e)
    ensures Selecting(pool, coins, orphans0, dependers, limits, d', view', queue', orphans', seen, sortedByFee', modes)
    ensures Outcome(dependers, limits, minRelayFeeRate, d, view, orphans, sortedByFee, e, rest,
                    SelectionState(d', view', queue', orphans', sortedByFee'))
  {
    d', view', queue', orphans' := d, view, rest, orphans;
    var tx := e.tx;
    if !HaveInputs(view, tx) {
      return;
    }
    var txSigOps := tx.legacySigOps + tx.p2shSigOps;
    if d.sigOpCount + txSigOps >= MAX_BLOCK_SIGOPS {
      return;
    }
    if !tx.scriptsValid {
      return;
    }
    d', view', queue', orphans' := Admit(tx, d, view, rest, orphans, dependers, pool, coins, orphans0, seen);
    assert Unique(queue', orphans', seen);
    assert Appended(dependers, d, view, rest, orphans, tx, d', view', queue', orphans');
  }

  /** The checks of one round on the popped entry `e`, in the source's
      order: the size and legacy signature-operation ceilings, the free
      transaction skip, then the switch to fee order once the priority
      space is used up or the entry's priority no longer allows it to be
      free, then the inputs, the full signature-operation count and the
      scripts. An entry that passes them all is admitted. */
  method TryAppend(ghost pool: seq<Tx>, ghost coins: set<TxId>, ghost orphans0: seq<Orphan>,
                   dependers: map<TxId, seq<nat>>, limits: Limits, minRelayFeeRate: int,
                   d: Draft, view: set<TxId>, rest: seq<Entry>, orphans: seq<Orphan>,
                   ghost seen: set<TxId>, sortedByFee: bool, ghost modes: seq<bool>, e: Entry)
    returns (d': Draft, view': set<TxId>, queue': seq<Entry>, orphans': seq<Orphan>, sortedByFee': bool)
    requires modes != []
    requires Selecting(pool, coins, orphans0, dependers, limits, d, view, rest, orphans, seen, sortedByFee, modes)
    requires e.tx in pool && IsCandidate(e.tx) && e.tx.id in seen && e.tx.id !in Ids(d.txs)
    ensures Selecting(pool, coins, orphans0, dependers, limits, d', view', queue', orphans', seen, sortedByFee', modes)
    ensures Outcome(dependers, limits, minRelayFeeRate, d, view, orphans, sortedByFee, e, rest,
                    SelectionState(d', view', queue', orphans', sortedByFee'))
  {
    d', view', queue', orphans', sortedByFee' := d, view, rest, orphans, sortedByFee;
    var tx := e.tx;
    // Each failed check skips the entry: the size limit, the legacy limit
    // on signature operations, and free transactions once past the
    // minimum block size.
    if d.size + tx.size < limits.maxSize &&
       d.sigOpCount + tx.legacySigOps < MAX_BLOCK_SIGOPS &&
       !(sortedByFee && tx.priorityDelta <= 0 && tx.feeDelta <= 0 &&
         e.feeRate < minRelayFeeRate && d.size + tx.size >= limits.minSize)
    {
      // Order by fee once past the priority size or out of high-priority
      // transactions; rebuilding the heap leaves its contents as they are.
      if !sortedByFee && (d.size + tx.size >= limits.prioritySize || !AllowFree(e.priority)) {
        SwitchKeeps(pool, coins, orphans0, dependers, limits, d, view, rest, orphans, seen, modes);
        sortedByFee' := true;
      }
      d', view', queue', orphans' :=
        CheckAndAdmit(pool, coins, orphans0, dependers, limits, minRelayFeeRate,
                      d, view, rest, orphans, seen, sortedByFee, sortedByFee', modes, e);
    }
  }

  /** One round of the selection loop: the best entry in the current order
      is taken off the queue, then TryAppend. Each round takes one entry
      off the queue for good, so the queue plus the orphans still waiting
      shrinks; `modes` records the order the pop used. */
  method SelectRound(ghost pool: seq<Tx>, ghost coins: set<TxId>, ghost orphans0: seq<Orphan>,
                     dependers: map<TxId, seq<nat>>, limits: Limits, minRelayFeeRate: int,
                     d: Draft, view: set<TxId>, queue: seq<Entry>, orphans: seq<Orphan>,
                     ghost seen: set<TxId>, sortedByFee: bool, ghost modes: seq<bool>)
    returns (d': Draft, view': set<TxId>, queue': seq<Entry>, orphans': seq<Orphan>,
             ghost seen': set<TxId>, sortedByFee': bool, ghost modes': seq<bool>, ghost round: Round)
    requires queue != []
    requires Selecting(pool, coins, orphans0, dependers, limits, d, view, queue, orphans, seen, sortedByFee, modes)
    ensures Selecting(pool, coins, orphans0, dependers, limits, d', view', queue', orphans', seen', sortedByFee', modes')
    ensures |queue'| + Waiting(orphans') < |queue| + Waiting(orphans)
    ensures modes' == modes + [sortedByFee]
    ensures round.before == SelectionState(d, view, queue, orphans, sortedByFee)
    ensures round.after == SelectionState(d', view', queue', orphans', sortedByFee')
    ensures RoundTaken(dependers, limits, minRelayFeeRate, round)
  {
    // Take the best entry off the queue.
    var e, rest := PopBest(sortedByFee, queue);
    ghost var k :| 0 <= k < |queue| && e == queue[k] && rest == queue[..k] + queue[k + 1..];
    PopKeeps(pool, coins, orphans0, dependers, limits, d, view, queue, orphans, seen, sortedByFee, modes, k);
    seen', modes' := seen + {e.tx.id}, modes + [sortedByFee];
    d', view', queue', orphans', sortedByFee' :=
      TryAppend(pool, coins, orphans0, dependers, limits, minRelayFeeRate,
                d, view, rest, orphans, seen', sortedByFee, modes', e);
    round := Round(SelectionState(d, view, queue, orphans, sortedByFee), e, rest,
                   SelectionState(d', view', queue', orphans', sortedByFee'));
  }

  /** The rounds `rounds` run one after the other from `start` and leave
      `finish`. */
  ghost predicate Trace(dependers: map<TxId, seq<nat>>, limits: Limits, minRelayFeeRate: int,
                        start: SelectionState, rounds: seq<Round>, finish: SelectionState)
  {
    (rounds == [] ==> finish == start) &&
    (rounds != [] ==> rounds[0].before == start && rounds[|rounds| - 1].after == finish) &&
    (forall i :: 0 <= i < |rounds| ==> RoundTaken(dependers, limits, minRelayFeeRate, rounds[i])) &&
    (forall i :: 1 <= i < |rounds| ==> rounds[i - 1].after == rounds[i].before)
  }

  lemma TraceAppend(dependers: map<TxId, seq<nat>>, limits: Limits, minRelayFeeRate: int,
                    start: SelectionState, rounds: seq<Round>, finish: SelectionState, r: Round)
    requires Trace(dependers, limits, minRelayFeeRate, start, rounds, finish)
    requires r.before == finish && RoundTaken(dependers, limits, minRelayFeeRate, r)
    ensures Trace(dependers, limits, minRelayFeeRate, start, rounds + [r], r.after)
  {
    var rs := rounds + [r];
    forall i | 0 <= i < |rs| ensures RoundTaken(dependers, limits, minRelayFeeRate, rs[i]) {
      if i < |rounds| {
        assert rs[i] == rounds[i];
      }
    }
    forall i | 1 <= i < |rs| ensures rs[i - 1].after == rs[i].before {
      if i < |rounds| {
        assert rs[i - 1] == rounds[i - 1] && rs[i] == rounds[i];
      }
    }
  }

  /** Recording one more round keeps `modes` the order each round popped by. */
  lemma ModesFollowRounds(modes: seq<bool>, rounds: seq<Round>, r: Round)
    requires |modes| == |rounds| && forall i :: 0 <= i < |rounds| ==> modes[i] == rounds[i].before.sortedByFee
    ensures var modes', rounds' := modes + [r.before.sortedByFee], rounds + [r];
      |modes'| == |rounds'| && forall i :: 0 <= i < |rounds'| ==> modes'[i] == rounds'[i].before.sortedByFee
  {
  }

  /** The state the selection loop starts from. */
  function StartState(coins: set<TxId>, queue0: seq<Entry>, orphans0: seq<Orphan>, limits: Limits): SelectionState
  {
    SelectionState(EmptyDraft, coins, queue0, orphans0, limits.prioritySize == 0)
  }

  /** The selection loop of CreateNewBlock: rounds until the queue is
      empty. The result is the block left by a run of rounds, each taking
      the best entry and appending it exactly when it passes the checks
      (RoundTaken); `modes` is the order each round popped by. The block
      starts at 1000 bytes and 100 signature operations for the header and
      coinbase, and ends below both ceilings with distinct candidates of
      the pool whose scripts pass, each after the pool parents it spends. */
  method SelectTransactions(ghost pool: seq<Tx>, queue0: seq<Entry>, orphans0: seq<Orphan>,
                            dependers: map<TxId, seq<nat>>, coins: set<TxId>,
                            limits: Limits, minRelayFeeRate: int)
    returns (d: Draft, ghost modes: seq<bool>, ghost rounds: seq<Round>, ghost finish: SelectionState)
    requires DistinctIds(pool)
    requires queue0 == InitialQueue(pool, coins)
    requires orphans0 == InitialOrphans(pool, coins)
    requires DependersIndex(orphans0, dependers)
    ensures Trace(dependers, limits, minRelayFeeRate, StartState(coins, queue0, orphans0, limits), rounds, finish)
    ensures finish.queue == [] && finish.d == d
    ensures |modes| == |rounds| && forall i :: 0 <= i < |rounds| ==> modes[i] == rounds[i].before.sortedByFee
    ensures d == DraftOf(d.txs)
    ensures d.txs != [] ==> d.size < limits.maxSize && d.sigOpCount < MAX_BLOCK_SIGOPS
    ensures Chosen(pool, coins, d.txs, coins + Ids(d.txs))
    ensures |modes| > 0 ==> modes[0] == (limits.prioritySize == 0)
    ensures forall i, j :: 0 <= i < j < |modes| && modes[i] ==> modes[j]
  {
    var view, queue, orphans, sortedByFee;
    ghost var seen;
    d, view, queue, orphans, seen, sortedByFee, modes := StartSelection(pool, queue0, orphans0, dependers, coins, limits);
    rounds := [];
    finish := StartState(coins, queue0, orphans0, limits);
    while queue != []
      invariant Selecting(pool, coins, orphans0, dependers, limits, d, view, queue, orphans, seen, sortedByFee, modes)
      invariant finish == SelectionState(d, view, queue, orphans, sortedByFee)
      invariant Trace(dependers, limits, minRelayFeeRate, StartState(coins, queue0, orphans0, limits), rounds, finish)
      invariant |modes| == |rounds| && forall i :: 0 <= i < |rounds| ==> modes[i] == rounds[i].before.sortedByFee
      decreases |queue| + Waiting(orphans)
    {
      ghost var r;
      ghost var modes0 := modes;
      d, view, queue, orphans, seen, sortedByFee, modes, r :=
        SelectRound(pool, coins, orphans0, dependers, limits, minRelayFeeRate,
                    d, view, queue, orphans, seen, sortedByFee, modes);
      TraceAppend(dependers, limits, minRelayFeeRate, StartState(coins, queue0, orphans0, limits), rounds, finish, r);
      ModesFollowRounds(modes0, rounds, r);
      rounds := rounds + [r];
      finish := r.after;
    }
  }

  /** The entry a round pops has the top key of the queue it was popped
      from: in fee order no queued entry has a higher fee rate, in priority
      order none has a higher priority. */
  lemma PoppedHasTopKey(dependers: map<TxId, seq<nat>>, limits: Limits, minRelayFeeRate: int, r: Round)
    requires RoundTaken(dependers, limits, minRelayFeeRate, r)
    ensures r.popped in r.before.queue
    ensures r.before.sortedByFee ==> forall x :: x in r.before.queue ==> x.feeRate <= r.popped.feeRate
    ensures !r.before.sortedByFee ==> forall x :: x in r.before.queue ==> x.priority <= r.popped.priority
  {
  }

  /** Once a round leaves fee order in force, every later round pops by
      fee: the switch from priority order never goes back. */
  lemma {:induction false} FeeOrderStays(dependers: map<TxId, seq<nat>>, limits: Limits, minRelayFeeRate: int,
                                         start: SelectionState, rounds: seq<Round>, finish: SelectionState,
                                         i: nat, j: nat)
    requires Trace(dependers, limits, minRelayFeeRate, start, rounds, finish)
    requires i <= j < |rounds| && rounds[i].before.sortedByFee
    ensures rounds[j].before.sortedByFee
    decreases j
  {
    if i < j {
      FeeOrderStays(dependers, limits, minRelayFeeRate, start, rounds, finish, i, j - 1);
      assert RoundTaken(dependers, limits, minRelayFeeRate, rounds[j - 1]);
      assert rounds[j - 1].after == rounds[j].before;
    }
  }

  /** A round with no orphans waiting on anything that accepts its entry
      appends it and leaves the rest of the queue. */
  lemma AcceptedRound(limits: Limits, minRelayFeeRate: int, r: Round)
    requires RoundTaken(map[], limits, minRelayFeeRate, r)
    requires Accepts(r.before.d, r.before.view, limits, minRelayFeeRate, r.before.sortedByFee, r.popped)
    ensures r.after.d == Append(r.before.d, r.popped.tx) && r.after.view == r.before.view + {r.popped.tx.id}
    ensures r.after.queue == r.rest && r.after.orphans == r.before.orphans
    ensures r.before.sortedByFee ==> r.after.sortedByFee
  {
  }

  /** From a queue of two entries in fee order, a round pops the one with
      the higher fee rate and leaves the other. */
  lemma PopOfTwo(dependers: map<TxId, seq<nat>>, limits: Limits, minRelayFeeRate: int, r: Round, a: Entry, b: Entry)
    requires RoundTaken(dependers, limits, minRelayFeeRate, r)
    requires r.before.queue == [a, b] && r.before.sortedByFee && a.feeRate < b.feeRate
    ensures r.popped == b && r.rest == [a]
  {
    assert r.popped == b by {
      if r.popped != b {
        assert Less(true, a, b);
      }
    }
    assert |r.rest| == 1;
    assert r.rest[0] in multiset(r.rest);
  }

  /** Every round of a run pops from a non-empty queue, so every round but
      the last leaves a non-empty one. */
  lemma TraceQueuesNonEmpty(dependers: map<TxId, seq<nat>>, limits: Limits, minRelayFeeRate: int,
                            start: SelectionState, rounds: seq<Round>, finish: SelectionState)
    requires Trace(dependers, limits, minRelayFeeRate, start, rounds, finish)
    ensures forall j :: 0 <= j < |rounds| ==> rounds[j].before.queue != []
    ensures forall j :: 0 <= j < |rounds| - 1 ==> rounds[j].after.queue != []
  {
    forall j | 0 <= j < |rounds| - 1
      ensures rounds[j].after.queue != []
    {
      assert rounds[j].after == rounds[j + 1].before;
      assert RoundTaken(dependers, limits, minRelayFeeRate, rounds[j + 1]);
    }
  }

  /** A round that leaves the queue empty is the last of its run. */
  lemma EmptyQueueEndsTrace(dependers: map<TxId, seq<nat>>, limits: Limits, minRelayFeeRate: int,
                            start: SelectionState, rounds: seq<Round>, finish: SelectionState, i: nat)
    requires Trace(dependers, limits, minRelayFeeRate, start, rounds, finish)
    requires i < |rounds| && rounds[i].after.queue == []
    ensures |rounds| == i + 1
  {
    TraceQueuesNonEmpty(dependers, limits, minRelayFeeRate, start, rounds, finish);
  }

  /** Two fee-paying transactions that both fit, in fee order with no
      orphans waiting: the run empties the queue in two rounds and the block
      takes the higher fee rate first, whatever order they were queued in. */
  lemma HigherFeeRateFirst(limits: Limits, minRelayFeeRate: int, view: set<TxId>, orphans: seq<Orphan>,
                           a: Entry, b: Entry, rounds: seq<Round>, finish: SelectionState)
    requires a.feeRate < b.feeRate && minRelayFeeRate <= a.feeRate
    requires HaveInputs(view, a.tx) && HaveInputs(view, b.tx) && a.tx.scriptsValid && b.tx.scriptsValid
    requires EmptyDraft.size + b.tx.size + a.tx.size < limits.maxSize
    requires EmptyDraft.sigOpCount + TxSigOps(b.tx) + TxSigOps(a.tx) < MAX_BLOCK_SIGOPS
    requires Trace(map[], limits, minRelayFeeRate, SelectionState(EmptyDraft, view, [a, b], orphans, true),
                   rounds, finish)
    requires finish.queue == []
    ensures |rounds| == 2 && rounds[0].popped == b && rounds[1].popped == a
    ensures finish.d == Append(Append(EmptyDraft, b.tx), a.tx) && finish.d.txs == [b.tx, a.tx]
  {
    assert rounds != [];
    var r0 := rounds[0];
    assert RoundTaken(map[], limits, minRelayFeeRate, r0);
    PopOfTwo(map[], limits, minRelayFeeRate, r0, a, b);
    AcceptedRound(limits, minRelayFeeRate, r0);
    var mid := r0.after;
    assert |rounds| > 1;
    var r1 := rounds[1];
    assert RoundTaken(map[], limits, minRelayFeeRate, r1);
    assert r1.before == mid && r1.popped == a && r1.rest == [];
    assert HaveInputs(mid.view, a.tx);
    AcceptedRound(limits, minRelayFeeRate, r1);
    EmptyQueueEndsTrace(map[], limits, minRelayFeeRate, SelectionState(EmptyDraft, view, [a, b], orphans, true),
                        rounds, finish, 1);
  }
}
