/** TxPriorityCompare: the two-mode ordering of queued candidates. A queue
    entry is the (priority, fee rate, transaction) triple; the comparator is
    a "less than" under which the queue's front is a greatest entry. */
module TxPriorityCompare {
  import opened MinerTypes

  /** One queued candidate (the source's TxPriority tuple). */
  datatype Entry = Entry(priority: int, feeRate: int, tx: Tx)

  /** The comparator. In fee mode fee rate decides and priority breaks ties;
      in priority mode priority decides and fee rate breaks ties. */
  predicate Less(byFee: bool, a: Entry, b: Entry)
    ensures Less(byFee, a, b) ==> (if byFee then a.feeRate <= b.feeRate else a.priority <= b.priority)
    ensures (if byFee then a.feeRate < b.feeRate else a.priority < b.priority) ==> Less(byFee, a, b)
  {
    if byFee then
      if a.feeRate == b.feeRate then a.priority < b.priority else a.feeRate < b.feeRate
    else
      if a.priority == b.priority then a.feeRate < b.feeRate else a.priority < b.priority
  }

  /** Strict lexicographic order on pairs, an independent reference. */
  predicate LexLess(major1: int, minor1: int, major2: int, minor2: int)
  {
    major1 < major2 || (major1 == major2 && minor1 < minor2)
  }

  /** The sort key the comparator looks at; the transaction itself never
      takes part in the comparison. */
  function Key(byFee: bool, e: Entry): (int, int)
  {
    if byFee then (e.feeRate, e.priority) else (e.priority, e.feeRate)
  }

  /** Fee mode is the lexicographic order on (fee rate, priority) and
      priority mode the lexicographic order on (priority, fee rate). */
  lemma LessIsLexicographic(byFee: bool, a: Entry, b: Entry)
    ensures Less(byFee, a, b) <==>
      LexLess(Key(byFee, a).0, Key(byFee, a).1, Key(byFee, b).0, Key(byFee, b).1)
  {
  }

  /** No entry sorts below itself, in either mode. */
  lemma Irreflexive(byFee: bool, a: Entry)
    ensures !Less(byFee, a, a)
  {
  }

  /** Two entries never sort below each other. */
  lemma Asymmetric(byFee: bool, a: Entry, b: Entry)
    ensures Less(byFee, a, b) ==> !Less(byFee, b, a)
  {
  }

  lemma Transitive(byFee: bool, a: Entry, b: Entry, c: Entry)
    ensures Less(byFee, a, b) && Less(byFee, b, c) ==> Less(byFee, a, c)
  {
  }

  /** Entries whose keys differ are always ordered one way or the other;
      entries with equal keys are incomparable. */
  lemma TotalOnKeys(byFee: bool, a: Entry, b: Entry)
    ensures Key(byFee, a) != Key(byFee, b) <==> Less(byFee, a, b) || Less(byFee, b, a)
  {
  }

  /** Fee mode: equal fee rates are ordered by priority, otherwise the lower
      fee rate sorts lower. */
  lemma FeeModeTieBreak(a: Entry, b: Entry)
    ensures a.feeRate == b.feeRate ==> (Less(true, a, b) <==> a.priority < b.priority)
    ensures a.feeRate != b.feeRate ==> (Less(true, a, b) <==> a.feeRate < b.feeRate)
  {
  }

  /** Priority mode: equal priorities are ordered by fee rate, otherwise the
      lower priority sorts lower. */
  lemma PriorityModeTieBreak(a: Entry, b: Entry)
    ensures a.priority == b.priority ==> (Less(false, a, b) <==> a.feeRate < b.feeRate)
    ensures a.priority != b.priority ==> (Less(false, a, b) <==> a.priority < b.priority)
  {
  }

  /** An entry no queued entry sorts above: what pop_heap takes off the
      front of a heap ordered by the comparator. */
  predicate IsBest(byFee: bool, queue: seq<Entry>, e: Entry)
  {
    e in queue && forall x :: x in queue ==> !Less(byFee, e, x)
  }

  /** A best entry has the greatest key of the queue, so any two best
      entries agree on priority and fee rate. */
  lemma BestKeyUnique(byFee: bool, queue: seq<Entry>, e1: Entry, e2: Entry)
    requires IsBest(byFee, queue, e1) && IsBest(byFee, queue, e2)
    ensures e1.priority == e2.priority && e1.feeRate == e2.feeRate
  {
    TotalOnKeys(byFee, e1, e2);
  }

  /** Index of a best entry of a non-empty queue: the first entry, in queue
      order, that no later entry beats. */
  method FindBest(byFee: bool, queue: seq<Entry>) returns (k: nat)
    requires |queue| > 0
    ensures k < |queue|
    ensures IsBest(byFee, queue, queue[k])
  {
    k := 0;
    var i := 1;
    while i < |queue|
      invariant 0 <= k < i <= |queue|
      invariant forall j :: 0 <= j < i ==> !Less(byFee, queue[k], queue[j])
    {
      if Less(byFee, queue[k], queue[i]) {
        forall j | 0 <= j < i
          ensures !Less(byFee, queue[i], queue[j])
        {
          Transitive(byFee, queue[k], queue[i], queue[j]);
          TotalOnKeys(byFee, queue[k], queue[j]);
          TotalOnKeys(byFee, queue[i], queue[j]);
        }
        k := i;
      }
      i := i + 1;
    }
  }

  /** pop_heap followed by pop_back: take a best entry off the queue. */
  method PopBest(byFee: bool, queue: seq<Entry>) returns (e: Entry, rest: seq<Entry>)
    requires |queue| > 0
    ensures IsBest(byFee, queue, e)
    ensures exists k :: 0 <= k < |queue| && e == queue[k] && rest == queue[..k] + queue[k + 1..]
    ensures multiset(rest) + multiset{e} == multiset(queue)
  {
    var k := FindBest(byFee, queue);
    e := queue[k];
    rest := queue[..k] + queue[k + 1..];
    assert queue == queue[..k] + [e] + queue[k + 1..];
  }
}
