/** The dashboard's views of the quest list: the open quests it offers (at
    most four), the completed count, the recent clear log (at most five) and
    when the empty-state messages appear. */
module Dashboard {
  import opened Types
  import Seqs

  function Open(qs: seq<Quest>): seq<Quest> {
    Seqs.Filter(qs, (q: Quest) => !q.completed)
  }

  function Done(qs: seq<Quest>): seq<Quest> {
    Seqs.Filter(qs, (q: Quest) => q.completed)
  }

  /** `quests.filter(q => !q.completed).slice(0, 4)`: the first open quests,
      at most four, in list order. */
  function ActiveQuests(qs: seq<Quest>): (r: seq<Quest>)
    ensures |r| <= 4 && r <= Open(qs)
    ensures |r| == (if |Open(qs)| <= 4 then |Open(qs)| else 4)
    ensures forall q :: q in r ==> q in qs && !q.completed
  {
    Seqs.Take(Open(qs), 4)
  }

  /** `quests.filter(q => q.completed).length`. */
  function CompletedCount(qs: seq<Quest>): nat {
    |Done(qs)|
  }

  /** The recent clears: the first completed quests, at most five, in list order. */
  function RecentLogs(qs: seq<Quest>): (r: seq<Quest>)
    ensures |r| <= 5 && r <= Done(qs)
    ensures |r| == (if CompletedCount(qs) <= 5 then CompletedCount(qs) else 5)
    ensures forall q :: q in r ==> q in qs && q.completed
  {
    Seqs.Take(Done(qs), 5)
  }

  /** Every quest is either open or completed: the two counts add up to the list. */
  lemma {:induction false} Partition(qs: seq<Quest>)
    ensures |Open(qs)| + CompletedCount(qs) == |qs|
  {
    if qs != [] {
      Partition(qs[1..]);
    }
  }

  /** "All missions cleared" shows exactly when no quest is open, and "no
      system logs" exactly when none is completed; the two never show
      together on a non-empty list. */
  lemma EmptyStates(qs: seq<Quest>)
    ensures |ActiveQuests(qs)| == 0 <==> forall i :: 0 <= i < |qs| ==> qs[i].completed
    ensures CompletedCount(qs) == 0 <==> forall i :: 0 <= i < |qs| ==> !qs[i].completed
    ensures qs != [] ==> |ActiveQuests(qs)| > 0 || CompletedCount(qs) > 0
  {
    if exists i :: 0 <= i < |qs| && !qs[i].completed {
      var i :| 0 <= i < |qs| && !qs[i].completed;
      assert qs[i] in Open(qs);
    }
    if exists i :: 0 <= i < |qs| && qs[i].completed {
      var i :| 0 <= i < |qs| && qs[i].completed;
      assert qs[i] in Done(qs);
    }
    if |Open(qs)| > 0 {
      assert Open(qs)[0] in Open(qs);
    }
    if |Done(qs)| > 0 {
      assert Done(qs)[0] in Done(qs);
    }
    Partition(qs);
  }
}
