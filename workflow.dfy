/** The closed enumerations of the task workflow and their fixed presentation tokens
    (the switch statements of Task.swift, in both revisions, and of TaskEntryModel.swift). */
module Workflow {

  datatype Status = Backlog | Doing | Review | Done

  datatype Priority = None | Low | Medium | High

  /** `Status.allCases`, in declaration order. */
  const AllStatuses: seq<Status> := [Backlog, Doing, Review, Done]

  /** `Priority.allCases`, in declaration order. */
  const AllPriorities: seq<Priority> := [None, Low, Medium, High]

  /** The SwiftUI colours the priority lookups return. */
  datatype NamedColor = Gray | Green | Yellow | Red

  /** Position of a status in the workflow (its index in `AllStatuses`). */
  function Rank(s: Status): (r: nat)
    ensures r < |AllStatuses| && AllStatuses[r] == s
  {
    match s
    case Backlog => 0
    case Doing => 1
    case Review => 2
    case Done => 3
  }

  /** `Task.updateStatus` of the current revision: one stage forward, and Done falls back to Review. */
  function NextStatus(s: Status): (r: Status)
    ensures r != Backlog
    ensures s != Done ==> Rank(r) == Rank(s) + 1
    ensures s == Done ==> Rank(r) == Rank(s) - 1
  {
    match s
    case Backlog => Doing
    case Doing => Review
    case Review => Done
    case Done => Review
  }

  /** `Task.updateStatus` of the older revision: Doing skips Review, Done goes to Review,
      and Review stays where it is. */
  function LegacyNextStatus(s: Status): (r: Status)
    ensures r != Backlog
    ensures r == s <==> s == Review
    ensures s == Backlog ==> r == Doing
    ensures s == Doing ==> r == Done
    ensures s == Done ==> r == Review
  {
    match s
    case Backlog => Doing
    case Doing => Done
    case Done => Review
    case Review => Review
  }

  /** `n` successive calls of the current `updateStatus`. */
  function Advance(s: Status, n: nat): Status
  {
    if n == 0 then s else NextStatus(Advance(s, n - 1))
  }

  /** `n` successive calls of the older `updateStatus`. */
  function LegacyAdvance(s: Status, n: nat): Status
  {
    if n == 0 then s else LegacyNextStatus(LegacyAdvance(s, n - 1))
  }

  /** Once a task has been advanced it can never be back in the Backlog. */
  lemma {:induction false} AdvanceNeverBacklog(s: Status, n: nat)
    requires n >= 1
    ensures Advance(s, n) != Backlog
  {
  }

  /** From Done the current cycle alternates: even step counts are Done, odd ones Review. */
  lemma {:induction false} AdvanceFromDone(n: nat)
    ensures Advance(Done, n) == if n % 2 == 0 then Done else Review
  {
    if n > 0 {
      AdvanceFromDone(n - 1);
    }
  }

  /** A new task (status Backlog) needs exactly three advances to reach Done. */
  lemma BacklogReachesDoneInThree()
    ensures Advance(Backlog, 3) == Done
    ensures forall k :: 0 <= k < 3 ==> Advance(Backlog, k) != Done
  {
    assert Advance(Backlog, 1) == Doing;
    assert Advance(Backlog, 2) == Review;
  }

  /** Every status reaches Done under the current cycle within three advances. */
  lemma {:induction false} AdvanceReachesDone(s: Status)
    ensures Advance(s, 3 - Rank(s)) == Done
  {
    match s
    case Backlog => BacklogReachesDoneInThree();
    case Doing => assert Advance(Doing, 1) == Review;
    case Review => assert Advance(Review, 1) == Done;
    case Done =>
  }

  /** Under the older cycle every status ends at Review after at most three advances and stays there. */
  lemma {:induction false} LegacyAdvanceReachesReview(s: Status, n: nat)
    requires n >= 3
    ensures LegacyAdvance(s, n) == Review
  {
    if n == 3 {
      assert LegacyAdvance(s, 1) == LegacyNextStatus(s);
      assert LegacyAdvance(s, 2) == LegacyNextStatus(LegacyNextStatus(s));
    } else {
      LegacyAdvanceReachesReview(s, n - 1);
    }
  }

  /** The two revisions agree on Backlog and Done and disagree on Doing and Review. */
  lemma RevisionsDiffer(s: Status)
    ensures NextStatus(s) == LegacyNextStatus(s) <==> s == Backlog || s == Done
  {
  }

  /** `getPriorityColor`. */
  function PriorityColor(p: Priority): NamedColor
  {
    match p
    case None => Gray
    case Low => Green
    case Medium => Yellow
    case High => Red
  }

  /** `getPriorityImage`: an SF Symbols name. */
  function PriorityImage(p: Priority): string
  {
    match p
    case None => "checkmark"
    case Low => "exclamationmark"
    case Medium => "exclamationmark.2"
    case High => "exclamationmark.3"
  }

  /** `getStatusImage`: an SF Symbols name. */
  function StatusImage(s: Status): string
  {
    match s
    case Backlog => "book.closed.fill"
    case Doing => "hourglass"
    case Review => "magnifyingglass"
    case Done => "checkmark"
  }

  /** The priority colours: gray, green, yellow, red, one per priority. */
  lemma PriorityColorTable()
    ensures PriorityColor(None) == Gray && PriorityColor(Low) == Green
    ensures PriorityColor(Medium) == Yellow && PriorityColor(High) == Red
    ensures forall p, q :: PriorityColor(p) == PriorityColor(q) ==> p == q
  {
  }

  /** Distinct priorities show distinct symbols. */
  lemma PriorityImageInjective(p: Priority, q: Priority)
    ensures PriorityImage(p) == PriorityImage(q) <==> p == q
  {
  }

  /** Distinct statuses show distinct symbols. */
  lemma StatusImageInjective(s: Status, t: Status)
    ensures StatusImage(s) == StatusImage(t) <==> s == t
  {
  }
}
