/**
 * The submission status state machine: the five statuses, the table of
 * allowed transitions and the description of each status.
 */
module FormStatusTypes {

  /** The statuses a clinical form submission can be in. */
  datatype FormStatus = Draft | Completed | Signed | Archived | Voided

  /** The allowed targets of each status, in the order the table lists them. */
  function Transitions(s: FormStatus): (r: seq<FormStatus>)
    ensures s !in r
    ensures s == Voided <==> r == []
  {
    match s
    case Draft => [Completed, Voided]
    case Completed => [Signed, Draft, Voided]
    case Signed => [Archived, Voided]
    case Archived => [Voided]
    case Voided => []
  }

  /** The human-readable description of each status. */
  function Description(s: FormStatus): string {
    match s
    case Draft => "Form is in draft state and can be edited"
    case Completed => "Form has been completed but not signed"
    case Signed => "Form has been signed by authorized personnel"
    case Archived => "Form has been archived and cannot be modified"
    case Voided => "Form has been voided and is no longer valid"
  }

  /** One step of the state machine: `to` is listed for `from`. */
  predicate CanMove(from: FormStatus, to: FormStatus) {
    to in Transitions(from)
  }

  /** VOIDED has no outgoing transition. */
  lemma VoidedIsTerminal(to: FormStatus)
    ensures !CanMove(Voided, to)
  {
  }

  /** Every status other than VOIDED can move straight to VOIDED. */
  lemma LiveStatusesCanVoid(s: FormStatus)
    ensures s != Voided <==> CanMove(s, Voided)
  {
  }

  /** The position of a status along the forward direction of the workflow. */
  function Rank(s: FormStatus): nat {
    match s
    case Draft => 0
    case Completed => 1
    case Signed => 2
    case Archived => 3
    case Voided => 4
  }

  /**
   * Every transition moves forward, except COMPLETED back to DRAFT; there is
   * no SIGNED to COMPLETED and no ARCHIVED to SIGNED.
   */
  lemma OnlyBackwardEdgeIsReopen(from: FormStatus, to: FormStatus)
    requires CanMove(from, to)
    ensures Rank(to) > Rank(from) || (from == Completed && to == Draft)
  {
  }

  /** A sequence of statuses each of which may follow the one before it. */
  ghost predicate IsPath(p: seq<FormStatus>) {
    |p| >= 1 && forall i :: 0 <= i < |p| - 1 ==> CanMove(p[i], p[i + 1])
  }

  /** Once a form is SIGNED, ARCHIVED or VOIDED it is never DRAFT or COMPLETED again. */
  lemma {:induction false} SignedNeverReopens(p: seq<FormStatus>)
    requires IsPath(p) && p[0] in {Signed, Archived, Voided}
    ensures forall i :: 0 <= i < |p| ==> p[i] in {Signed, Archived, Voided}
  {
    if |p| > 1 {
      assert CanMove(p[0], p[1]);
      assert IsPath(p[1..]);
      SignedNeverReopens(p[1..]);
      forall i | 0 <= i < |p| ensures p[i] in {Signed, Archived, Voided} {
        if i > 0 { assert p[i] == p[1..][i - 1]; }
      }
    }
  }

  /** From SIGNED, the statuses reachable in one or more steps are exactly ARCHIVED and VOIDED. */
  lemma ReachableFromSigned(p: seq<FormStatus>)
    requires IsPath(p) && p[0] == Signed && |p| >= 2
    ensures p[|p| - 1] in {Archived, Voided}
  {
    SignedNeverReopens(p);
    assert CanMove(p[|p| - 2], p[|p| - 1]);
  }

  /** Both ARCHIVED and VOIDED are indeed reachable from SIGNED. */
  lemma SignedReachesArchivedAndVoided()
    ensures IsPath([Signed, Archived]) && IsPath([Signed, Voided])
  {
  }

  /** Every path from DRAFT to SIGNED passes through COMPLETED. */
  lemma {:induction false} SigningGoesThroughCompleted(p: seq<FormStatus>)
    requires IsPath(p) && p[0] == Draft && p[|p| - 1] == Signed
    ensures exists i :: 0 < i < |p| - 1 && p[i] == Completed
  {
    assert |p| >= 2;
    var last := |p| - 1;
    assert CanMove(p[last - 1], p[last]);
    assert p[last - 1] == Completed;
    assert last - 1 > 0;
  }

  /** ARCHIVED is entered only from SIGNED. */
  lemma ArchivedOnlyViaSigned(p: seq<FormStatus>, i: nat)
    requires IsPath(p) && 0 < i < |p| && p[i] == Archived && p[i - 1] != Archived
    ensures p[i - 1] == Signed
  {
    assert CanMove(p[i - 1], p[i]);
  }

  /** A VOIDED submission stays where it is: VOIDED can only be the last status of a path. */
  lemma VoidedEndsEveryPath(p: seq<FormStatus>, i: nat)
    requires IsPath(p) && i < |p| - 1
    ensures p[i] != Voided
  {
    assert CanMove(p[i], p[i + 1]);
  }
}
