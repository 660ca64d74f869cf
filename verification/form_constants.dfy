/** The display metadata of each submission status. */
module FormConstants {
  import opened FormStatusTypes

  /** Label, colour, icon, whether the form may still be edited, and description. */
  datatype StatusMetadata = StatusMetadata(
    labelText: string,
    color: string,
    icon: string,
    editable: bool,
    description: string)

  /** The metadata record of each status. */
  function Metadata(s: FormStatus): StatusMetadata {
    match s
    case Draft => StatusMetadata("Draft", "gray", "draft", true, Description(Draft))
    case Completed => StatusMetadata("Completed", "blue", "check", true, Description(Completed))
    case Signed => StatusMetadata("Signed", "green", "signature", false, Description(Signed))
    case Archived => StatusMetadata("Archived", "purple", "archive", false, Description(Archived))
    case Voided => StatusMetadata("Voided", "red", "trash", false, Description(Voided))
  }

  /** A form may be edited exactly while it is DRAFT or COMPLETED. */
  lemma EditableExactlyBeforeSigning(s: FormStatus)
    ensures Metadata(s).editable <==> s == Draft || s == Completed
  {
  }

  /** Each entry repeats the status description of the transition table's module. */
  lemma MetadataDescriptionsAgree(s: FormStatus)
    ensures Metadata(s).description == Description(s)
  {
  }

  /** No two statuses share a label. */
  lemma LabelsAreDistinct(s: FormStatus, t: FormStatus)
    requires s != t
    ensures Metadata(s).labelText != Metadata(t).labelText
  {
  }

  /** No allowed transition makes a non-editable form editable again. */
  lemma NoTransitionRestoresEditing(from: FormStatus, to: FormStatus)
    requires CanMove(from, to) && !Metadata(from).editable
    ensures !Metadata(to).editable
  {
  }

  /** Along any sequence of allowed transitions, a form that has become non-editable stays so. */
  lemma {:induction false} EditingNeverRestored(p: seq<FormStatus>, i: nat, j: nat)
    requires IsPath(p) && i <= j < |p| && !Metadata(p[i]).editable
    ensures !Metadata(p[j]).editable
    decreases j - i
  {
    if i < j {
      assert CanMove(p[i], p[i + 1]);
      NoTransitionRestoresEditing(p[i], p[i + 1]);
      EditingNeverRestored(p, i + 1, j);
    }
  }
}
