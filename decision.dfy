/**
 * The Decision entity (the persisted row) and the change detection that
 * decides whether saving it refreshes `last_modified`.
 */
module Decisions {
  import opened Options
  import opened Excerpts

  /** Database keys: positive integers. */
  type Id = x: int | x > 0 witness 1
  /** Organization keys. */
  type OrgId = nat
  /** A user, identified by username. */
  type User = string
  /** A calendar day (DateField). */
  type Day = int
  /** A point in time (DateTimeField). */
  type Instant = int

  /** The clock reading a save takes: `timezone.now()` and its date. */
  datatype Clock = Clock(instant: Instant, day: Day)

  /** Decision.STATUS_CHOICES. */
  datatype Status = DiscussionStatus | ProposalStatus | DecisionStatus | ArchivedStatus

  /** The stored value of the `status` field. */
  function StatusName(s: Status): (r: string)
    ensures r in ["discussion", "proposal", "decision", "archived"]
  {
    match s
    case DiscussionStatus => "discussion"
    case ProposalStatus => "proposal"
    case DecisionStatus => "decision"
    case ArchivedStatus => "archived"
  }

  /** Distinct statuses store distinct names, so comparing the stored text compares the status. */
  lemma StatusNameInjective(s: Status, t: Status)
    ensures StatusName(s) == StatusName(t) ==> s == t
  {
  }

  /** A Decision row. `id` is None until the record is first persisted. */
  datatype Decision = Decision(
    id: Option<Id>,
    description: string,
    decidedDate: Option<Day>,
    effectiveDate: Option<Day>,
    reviewDate: Option<Day>,
    expiryDate: Option<Day>,
    deadline: Option<Day>,
    archivedDate: Option<Day>,
    budget: string,
    people: Option<string>,
    meetingPeople: Option<string>,
    status: Status,
    tags: Option<string>,
    organization: OrgId,
    author: Option<User>,
    editor: Option<User>,
    lastModified: Option<Instant>,
    lastStatus: string,
    excerpt: string,
    creation: Option<Day>)

  /** The persisted fields of a Decision, by attribute name. */
  datatype Field =
    | Description | DecidedDate | EffectiveDate | ReviewDate | ExpiryDate | Deadline
    | ArchivedDate | Budget | People | MeetingPeople | StatusField | Tags | Organization
    | Author | Editor | LastModified | LastStatus | ExcerptField | Creation

  /** A field value as `getattr` returns it, with Python's `!=` as inequality. */
  datatype Value =
    | Text(text: string)
    | MaybeText(maybeText: Option<string>)
    | MaybeNumber(maybeNumber: Option<int>)
    | Number(number: int)

  /** getattr(d, field). */
  function GetAttr(d: Decision, f: Field): Value
  {
    match f
    case Description => Text(d.description)
    case DecidedDate => MaybeNumber(d.decidedDate)
    case EffectiveDate => MaybeNumber(d.effectiveDate)
    case ReviewDate => MaybeNumber(d.reviewDate)
    case ExpiryDate => MaybeNumber(d.expiryDate)
    case Deadline => MaybeNumber(d.deadline)
    case ArchivedDate => MaybeNumber(d.archivedDate)
    case Budget => Text(d.budget)
    case People => MaybeText(d.people)
    case MeetingPeople => MaybeText(d.meetingPeople)
    case StatusField => Text(StatusName(d.status))
    case Tags => MaybeText(d.tags)
    case Organization => Number(d.organization)
    case Author => MaybeText(d.author)
    case Editor => MaybeText(d.editor)
    case LastModified => MaybeNumber(d.lastModified)
    case LastStatus => Text(d.lastStatus)
    case ExcerptField => Text(d.excerpt)
    case Creation => MaybeNumber(d.creation)
  }

  /** Decision.TRIGGER_FIELDS: the fields whose change refreshes `last_modified`. */
  const TriggerFields: seq<Field> := [
    Description, DecidedDate, EffectiveDate, ReviewDate, ExpiryDate, Deadline,
    ArchivedDate, Budget, People, MeetingPeople, StatusField, ExcerptField, Creation]

  /** The field-by-field loop of Decision._is_same over a list of fields. */
  function SameOn(fields: seq<Field>, a: Decision, b: Decision): bool
  {
    if fields == [] then true
    else if GetAttr(a, fields[0]) != GetAttr(b, fields[0]) then false
    else SameOn(fields[1..], a, b)
  }

  /** Decision._is_same. */
  function IsSame(a: Decision, b: Decision): bool
  {
    SameOn(TriggerFields, a, b)
  }

  /** The loop returns true exactly when every listed field compares equal. */
  lemma {:induction false} SameOnAll(fields: seq<Field>, a: Decision, b: Decision)
    ensures SameOn(fields, a, b) <==> forall i :: 0 <= i < |fields| ==> GetAttr(a, fields[i]) == GetAttr(b, fields[i])
  {
    if fields != [] {
      SameOnAll(fields[1..], a, b);
      assert forall i :: 1 <= i < |fields| ==> fields[i] == fields[1..][i - 1];
    }
  }

  /** The thirteen trigger fields of two decisions are pairwise equal. */
  ghost predicate TriggerFieldsEqual(a: Decision, b: Decision)
  {
    && a.description == b.description
    && a.decidedDate == b.decidedDate
    && a.effectiveDate == b.effectiveDate
    && a.reviewDate == b.reviewDate
    && a.expiryDate == b.expiryDate
    && a.deadline == b.deadline
    && a.archivedDate == b.archivedDate
    && a.budget == b.budget
    && a.people == b.people
    && a.meetingPeople == b.meetingPeople
    && a.status == b.status
    && a.excerpt == b.excerpt
    && a.creation == b.creation
  }

  /** Equal trigger fields are equal attribute by attribute. */
  lemma TriggerFieldsEqualAt(a: Decision, b: Decision, f: Field)
    requires TriggerFieldsEqual(a, b) && f in TriggerFields
    ensures GetAttr(a, f) == GetAttr(b, f)
  {
  }

  /** _is_same holds exactly when all thirteen trigger fields are equal. */
  lemma IsSameIff(a: Decision, b: Decision)
    ensures IsSame(a, b) <==> TriggerFieldsEqual(a, b)
  {
    SameOnAll(TriggerFields, a, b);
    StatusNameInjective(a.status, b.status);
    if IsSame(a, b) {
      assert GetAttr(a, TriggerFields[0]) == GetAttr(b, TriggerFields[0]);
      assert GetAttr(a, TriggerFields[1]) == GetAttr(b, TriggerFields[1]);
      assert GetAttr(a, TriggerFields[2]) == GetAttr(b, TriggerFields[2]);
      assert GetAttr(a, TriggerFields[3]) == GetAttr(b, TriggerFields[3]);
      assert GetAttr(a, TriggerFields[4]) == GetAttr(b, TriggerFields[4]);
      assert GetAttr(a, TriggerFields[5]) == GetAttr(b, TriggerFields[5]);
      assert GetAttr(a, TriggerFields[6]) == GetAttr(b, TriggerFields[6]);
      assert GetAttr(a, TriggerFields[7]) == GetAttr(b, TriggerFields[7]);
      assert GetAttr(a, TriggerFields[8]) == GetAttr(b, TriggerFields[8]);
      assert GetAttr(a, TriggerFields[9]) == GetAttr(b, TriggerFields[9]);
      assert GetAttr(a, TriggerFields[10]) == GetAttr(b, TriggerFields[10]);
      assert GetAttr(a, TriggerFields[11]) == GetAttr(b, TriggerFields[11]);
      assert GetAttr(a, TriggerFields[12]) == GetAttr(b, TriggerFields[12]);
    }
    if TriggerFieldsEqual(a, b) {
      forall i | 0 <= i < |TriggerFields|
        ensures GetAttr(a, TriggerFields[i]) == GetAttr(b, TriggerFields[i])
      {
        TriggerFieldsEqualAt(a, b, TriggerFields[i]);
      }
    }
  }

  /**
   * Differences in tags, organization, author, editor, last_status or
   * last_modified (and in the id) never make _is_same false.
   */
  lemma IsSameIgnoresOtherFields(a: Decision, b: Decision, a': Decision)
    requires a' == a.(id := a'.id, tags := a'.tags, organization := a'.organization, author := a'.author,
                      editor := a'.editor, lastStatus := a'.lastStatus, lastModified := a'.lastModified)
    ensures IsSame(a', b) == IsSame(a, b)
  {
    IsSameIff(a, b);
    IsSameIff(a', b);
  }

  /** _is_same is an equivalence: reflexive, symmetric and transitive. */
  lemma IsSameEquivalence(a: Decision, b: Decision, c: Decision)
    ensures IsSame(a, a)
    ensures IsSame(a, b) ==> IsSame(b, a)
    ensures IsSame(a, b) && IsSame(b, c) ==> IsSame(a, c)
  {
    IsSameIff(a, a);
    IsSameIff(a, b);
    IsSameIff(b, a);
    IsSameIff(b, c);
    IsSameIff(a, c);
  }

  /**
   * The row Decision.save stores for a decision already in the database
   * whose stored copy is `prev`: the excerpt recomputed from the
   * description, and last_modified moved to the clock when the trigger
   * fields differ from the stored copy (compared after the excerpt is
   * recomputed).
   */
  function UpdatedRow(d: Decision, prev: Decision, clock: Clock): Decision
  {
    var current := d.(excerpt := Excerpt(d.description));
    if IsSame(current, prev) then current else current.(lastModified := Some(clock.instant))
  }

  /**
   * The row stored for a new decision: the key the database hands out, the
   * excerpt, and the auto_now_add stamps of last_modified and creation.
   */
  function CreatedRow(d: Decision, id: Id, clock: Clock): (r: Decision)
    ensures r.id == Some(id) && r.excerpt == Excerpt(d.description)
    ensures r.lastModified == Some(clock.instant) && r.creation == Some(clock.day)
    ensures r.(id := d.id, excerpt := d.excerpt, lastModified := d.lastModified, creation := d.creation) == d
  {
    d.(id := Some(id), excerpt := Excerpt(d.description), lastModified := Some(clock.instant), creation := Some(clock.day))
  }

  /**
   * Saving a stored decision sets last_modified to the clock exactly when
   * one of the thirteen trigger fields differs from the stored copy, and
   * keeps the instance's last_modified otherwise; the excerpt is always
   * recomputed and every other field is taken from the instance.
   */
  lemma UpdatedRowLastModified(d: Decision, prev: Decision, clock: Clock)
    ensures UpdatedRow(d, prev, clock).excerpt == Excerpt(d.description)
    ensures UpdatedRow(d, prev, clock).(excerpt := d.excerpt, lastModified := d.lastModified) == d
    ensures TriggerFieldsEqual(d.(excerpt := Excerpt(d.description)), prev) ==> UpdatedRow(d, prev, clock).lastModified == d.lastModified
    ensures !TriggerFieldsEqual(d.(excerpt := Excerpt(d.description)), prev) ==> UpdatedRow(d, prev, clock).lastModified == Some(clock.instant)
  {
    IsSameIff(d.(excerpt := Excerpt(d.description)), prev);
  }

  /**
   * Re-saving a stored row unchanged keeps its last_modified: its excerpt
   * is already that of its description, so no trigger field differs.
   */
  lemma ResaveKeepsLastModified(prev: Decision, clock: Clock)
    requires prev.excerpt == Excerpt(prev.description)
    ensures UpdatedRow(prev, prev, clock) == prev
  {
    IsSameEquivalence(prev, prev, prev);
  }
}
