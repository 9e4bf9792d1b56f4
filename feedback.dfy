/**
 * The Feedback entity, its rating table, and the comments attached to a
 * feedback.
 */
module Feedbacks {
  import opened Options
  import opened Decisions

  /** Feedback.rating_names, in index order. */
  const RatingNames: seq<string> := ["question", "danger", "concerns", "consent", "comment"]

  /** A rating is the index of one of the rating names. */
  type Rating = r: int | 0 <= r < 5 witness 4

  /** Python's tuple.index: the position of the first occurrence of `x`. */
  function IndexOf(s: seq<string>, x: string): (r: nat)
    requires x in s
    ensures r < |s| && s[r] == x
    ensures forall j :: 0 <= j < r ==> s[j] != x
  {
    if s[0] == x then 0 else 1 + IndexOf(s[1..], x)
  }

  /** No rating name occurs twice. */
  lemma RatingNamesDistinct()
    ensures |RatingNames| == 5
    ensures forall i, j :: 0 <= i < j < |RatingNames| ==> RatingNames[i] != RatingNames[j]
  {
  }

  /** Looking up a rating name gives back its own position. */
  lemma RatingIndexOfName(i: Rating)
    ensures RatingNames[i] in RatingNames
    ensures IndexOf(RatingNames, RatingNames[i]) == i
  {
    RatingNamesDistinct();
    var r := IndexOf(RatingNames, RatingNames[i]);
    assert !(r < i);
  }

  /** Feedback.RATING_CHOICES: the pairs (rating_names.index(x), x). */
  function RatingChoices(): (r: seq<(int, string)>)
    ensures |r| == |RatingNames|
    ensures forall i :: 0 <= i < |r| ==> r[i] == (i, RatingNames[i])
  {
    seq(|RatingNames|, (i: nat) requires i < |RatingNames| =>
      RatingIndexOfName(i); (IndexOf(RatingNames, RatingNames[i]), RatingNames[i]))
  }

  /** The named status constants of Feedback. */
  function QuestionStatus(): (r: Rating) ensures r == 0 && RatingNames[r] == "question"
  { RatingIndexOfName(0); IndexOf(RatingNames, "question") }

  function DangerStatus(): (r: Rating) ensures r == 1 && RatingNames[r] == "danger"
  { RatingIndexOfName(1); IndexOf(RatingNames, "danger") }

  function ConcernsStatus(): (r: Rating) ensures r == 2 && RatingNames[r] == "concerns"
  { RatingIndexOfName(2); IndexOf(RatingNames, "concerns") }

  function ConsentStatus(): (r: Rating) ensures r == 3 && RatingNames[r] == "consent"
  { RatingIndexOfName(3); IndexOf(RatingNames, "consent") }

  /** Also the default rating of a new feedback. */
  function CommentStatus(): (r: Rating) ensures r == 4 && RatingNames[r] == "comment"
  { RatingIndexOfName(4); IndexOf(RatingNames, "comment") }

  /** A Feedback row on decision `decision`. `id` is None until first persisted. */
  datatype Feedback = Feedback(
    id: Option<Id>,
    description: Option<string>,
    author: Option<User>,
    editor: Option<User>,
    decision: Id,
    resolved: bool,
    rating: Rating)

  /** A comment attached to the feedback `feedback`, written by `user`. */
  datatype Comment = Comment(
    id: Option<Id>,
    feedback: Id,
    user: Option<User>,
    text: string)

  const AnonymousContributor: string := "An Anonymous Contributor"

  /** Feedback.get_author_name. */
  function AuthorName(f: Feedback): (r: string)
    ensures r != ""
    ensures f.author.Some? && f.author.value != "" ==> r == f.author.value
    ensures f.author.None? || f.author.value == "" ==> r == AnonymousContributor
  {
    if f.author.Some? && f.author.value != "" then f.author.value else AnonymousContributor
  }
}
