/**
 * The rules of the post-save handlers and of the organization-change
 * rebuild, as functions of the watcher relation: who becomes a watcher,
 * who is sent what, with which headers.
 */
module Rules {
  import opened Options
  import opened Decisions
  import opened Feedbacks
  import opened MessageIds
  import opened Notifications

  /** decision.feedback_set.all(): the keys of the feedback on decision `id`. */
  function FeedbackOf(feedbacks: map<Id, Feedback>, id: Id): (r: set<Id>)
    ensures forall f :: f in r <==> f in feedbacks && feedbacks[f].decision == id
  {
    set f | f in feedbacks && feedbacks[f].decision == id
  }

  /** feedback.comments.all() for every feedback of `fs`: the keys of their comments. */
  function CommentsOf(comments: map<Id, Comment>, fs: set<Id>): (r: set<Id>)
    ensures forall c :: c in r <==> c in comments && comments[c].feedback in fs
  {
    set c | c in comments && comments[c].feedback in fs
  }

  /**
   * The objects whose watchers an organization change of decision `id`
   * replaces, when `fs` are its feedbacks: the decision, each feedback, and
   * each comment on one of them.
   */
  function RebuildTargets(id: Id, fs: set<Id>, comments: map<Id, Comment>): (r: set<ObjRef>)
    ensures DecisionObj(id) in r
    ensures forall f :: FeedbackObj(f) in r <==> f in fs
    ensures forall c :: CommentObj(c) in r <==> c in comments && comments[c].feedback in fs
    ensures forall d :: DecisionObj(d) in r ==> d == id
  {
    {DecisionObj(id)} + (set f | f in fs :: FeedbackObj(f)) + (set c | c in CommentsOf(comments, fs) :: CommentObj(c))
  }

  /** Adding one feedback to `fs` adds it and its comments to the targets. */
  lemma RebuildTargetsStep(id: Id, fs: set<Id>, f: Id, comments: map<Id, Comment>)
    ensures RebuildTargets(id, fs + {f}, comments)
         == RebuildTargets(id, fs, comments) + {FeedbackObj(f)} + (set c | c in CommentsOf(comments, {f}) :: CommentObj(c))
  {
    var lhs := RebuildTargets(id, fs + {f}, comments);
    var rhs := RebuildTargets(id, fs, comments) + {FeedbackObj(f)} + (set c | c in CommentsOf(comments, {f}) :: CommentObj(c));
    forall o | o in lhs ensures o in rhs {
      if o.CommentObj? && comments[o.id].feedback == f {
        assert o.id in CommentsOf(comments, {f});
      }
    }
  }

  /** An edit of a feedback notifies its watchers unless the author made it and flagged it minor. */
  function EditNotifies(author: Option<User>, editor: Option<User>, minorEdit: bool): (r: bool)
    ensures author != editor ==> r
    ensures !minorEdit ==> r
    ensures author == editor && minorEdit ==> !r
  {
    author != editor || !minorEdit
  }

  /** Some feedback on decision `id` is unresolved. */
  ghost predicate HasUnresolvedFeedback(feedbacks: map<Id, Feedback>, id: Id)
  {
    exists f :: f in feedbacks && feedbacks[f].decision == id && !feedbacks[f].resolved
  }

  /** The number of feedbacks on decision `id` with rating `r`. */
  function RatingCount(feedbacks: map<Id, Feedback>, id: Id, r: Rating): nat
  {
    |set f | f in feedbacks && feedbacks[f].decision == id && feedbacks[f].rating == r|
  }

  /**
   * feedback_set.values('rating').annotate(Count('rating')): one group per
   * rating that occurs, with its count.
   */
  function RatingGroups(feedbacks: map<Id, Feedback>, id: Id): (g: map<Rating, nat>)
    ensures forall r: Rating :: r in g <==> exists f :: f in feedbacks && feedbacks[f].decision == id && feedbacks[f].rating == r
    ensures forall r :: r in g ==> g[r] == RatingCount(feedbacks, id, r) && g[r] > 0
  {
    var g := map r: Rating | 0 <= r < 5 && RatingCount(feedbacks, id, r) > 0 :: RatingCount(feedbacks, id, r);
    forall r: Rating ensures r in g <==> exists f :: f in feedbacks && feedbacks[f].decision == id && feedbacks[f].rating == r {
      var s := set f | f in feedbacks && feedbacks[f].decision == id && feedbacks[f].rating == r;
      if exists f :: f in feedbacks && feedbacks[f].decision == id && feedbacks[f].rating == r {
        var f :| f in feedbacks && feedbacks[f].decision == id && feedbacks[f].rating == r;
        assert f in s;
      }
    }
    g
  }

  /** The headers of a decision notice (_send_change_notifications, decision_signal_handler). */
  function DecisionHeaders(id: Id, domain: string): map<string, string>
  {
    SendingHeaders(DecisionMessageId(id, domain), None)
  }

  /** The headers of a feedback notice: its own id, in reply to its decision's. */
  function FeedbackHeaders(id: Id, decision: Id, domain: string): map<string, string>
  {
    SendingHeaders(FeedbackMessageId(id, domain), Some(DecisionMessageId(decision, domain)))
  }

  /**
   * The headers of a comment notice: its own id in the unbracketed form
   * comment_signal_handler builds, in reply to its feedback's id.
   */
  function CommentHeaders(id: Id, feedback: Id, domain: string): map<string, string>
  {
    SendingHeaders(CommentMessageIdAsWritten(id, domain), Some(FeedbackMessageId(feedback, domain)))
  }

  /** What a post-save handler leaves behind: the new watcher relation and the notices it sent. */
  datatype Effect = Effect(watches: set<Watch>, notices: seq<Notice>)

  /**
   * decision_signal_handler for decision `id` of organization `org`, whose
   * active users are `active`: on creation all of them observe it and all
   * but the author are sent "decision new"; otherwise nothing.
   */
  function DecisionPostSave(w: set<Watch>, id: Id, author: Option<User>, org: OrgId, active: set<User>,
                            created: bool, domain: string): Effect
  {
    if created then
      Effect(w + ObserveAll(active, DecisionObj(id), DecisionChange),
             [Notice(Send(DecisionNew), AllBut(active, author), DecisionHeaders(id, domain), org)])
    else Effect(w, [])
  }

  /**
   * The part of Decision.save that runs for a stored decision: the watcher
   * rebuild when the organization changed (to `users`, over `targets`),
   * then the change notice to the decision's observers unless minor.
   */
  function DecisionChangeEffect(w: set<Watch>, id: Id, orgChanged: bool, targets: set<ObjRef>, users: set<User>,
                                org: OrgId, minorEdit: bool, domain: string): Effect
  {
    var w' := if orgChanged then RebuildWatches(w, targets, users) else w;
    Effect(w', if minorEdit then []
               else [Notice(ObservationNotices(DecisionObj(id)), Observers(w', DecisionObj(id)), DecisionHeaders(id, domain), org)])
  }

  /**
   * feedback_signal_handler on feedback `f` stored under `id`: on creation
   * the author observes it and the decision's watchers other than the
   * author are sent "feedback new"; on an edit its observers are notified
   * unless EditNotifies says it is the author's own minor edit.
   */
  function FeedbackPostSave(w: set<Watch>, f: Feedback, id: Id, created: bool, minorEdit: bool,
                            domain: string, org: OrgId): Effect
    requires created ==> f.author.Some?
  {
    var headers := FeedbackHeaders(id, f.decision, domain);
    if created then
      var w' := w + {Watch(f.author.value, FeedbackObj(id), FeedbackChange)};
      Effect(w', [Notice(Send(FeedbackNew), AllBut(Observers(w', DecisionObj(f.decision)), f.author), headers, org)])
    else if EditNotifies(f.author, f.editor, minorEdit) then
      Effect(w, [Notice(ObservationNotices(FeedbackObj(id)), Observers(w, FeedbackObj(id)), headers, org)])
    else Effect(w, [])
  }

  /**
   * comment_signal_handler on comment `c` stored under `id`, on a feedback of
   * decision `decision`: on creation its writer observes it and the
   * decision's watchers other than the writer are sent "comment new"; an
   * edit always notifies the comment's observers.
   */
  function CommentPostSave(w: set<Watch>, c: Comment, id: Id, decision: Id, created: bool,
                           domain: string, org: OrgId): Effect
    requires created ==> c.user.Some?
  {
    var headers := CommentHeaders(id, c.feedback, domain);
    if created then
      var w' := w + {Watch(c.user.value, CommentObj(id), CommentChange)};
      Effect(w', [Notice(Send(CommentNew), AllBut(Observers(w', DecisionObj(decision)), c.user), headers, org)])
    else
      Effect(w, [Notice(ObservationNotices(CommentObj(id)), Observers(w, CommentObj(id)), headers, org)])
  }

  // ---- Properties of the rules ----

  /**
   * Each notice is headed with the id its object is sent with (so, by
   * SentMessageIdInjective, no two objects share one), replies to its
   * parent's id, and carries Precedence: bulk and Auto-Submitted:
   * auto-generated.
   */
  lemma HeadersAreStandard(id: Id, parent: Id, domain: string)
    ensures DecisionHeaders(id, domain)["Message-ID"] == DecisionMessageId(id, domain)
    ensures "In-Reply-To" !in DecisionHeaders(id, domain)
    ensures FeedbackHeaders(id, parent, domain)["Message-ID"] == FeedbackMessageId(id, domain)
    ensures FeedbackHeaders(id, parent, domain)["In-Reply-To"] == DecisionMessageId(parent, domain)
    ensures CommentHeaders(id, parent, domain)["Message-ID"] == CommentMessageIdAsWritten(id, domain)
    ensures CommentHeaders(id, parent, domain)["In-Reply-To"] == FeedbackMessageId(parent, domain)
    ensures DecisionHeaders(id, domain)["Message-ID"] == SentMessageId(DecisionKind, id, domain)
    ensures FeedbackHeaders(id, parent, domain)["Message-ID"] == SentMessageId(FeedbackKind, id, domain)
    ensures CommentHeaders(id, parent, domain)["Message-ID"] == SentMessageId(CommentKind, id, domain)
    ensures forall h :: h in {DecisionHeaders(id, domain), FeedbackHeaders(id, parent, domain), CommentHeaders(id, parent, domain)} ==>
      h["Precedence"] == "bulk" && h["Auto-Submitted"] == "auto-generated"
  {
    assert "In-Reply-To" != "Message-ID";
    assert "In-Reply-To" != "Precedence";
    assert "In-Reply-To" != "Auto-Submitted";
  }

  /**
   * Creating a decision makes every active organization user a watcher and
   * sends one "decision new" notice, to the active users other than the
   * author, headed with the decision's message id.
   */
  lemma DecisionCreatedRule(w: set<Watch>, id: Id, author: Option<User>, org: OrgId, active: set<User>, domain: string)
    ensures var e := DecisionPostSave(w, id, author, org, active, true, domain);
      && Observers(e.watches, DecisionObj(id)) == Observers(w, DecisionObj(id)) + active
      && (forall o :: o != DecisionObj(id) ==> Observers(e.watches, o) == Observers(w, o))
      && |e.notices| == 1
      && e.notices[0].via == Send(DecisionNew)
      && (forall u :: u in e.notices[0].recipients <==> u in active && Some(u) != author)
      && e.notices[0].headers["Message-ID"] == DecisionMessageId(id, domain)
  {
    var e := DecisionPostSave(w, id, author, org, active, true, domain);
    var added := ObserveAll(active, DecisionObj(id), DecisionChange);
    ObserversOfUnion(w, added, DecisionObj(id));
    forall o | o != DecisionObj(id) ensures Observers(e.watches, o) == Observers(w, o) {
      ObserversOfUnion(w, added, o);
      assert Observers(added, o) == {};
    }
  }

  /** The observers of a union of watcher rows are the union of the observers. */
  lemma ObserversOfUnion(w: set<Watch>, v: set<Watch>, o: ObjRef)
    ensures Observers(w + v, o) == Observers(w, o) + Observers(v, o)
  {
    forall u | u in Observers(w + v, o) ensures u in Observers(w, o) + Observers(v, o) {
      var n :| Watch(u, o, n) in w + v;
      if Watch(u, o, n) in w { assert u in Observers(w, o); } else { assert u in Observers(v, o); }
    }
  }

  /**
   * When the organization changed and the edit is not minor, the change
   * notice goes, after the rebuild, to exactly the new organization's
   * users, and every rebuilt object is watched by exactly them.
   */
  lemma RebuildBeforeNotice(w: set<Watch>, id: Id, targets: set<ObjRef>, users: set<User>, org: OrgId, domain: string)
    requires DecisionObj(id) in targets
    ensures var e := DecisionChangeEffect(w, id, true, targets, users, org, false, domain);
      && (forall o :: o in targets ==> Observers(e.watches, o) == users)
      && (forall o :: o !in targets ==> Observers(e.watches, o) == Observers(w, o))
      && |e.notices| == 1
      && e.notices[0].via == ObservationNotices(DecisionObj(id))
      && e.notices[0].recipients == users
  {
    forall o ensures o in targets ==> Observers(RebuildWatches(w, targets, users), o) == users
      ensures o !in targets ==> Observers(RebuildWatches(w, targets, users), o) == Observers(w, o)
    {
      RebuildObservers(w, targets, users, o);
    }
  }

  /**
   * Saving a stored decision sends exactly one change notice, headed with
   * its message id, when the edit is not minor, and none when it is,
   * whatever else changed.
   */
  lemma ChangeNoticeUnlessMinor(w: set<Watch>, id: Id, orgChanged: bool, targets: set<ObjRef>, users: set<User>,
                                org: OrgId, minorEdit: bool, domain: string)
    ensures var e := DecisionChangeEffect(w, id, orgChanged, targets, users, org, minorEdit, domain);
      && |e.notices| == (if minorEdit then 0 else 1)
      && (!minorEdit ==> e.notices[0].via == ObservationNotices(DecisionObj(id))
                         && e.notices[0].headers["Message-ID"] == DecisionMessageId(id, domain)
                         && e.notices[0].headers["Precedence"] == "bulk"
                         && e.notices[0].headers["Auto-Submitted"] == "auto-generated")
      && (!minorEdit ==> e.notices[0].recipients == Observers(e.watches, DecisionObj(id)))
      && (!orgChanged ==> e.watches == w)
  {
  }

  /**
   * Creating a feedback makes its author a watcher of it and sends one
   * "feedback new" notice to the decision's watchers other than the author,
   * in reply to the decision's message id, whatever minor_edit says.
   */
  lemma FeedbackCreatedRule(w: set<Watch>, f: Feedback, id: Id, minorEdit: bool, domain: string, org: OrgId)
    requires f.author.Some?
    ensures var e := FeedbackPostSave(w, f, id, true, minorEdit, domain, org);
      && e.watches == w + {Watch(f.author.value, FeedbackObj(id), FeedbackChange)}
      && |e.notices| == 1
      && e.notices[0].via == Send(FeedbackNew)
      && e.notices[0].recipients == Observers(w, DecisionObj(f.decision)) - {f.author.value}
      && e.notices[0].headers == FeedbackHeaders(id, f.decision, domain)
      && e.notices[0].headers["In-Reply-To"] == DecisionMessageId(f.decision, domain)
  {
    var added := {Watch(f.author.value, FeedbackObj(id), FeedbackChange)};
    ObserversOfUnion(w, added, DecisionObj(f.decision));
    assert Observers(added, DecisionObj(f.decision)) == {};
    HeadersAreStandard(id, f.decision, domain);
  }

  /**
   * Editing a feedback leaves the watchers alone and sends a notice to its
   * observers unless the author made the edit and flagged it minor.
   */
  lemma FeedbackEditedRule(w: set<Watch>, f: Feedback, id: Id, minorEdit: bool, domain: string, org: OrgId)
    ensures var e := FeedbackPostSave(w, f, id, false, minorEdit, domain, org);
      && e.watches == w
      && (e.notices == [] <==> f.author == f.editor && minorEdit)
      && (e.notices != [] ==> e.notices == [Notice(ObservationNotices(FeedbackObj(id)), Observers(w, FeedbackObj(id)),
                                                   FeedbackHeaders(id, f.decision, domain), org)])
  {
  }

  /**
   * Creating a comment makes its writer a watcher of it and sends one
   * "comment new" notice to the decision's watchers other than the writer,
   * in reply to the feedback's message id.
   */
  lemma CommentCreatedRule(w: set<Watch>, c: Comment, id: Id, decision: Id, domain: string, org: OrgId)
    requires c.user.Some?
    ensures var e := CommentPostSave(w, c, id, decision, true, domain, org);
      && e.watches == w + {Watch(c.user.value, CommentObj(id), CommentChange)}
      && |e.notices| == 1
      && e.notices[0].via == Send(CommentNew)
      && e.notices[0].recipients == Observers(w, DecisionObj(decision)) - {c.user.value}
      && e.notices[0].headers == CommentHeaders(id, c.feedback, domain)
      && e.notices[0].headers["In-Reply-To"] == FeedbackMessageId(c.feedback, domain)
  {
    var added := {Watch(c.user.value, CommentObj(id), CommentChange)};
    ObserversOfUnion(w, added, DecisionObj(decision));
    assert Observers(added, DecisionObj(decision)) == {};
    HeadersAreStandard(id, c.feedback, domain);
  }

  /**
   * Editing a comment, whoever wrote it, leaves the watchers alone and
   * always sends one notice to the comment's observers.
   */
  lemma CommentEditedRule(w: set<Watch>, c: Comment, id: Id, decision: Id, domain: string, org: OrgId)
    ensures CommentPostSave(w, c, id, decision, false, domain, org)
         == Effect(w, [Notice(ObservationNotices(CommentObj(id)), Observers(w, CommentObj(id)),
                              CommentHeaders(id, c.feedback, domain), org)])
  {
  }
}
