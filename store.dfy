/**
 * The business rules of the publicweb models: the store of decisions,
 * feedback and comments, the watcher relation, and the outbox of sent
 * notifications, with Decision.save, note_external_modification, the
 * organization-change rebuild of watchers, the three post-save handlers
 * and the two derived feedback queries.
 */
module Models {
  import opened Options
  import opened Excerpts
  import opened Decisions
  import opened Feedbacks
  import opened Notifications
  import opened Rules

  /**
   * Keys agree with the rows' ids and lie below the next key; foreign keys
   * point at existing rows; every stored excerpt is that of its description.
   */
  ghost predicate ValidTables(decisions: map<Id, Decision>, feedbacks: map<Id, Feedback>, comments: map<Id, Comment>,
                              orgUsers: map<OrgId, set<User>>, nextDecision: Id, nextFeedback: Id, nextComment: Id)
  {
    && (forall k :: k in decisions ==>
          k < nextDecision && decisions[k].id == Some(k) && decisions[k].organization in orgUsers
          && decisions[k].excerpt == Excerpt(decisions[k].description))
    && (forall k :: k in feedbacks ==>
          k < nextFeedback && feedbacks[k].id == Some(k) && feedbacks[k].decision in decisions)
    && (forall k :: k in comments ==>
          k < nextComment && comments[k].id == Some(k) && comments[k].feedback in feedbacks)
  }

  /** Storing a consistent decision row under its own key keeps the tables consistent. */
  lemma ValidAfterDecisionStored(decisions: map<Id, Decision>, feedbacks: map<Id, Feedback>, comments: map<Id, Comment>,
                                 orgUsers: map<OrgId, set<User>>, nextDecision: Id, nextFeedback: Id, nextComment: Id,
                                 row: Decision, nextDecision': Id)
    requires ValidTables(decisions, feedbacks, comments, orgUsers, nextDecision, nextFeedback, nextComment)
    requires row.id.Some? && row.id.value < nextDecision' && nextDecision <= nextDecision'
    requires row.organization in orgUsers && row.excerpt == Excerpt(row.description)
    ensures ValidTables(decisions[row.id.value := row], feedbacks, comments, orgUsers, nextDecision', nextFeedback, nextComment)
  {
  }

  /** Storing a feedback row on an existing decision under its own key keeps the tables consistent. */
  lemma ValidAfterFeedbackStored(decisions: map<Id, Decision>, feedbacks: map<Id, Feedback>, comments: map<Id, Comment>,
                                 orgUsers: map<OrgId, set<User>>, nextDecision: Id, nextFeedback: Id, nextComment: Id,
                                 row: Feedback, nextFeedback': Id)
    requires ValidTables(decisions, feedbacks, comments, orgUsers, nextDecision, nextFeedback, nextComment)
    requires row.id.Some? && row.id.value < nextFeedback' && nextFeedback <= nextFeedback'
    requires row.decision in decisions
    ensures ValidTables(decisions, feedbacks[row.id.value := row], comments, orgUsers, nextDecision, nextFeedback', nextComment)
  {
  }

  /** Storing a comment row on an existing feedback under its own key keeps the tables consistent. */
  lemma ValidAfterCommentStored(decisions: map<Id, Decision>, feedbacks: map<Id, Feedback>, comments: map<Id, Comment>,
                                orgUsers: map<OrgId, set<User>>, nextDecision: Id, nextFeedback: Id, nextComment: Id,
                                row: Comment, nextComment': Id)
    requires ValidTables(decisions, feedbacks, comments, orgUsers, nextDecision, nextFeedback, nextComment)
    requires row.id.Some? && row.id.value < nextComment' && nextComment <= nextComment'
    requires row.feedback in feedbacks
    ensures ValidTables(decisions, feedbacks, comments[row.id.value := row], orgUsers, nextDecision, nextFeedback, nextComment')
  {
  }

  /** note_external_modification changes only last_modified, so the tables stay consistent. */
  lemma ValidAfterModificationNoted(decisions: map<Id, Decision>, feedbacks: map<Id, Feedback>, comments: map<Id, Comment>,
                                    orgUsers: map<OrgId, set<User>>, nextDecision: Id, nextFeedback: Id, nextComment: Id,
                                    id: Id, instant: Instant)
    requires ValidTables(decisions, feedbacks, comments, orgUsers, nextDecision, nextFeedback, nextComment)
    requires id in decisions
    ensures ValidTables(decisions[id := decisions[id].(lastModified := Some(instant))], feedbacks, comments, orgUsers,
                        nextDecision, nextFeedback, nextComment)
  {
  }

  /** In-memory tables of the database, the watcher relation and the outbox. */
  class Store {
    var decisions: map<Id, Decision>
    var feedbacks: map<Id, Feedback>
    var comments: map<Id, Comment>
    /** The users of each organization (organization.users). */
    var orgUsers: map<OrgId, set<User>>
    /** The users whose is_active flag is set. */
    var activeUsers: set<User>
    var watches: set<Watch>
    var outbox: seq<Notice>
    /** The next key the database hands out, per table. */
    var nextDecision: Id
    var nextFeedback: Id
    var nextComment: Id

    /** The tables are consistent: see ValidTables. */
    ghost predicate Valid()
      reads this`decisions, this`feedbacks, this`comments, this`orgUsers, this`nextDecision, this`nextFeedback, this`nextComment
    {
      ValidTables(decisions, feedbacks, comments, orgUsers, nextDecision, nextFeedback, nextComment)
    }

    constructor (orgUsers: map<OrgId, set<User>>, activeUsers: set<User>)
      ensures Valid()
      ensures this.orgUsers == orgUsers && this.activeUsers == activeUsers
      ensures decisions == map[] && feedbacks == map[] && comments == map[]
      ensures watches == {} && outbox == []
    {
      this.orgUsers := orgUsers;
      this.activeUsers := activeUsers;
      decisions, feedbacks, comments := map[], map[], map[];
      watches, outbox := {}, [];
      nextDecision, nextFeedback, nextComment := 1, 1, 1;
    }

    /** organization.users.filter(is_active=True). */
    function ActiveOrgUsers(org: OrgId): (r: set<User>)
      reads this`orgUsers, this`activeUsers
      requires org in orgUsers
      ensures forall u :: u in r <==> u in orgUsers[org] && u in activeUsers
    {
      orgUsers[org] * activeUsers
    }

    /** notification.observe(o, u, n). */
    method Observe(o: ObjRef, u: User, n: NoticeType)
      modifies this`watches
      ensures watches == old(watches) + {Watch(u, o, n)}
    {
      watches := watches + {Watch(u, o, n)};
    }

    /** The loop of notification.observe calls: every user of `users` observes `o` for `n`. */
    method ObserveEach(users: set<User>, o: ObjRef, n: NoticeType)
      modifies this`watches
      ensures watches == old(watches) + ObserveAll(users, o, n)
    {
      var done := {};
      while users - done != {}
        invariant done <= users
        invariant watches == old(watches) + ObserveAll(done, o, n)
        decreases users - done
      {
        var u :| u in users - done;
        Observe(o, u, n);
        ObserveAllStep(done, u, o, n);
        done := done + {u};
      }
      assert done == users;
    }

    /** Delete the watchers of `o`, then observe it for its change notice by every user of `users`. */
    method ReplaceWatchers(o: ObjRef, users: set<User>)
      modifies this`watches
      ensures watches == RebuildWatches(old(watches), {o}, users)
    {
      watches := set x | x in watches && x.obj != o;
      ObserveEach(users, o, ChangeNotice(o));
      assert ObserveAll(users, o, ChangeNotice(o)) == set u, p | u in users && p in {o} :: Watch(u, p, ChangeNotice(p));
    }

    /** The loop over a set of objects, replacing the watchers of each. */
    method ReplaceWatchersOfAll(objs: set<ObjRef>, users: set<User>)
      modifies this`watches
      ensures watches == RebuildWatches(old(watches), objs, users)
    {
      var rest := objs;
      assert watches == RebuildWatches(old(watches), {}, users);
      while rest != {}
        invariant rest <= objs
        invariant watches == RebuildWatches(old(watches), objs - rest, users)
        decreases rest
      {
        var o :| o in rest;
        ReplaceWatchers(o, users);
        RebuildTwice(old(watches), objs - rest, {o}, users);
        assert objs - (rest - {o}) == (objs - rest) + {o};
        rest := rest - {o};
      }
    }

    /**
     * Decision._update_notification_for_org_change: the watchers of the
     * decision, of each of its feedbacks and of each comment on those are
     * replaced by the users of the organization `org`.
     */
    method UpdateNotificationForOrgChange(id: Id, org: OrgId)
      requires org in orgUsers
      modifies this`watches
      ensures watches == RebuildWatches(old(watches), RebuildTargets(id, FeedbackOf(feedbacks, id), comments), orgUsers[org])
    {
      var users := orgUsers[org];
      ReplaceWatchers(DecisionObj(id), users);
      assert RebuildTargets(id, {}, comments) == {DecisionObj(id)};
      var all := FeedbackOf(feedbacks, id);
      var todo := all;
      while todo != {}
        invariant todo <= all
        invariant watches == RebuildWatches(old(watches), RebuildTargets(id, all - todo, comments), users)
        decreases todo
      {
        var f :| f in todo;
        ghost var done := RebuildTargets(id, all - todo, comments);
        var commentObjs := set c | c in CommentsOf(comments, {f}) :: CommentObj(c);
        ReplaceWatchers(FeedbackObj(f), users);
        RebuildTwice(old(watches), done, {FeedbackObj(f)}, users);
        ReplaceWatchersOfAll(commentObjs, users);
        RebuildTwice(old(watches), done + {FeedbackObj(f)}, commentObjs, users);
        RebuildTargetsStep(id, all - todo, f, comments);
        assert all - (todo - {f}) == (all - todo) + {f};
        todo := todo - {f};
      }
      assert all - todo == all;
    }

    /**
     * Decision.note_external_modification: last_modified becomes the clock's
     * instant and the row is stored, with no notice and no watcher change.
     */
    method NoteExternalModification(id: Id, clock: Clock)
      requires id in decisions
      modifies this`decisions
      ensures decisions == old(decisions)[id := old(decisions[id]).(lastModified := Some(clock.instant))]
    {
      decisions := decisions[id := decisions[id].(lastModified := Some(clock.instant))];
    }

    /** decision_signal_handler, as DecisionPostSave describes it. */
    method DecisionSignalHandler(instance: Decision, created: bool, domain: string)
      requires instance.id.Some? && instance.organization in orgUsers
      modifies this`watches, this`outbox
      ensures var e := DecisionPostSave(old(watches), instance.id.value, instance.author, instance.organization,
                                        ActiveOrgUsers(instance.organization), created, domain);
        watches == e.watches && outbox == old(outbox) + e.notices
    {
      var id := instance.id.value;
      var headers := DecisionHeaders(id, domain);
      if created {
        var active := ActiveOrgUsers(instance.organization);
        var allButAuthor := AllBut(active, instance.author);
        ObserveEach(active, DecisionObj(id), DecisionChange);
        outbox := outbox + [Notice(Send(DecisionNew), allButAuthor, headers, instance.organization)];
      }
    }

    /**
     * The part of Decision.save that runs before a stored decision is
     * written: an organization change rebuilds the watchers of the decision
     * and everything under it, then the decision's observers get a change
     * notice unless the edit is minor.
     */
    method NotifyDecisionChange(id: Id, d: Decision, minorEdit: bool, domain: string)
      requires id in decisions && d.organization in orgUsers
      modifies this`watches, this`outbox
      ensures Valid() == old(Valid())
      ensures var e := DecisionChangeEffect(old(watches), id, decisions[id].organization != d.organization,
                                            RebuildTargets(id, FeedbackOf(feedbacks, id), comments),
                                            orgUsers[d.organization], d.organization, minorEdit, domain);
        watches == e.watches && outbox == old(outbox) + e.notices
    {
      if decisions[id].organization != d.organization {
        UpdateNotificationForOrgChange(id, d.organization);
      }
      if !minorEdit {
        outbox := outbox + [Notice(ObservationNotices(DecisionObj(id)), Observers(watches, DecisionObj(id)),
                                   DecisionHeaders(id, domain), d.organization)];
      }
    }

    /** The row-writing half of Decision.save for a stored decision: the row becomes UpdatedRow. */
    method UpdateDecision(d: Decision, clock: Clock) returns (saved: Decision)
      requires Valid()
      requires d.id.Some? && d.id.value in decisions && d.organization in orgUsers
      modifies this`decisions
      ensures Valid()
      ensures saved == UpdatedRow(d, old(decisions[d.id.value]), clock)
      ensures decisions == old(decisions)[d.id.value := saved]
    {
      saved := UpdatedRow(d, decisions[d.id.value], clock);
      ValidAfterDecisionStored(decisions, feedbacks, comments, orgUsers, nextDecision, nextFeedback, nextComment,
                               saved, nextDecision);
      decisions := decisions[d.id.value := saved];
    }

    /** The row-writing half of Decision.save for a new decision: the next key, and the row CreatedRow. */
    method InsertDecision(d: Decision, clock: Clock) returns (saved: Decision)
      requires Valid()
      requires d.organization in orgUsers
      modifies this`decisions, this`nextDecision
      ensures Valid()
      ensures saved == CreatedRow(d, old(nextDecision), clock) && old(nextDecision) !in old(decisions)
      ensures decisions == old(decisions)[old(nextDecision) := saved] && nextDecision == old(nextDecision) + 1
    {
      saved := CreatedRow(d, nextDecision, clock);
      ValidAfterDecisionStored(decisions, feedbacks, comments, orgUsers, nextDecision, nextFeedback, nextComment,
                               saved, nextDecision + 1);
      decisions, nextDecision := decisions[nextDecision := saved], nextDecision + 1;
    }

    /**
     * Decision.save. A stored decision goes through NotifyDecisionChange and
     * UpdateDecision; a new one through InsertDecision. `created` is what
     * the post-save signal then passes to DecisionSignalHandler.
     */
    method SaveDecision(d: Decision, minorEdit: bool, domain: string, clock: Clock) returns (saved: Decision, created: bool)
      requires Valid()
      requires d.organization in orgUsers
      requires d.id.Some? ==> d.id.value in decisions
      modifies this`decisions, this`nextDecision, this`watches, this`outbox
      ensures Valid()
      ensures created == d.id.None?
      ensures saved.id.Some? && decisions == old(decisions)[saved.id.value := saved]
      ensures d.id.Some? ==>
        var id := d.id.value;
        var prev := old(decisions[id]);
        var e := DecisionChangeEffect(old(watches), id, prev.organization != d.organization,
                                      RebuildTargets(id, FeedbackOf(feedbacks, id), comments),
                                      orgUsers[d.organization], d.organization, minorEdit, domain);
        && saved == UpdatedRow(d, prev, clock)
        && nextDecision == old(nextDecision)
        && watches == e.watches && outbox == old(outbox) + e.notices
      ensures d.id.None? ==>
        && old(nextDecision) !in old(decisions)
        && saved == CreatedRow(d, old(nextDecision), clock)
        && nextDecision == old(nextDecision) + 1
        && watches == old(watches) && outbox == old(outbox)
    {
      created := d.id.None?;
      if d.id.Some? {
        NotifyDecisionChange(d.id.value, d, minorEdit, domain);
        saved := UpdateDecision(d, clock);
      } else {
        saved := InsertDecision(d, clock);
      }
    }

    /** The watcher and notice part of feedback_signal_handler, as FeedbackPostSave describes it. */
    method NotifyFeedbackSaved(instance: Feedback, created: bool, minorEdit: bool, domain: string, org: OrgId)
      requires instance.id.Some?
      requires created ==> instance.author.Some?
      modifies this`watches, this`outbox
      ensures var e := FeedbackPostSave(old(watches), instance, instance.id.value, created, minorEdit, domain, org);
        watches == e.watches && outbox == old(outbox) + e.notices
    {
      var id := instance.id.value;
      var headers := FeedbackHeaders(id, instance.decision, domain);
      if created {
        Observe(FeedbackObj(id), instance.author.value, FeedbackChange);
        var observers := AllBut(Observers(watches, DecisionObj(instance.decision)), instance.author);
        outbox := outbox + [Notice(Send(FeedbackNew), observers, headers, org)];
      } else if EditNotifies(instance.author, instance.editor, minorEdit) {
        outbox := outbox + [Notice(ObservationNotices(FeedbackObj(id)), Observers(watches, FeedbackObj(id)), headers, org)];
      }
    }

    /** feedback_signal_handler: the parent decision is marked modified, then NotifyFeedbackSaved. */
    method FeedbackSignalHandler(instance: Feedback, created: bool, minorEdit: bool, domain: string, clock: Clock)
      requires instance.id.Some? && instance.decision in decisions
      requires created ==> instance.author.Some?
      modifies this`decisions, this`watches, this`outbox
      ensures decisions == old(decisions)[instance.decision := old(decisions[instance.decision]).(lastModified := Some(clock.instant))]
      ensures var e := FeedbackPostSave(old(watches), instance, instance.id.value, created, minorEdit, domain,
                                        old(decisions[instance.decision]).organization);
        watches == e.watches && outbox == old(outbox) + e.notices
    {
      NoteExternalModification(instance.decision, clock);
      NotifyFeedbackSaved(instance, created, minorEdit, domain, decisions[instance.decision].organization);
    }

    /**
     * Feedback.save (the model's own save): a feedback without an id, or
     * with one not yet stored, is inserted (created); otherwise its row is
     * replaced. `created` is what the post-save signal then passes to
     * FeedbackSignalHandler.
     */
    method SaveFeedback(f: Feedback) returns (saved: Feedback, created: bool)
      requires Valid()
      requires f.decision in decisions
      modifies this`feedbacks, this`nextFeedback
      ensures Valid()
      ensures created == (f.id.None? || f.id.value !in old(feedbacks))
      ensures var id := if f.id.Some? then f.id.value else old(nextFeedback);
        && saved == f.(id := Some(id))
        && feedbacks == old(feedbacks)[id := saved]
        && nextFeedback == (if id < old(nextFeedback) then old(nextFeedback) else id + 1)
    {
      created := f.id.None? || f.id.value !in feedbacks;
      var id := if f.id.Some? then f.id.value else nextFeedback;
      saved := f.(id := Some(id));
      var next := if nextFeedback <= id then id + 1 else nextFeedback;
      ValidAfterFeedbackStored(decisions, feedbacks, comments, orgUsers, nextDecision, nextFeedback, nextComment, saved, next);
      feedbacks, nextFeedback := feedbacks[id := saved], next;
    }

    /** The watcher and notice part of comment_signal_handler, as CommentPostSave describes it. */
    method NotifyCommentSaved(instance: Comment, decision: Id, created: bool, domain: string, org: OrgId)
      requires instance.id.Some?
      requires created ==> instance.user.Some?
      modifies this`watches, this`outbox
      ensures var e := CommentPostSave(old(watches), instance, instance.id.value, decision, created, domain, org);
        watches == e.watches && outbox == old(outbox) + e.notices
    {
      var id := instance.id.value;
      var headers := CommentHeaders(id, instance.feedback, domain);
      if created {
        Observe(CommentObj(id), instance.user.value, CommentChange);
        var observers := AllBut(Observers(watches, DecisionObj(decision)), instance.user);
        outbox := outbox + [Notice(Send(CommentNew), observers, headers, org)];
      } else {
        outbox := outbox + [Notice(ObservationNotices(CommentObj(id)), Observers(watches, CommentObj(id)), headers, org)];
      }
    }

    /** comment_signal_handler: the decision of the commented feedback is marked modified, then NotifyCommentSaved. */
    method CommentSignalHandler(instance: Comment, created: bool, domain: string, clock: Clock)
      requires instance.id.Some? && instance.feedback in feedbacks && feedbacks[instance.feedback].decision in decisions
      requires created ==> instance.user.Some?
      modifies this`decisions, this`watches, this`outbox
      ensures var decision := feedbacks[instance.feedback].decision;
        decisions == old(decisions)[decision := old(decisions[decision]).(lastModified := Some(clock.instant))]
      ensures var decision := feedbacks[instance.feedback].decision;
        var e := CommentPostSave(old(watches), instance, instance.id.value, decision, created, domain,
                                 old(decisions[decision]).organization);
        watches == e.watches && outbox == old(outbox) + e.notices
    {
      var decision := feedbacks[instance.feedback].decision;
      NoteExternalModification(decision, clock);
      NotifyCommentSaved(instance, decision, created, domain, decisions[decision].organization);
    }

    /** Comment.save, inserting or replacing as SaveFeedback does; `created` goes to CommentSignalHandler. */
    method SaveComment(c: Comment) returns (saved: Comment, created: bool)
      requires Valid()
      requires c.feedback in feedbacks
      modifies this`comments, this`nextComment
      ensures Valid()
      ensures created == (c.id.None? || c.id.value !in old(comments))
      ensures var id := if c.id.Some? then c.id.value else old(nextComment);
        && saved == c.(id := Some(id))
        && comments == old(comments)[id := saved]
        && nextComment == (if id < old(nextComment) then old(nextComment) else id + 1)
    {
      created := c.id.None? || c.id.value !in comments;
      var id := if c.id.Some? then c.id.value else nextComment;
      saved := c.(id := Some(id));
      var next := if nextComment <= id then id + 1 else nextComment;
      ValidAfterCommentStored(decisions, feedbacks, comments, orgUsers, nextDecision, nextFeedback, nextComment, saved, next);
      comments, nextComment := comments[id := saved], next;
    }

    /** Decision.unresolvedfeedback: "Yes" exactly when some feedback on the decision is unresolved. */
    method UnresolvedFeedback(id: Id) returns (answer: string)
      ensures answer == "Yes" || answer == "No"
      ensures answer == "Yes" <==> HasUnresolvedFeedback(feedbacks, id)
    {
      answer := "No";
      var linked := FeedbackOf(feedbacks, id);
      var rest := linked;
      while rest != {}
        invariant rest <= linked
        invariant forall f :: f in linked - rest ==> feedbacks[f].resolved
        decreases rest
      {
        var f :| f in rest;
        if !feedbacks[f].resolved {
          answer := "Yes";
          break;
        }
        rest := rest - {f};
      }
    }

    /**
     * Decision.get_feedback_statistics: every rating name maps to the number
     * of feedbacks on the decision with that rating.
     */
    method FeedbackStatistics(id: Id) returns (statistics: map<string, nat>)
      ensures statistics.Keys == set r: Rating :: RatingNames[r]
      ensures forall r: Rating :: statistics[RatingNames[r]] == RatingCount(feedbacks, id, r)
    {
      statistics := ZeroStatistics();
      var rawData := RatingGroups(feedbacks, id);
      statistics := CopyCounts(statistics, rawData);
      forall r: Rating ensures statistics[RatingNames[r]] == RatingCount(feedbacks, id, r) {
        if r !in rawData {
          AbsentRatingCountsZero(feedbacks, id, r);
        }
      }
    }
  }

  /** The first loop of get_feedback_statistics: every rating name mapped to zero. */
  method ZeroStatistics() returns (statistics: map<string, nat>)
    ensures statistics.Keys == set r: Rating :: RatingNames[r]
    ensures forall k :: k in statistics ==> statistics[k] == 0
  {
    statistics := map[];
    var i := 0;
    while i < |RatingNames|
      invariant 0 <= i <= |RatingNames|
      invariant statistics.Keys == set r: Rating | r < i :: RatingNames[r]
      invariant forall k :: k in statistics ==> statistics[k] == 0
    {
      statistics := statistics[RatingNames[i] := 0];
      i := i + 1;
    }
  }

  /** The second loop of get_feedback_statistics: each group's count stored under its rating's name. */
  method CopyCounts(zeros: map<string, nat>, rawData: map<Rating, nat>) returns (statistics: map<string, nat>)
    requires zeros.Keys == set r: Rating :: RatingNames[r]
    requires forall k :: k in zeros ==> zeros[k] == 0
    ensures statistics.Keys == zeros.Keys
    ensures forall r: Rating :: statistics[RatingNames[r]] == if r in rawData then rawData[r] else 0
  {
    statistics := zeros;
    var rest := rawData.Keys;
    while rest != {}
      invariant rest <= rawData.Keys
      invariant statistics.Keys == zeros.Keys
      invariant forall r: Rating :: statistics[RatingNames[r]] == if r in rawData && r !in rest then rawData[r] else 0
      decreases rest
    {
      var r :| r in rest;
      ghost var before := statistics;
      statistics := statistics[RatingNames[r] := rawData[r]];
      rest := rest - {r};
      forall q: Rating | q != r ensures statistics[RatingNames[q]] == before[RatingNames[q]] {
        RatingNamesDistinct();
        assert RatingNames[q] != RatingNames[r];
      }
    }
  }

  /** A rating with no group has no feedback on the decision. */
  lemma AbsentRatingCountsZero(feedbacks: map<Id, Feedback>, id: Id, r: Rating)
    requires r !in RatingGroups(feedbacks, id)
    ensures RatingCount(feedbacks, id, r) == 0
  {
    var s := set f | f in feedbacks && feedbacks[f].decision == id && feedbacks[f].rating == r;
    assert s == {};
  }
}
