/**
 * The watcher relation (who observes which object, for which notice type)
 * and the notifications sent, recorded in an outbox.
 */
module Notifications {
  import opened Options
  import opened Decisions

  /** An object that can be watched. */
  datatype ObjRef = DecisionObj(id: Id) | FeedbackObj(id: Id) | CommentObj(id: Id)

  /** The notice types the handlers use. */
  datatype NoticeType = DecisionNew | DecisionChange | FeedbackNew | FeedbackChange | CommentNew | CommentChange

  /** The notice type of the change subscription for each kind of object. */
  function ChangeNotice(o: ObjRef): (n: NoticeType)
    ensures n in {DecisionChange, FeedbackChange, CommentChange}
  {
    match o
    case DecisionObj(_) => DecisionChange
    case FeedbackObj(_) => FeedbackChange
    case CommentObj(_) => CommentChange
  }

  /** An observed-item row: `user` watches `obj` for notices of type `notice`. */
  datatype Watch = Watch(user: User, obj: ObjRef, notice: NoticeType)

  /** The users watching `o` (obj.watchers.all(), as users). */
  function Observers(w: set<Watch>, o: ObjRef): set<User>
  {
    set x | x in w && x.obj == o :: x.user
  }

  /** A user observes `o` exactly when some row has that user watching `o`, for some notice type. */
  lemma ObserversMeaning(w: set<Watch>, o: ObjRef, u: User)
    ensures u in Observers(w, o) <==> exists n :: Watch(u, o, n) in w
  {
    if u in Observers(w, o) {
      var x :| x in w && x.obj == o && x.user == u;
      assert Watch(u, o, x.notice) == x;
    }
  }

  /** The rows notification.observe(o, u, n) adds for every user u of `users`. */
  function ObserveAll(users: set<User>, o: ObjRef, n: NoticeType): (r: set<Watch>)
    ensures forall u :: u in users <==> Watch(u, o, n) in r
    ensures forall x :: x in r ==> x.obj == o && x.notice == n
  {
    set u | u in users :: Watch(u, o, n)
  }

  /** Observing for one more user adds exactly that user's row. */
  lemma ObserveAllStep(users: set<User>, u: User, o: ObjRef, n: NoticeType)
    ensures ObserveAll(users + {u}, o, n) == ObserveAll(users, o, n) + {Watch(u, o, n)}
  {
  }

  /** The users observing `o` in ObserveAll(users, o, n) are exactly `users`. */
  lemma ObserversOfObserveAll(users: set<User>, o: ObjRef, n: NoticeType)
    ensures Observers(ObserveAll(users, o, n), o) == users
  {
  }

  /**
   * `users` with the author excluded (queryset.exclude(user=author)); an
   * absent author excludes nobody.
   */
  function AllBut(users: set<User>, author: Option<User>): (r: set<User>)
    ensures forall u :: u in r <==> u in users && author != Some(u)
  {
    if author.Some? then users - {author.value} else users
  }

  /**
   * The watcher relation after deleting every row of the objects in
   * `targets` and observing each of them, for its change notice, by every
   * user of `users`.
   */
  function RebuildWatches(w: set<Watch>, targets: set<ObjRef>, users: set<User>): set<Watch>
  {
    (set x | x in w && x.obj !in targets) + (set u, o | u in users && o in targets :: Watch(u, o, ChangeNotice(o)))
  }

  /**
   * After a rebuild every target is watched by exactly `users`, and every
   * other object keeps its watchers.
   */
  lemma RebuildObservers(w: set<Watch>, targets: set<ObjRef>, users: set<User>, o: ObjRef)
    ensures o in targets ==> Observers(RebuildWatches(w, targets, users), o) == users
    ensures o !in targets ==> Observers(RebuildWatches(w, targets, users), o) == Observers(w, o)
  {
    var r := RebuildWatches(w, targets, users);
    if o in targets {
      forall u | u in users ensures u in Observers(r, o) {
        assert Watch(u, o, ChangeNotice(o)) in r;
      }
    } else {
      forall u | u in Observers(w, o) ensures u in Observers(r, o) {
        var n :| Watch(u, o, n) in w;
        assert Watch(u, o, n) in r;
      }
    }
  }

  /** A rebuild leaves exactly the change rows behind for a target. */
  lemma RebuildRowsOfTarget(w: set<Watch>, targets: set<ObjRef>, users: set<User>, x: Watch)
    requires x.obj in targets
    ensures x in RebuildWatches(w, targets, users) <==> x.user in users && x.notice == ChangeNotice(x.obj)
  {
  }

  /** Rebuilding two sets of objects one after the other is one rebuild of both. */
  lemma RebuildTwice(w: set<Watch>, t: set<ObjRef>, s: set<ObjRef>, users: set<User>)
    ensures RebuildWatches(RebuildWatches(w, t, users), s, users) == RebuildWatches(w, t + s, users)
  {
    var lhs := RebuildWatches(RebuildWatches(w, t, users), s, users);
    var rhs := RebuildWatches(w, t + s, users);
    forall x | x in rhs ensures x in lhs {
      if x.obj in t && x.obj !in s {
        assert x in RebuildWatches(w, t, users);
      }
    }
  }

  /** How a notification went out. */
  datatype Via =
    | Send(notice: NoticeType)   // notification.send to an explicit recipient list
    | ObservationNotices(obj: ObjRef)   // send_observation_notices_for(obj)

  /**
   * One outbox entry: the recipients (for an observation notice, the
   * object's observers at the time of sending), the headers, and the
   * organization whose address it is sent from.
   */
  datatype Notice = Notice(via: Via, recipients: set<User>, headers: map<string, string>, fromOrg: OrgId)
}
