# econsensus publicweb business rules in Dafny

This project models the business-rules layer of econsensus's `publicweb` models
(`django/econsensus/publicweb/models.py`): decisions, the feedback on them, and
comments on feedback, plus the watcher ("observed item") relation and the
notices the application sends. The state is an in-memory `Store` (class
`Models.Store`) with these fields:

- maps from database keys to rows for the three tables;
- the organizations' user sets and the set of active users;
- a set of watcher rows, each a (user, object, notice type) triple;
- an outbox of sent notices;
- the next key each table hands out.

The current time and the site's domain are passed in as parameters.

The files are:

- `excerpt.dfy` (module `Excerpts`): `Decision._get_excerpt`, with an independent description of an excerpt (`IsExcerptOf`). The lemmas show the function is the only solution of that description.
- `decision.dfy` (module `Decisions`): the decision record, `TRIGGER_FIELDS`, `_is_same`, and the row `Decision.save` writes for a stored or a new decision.
- `feedback.dfy` (module `Feedbacks`):
  - the rating table (`rating_names`, `RATING_CHOICES` and the `*_STATUS` constants);
  - the feedback and comment records;
  - `get_author_name`.
- `levels.dfy` (module `NotificationLevels`): the cumulative notification levels and their labels.
- `message_ids.dfy` (module `MessageIds`):
  - the three Message-ID formats, with a parser that reads them back;
  - the standard sending headers;
  - the `In-Reply-To` header.
- `notification.dfy` (module `Notifications`):
  - the watcher relation and its observers;
  - `observe`;
  - the rebuild that replaces the watchers of a set of objects with a fixed user set;
  - the outbox notice.
- `rules.dfy` (module `Rules`): each post-save handler, and the notifying part of `Decision.save`, as a pure function from the old watcher relation to an `Effect`. An `Effect` is the new watcher relation plus the notices sent. The lemmas state the recipient rules.
- `store.dfy` (module `Models`): the `Store` class.
  - Its methods are `Decision.save`, `note_external_modification`, `_update_notification_for_org_change` (nested loops over sets), the three signal handlers, the saves of feedback and comments, `unresolvedfeedback` (a loop with `break`) and `get_feedback_statistics` (a dictionary filled in place).
  - Each method is specified by the functions of `Rules`, `Decisions` and `Notifications`.
  - The invariant `Valid` holds the table consistency: keys match row ids, foreign keys resolve, and stored excerpts are those of their descriptions.

Django runs a `post_save` receiver right after each save and passes it the
`created` flag. The model keeps the two apart. `SaveDecision`, `SaveFeedback`
and `SaveComment` return `created`, and the caller hands it to
`DecisionSignalHandler`, `FeedbackSignalHandler` or `CommentSignalHandler`.

## Model

| member | source | states |
|---|---|---|
| Excerpts.FirstStop | django/econsensus/publicweb/models.py:134 | The search position: no `.`, `\r` or `\n` before it, and one at it unless it is the end of the text. |
| Excerpts.ExcerptIsExcerpt | django/econsensus/publicweb/models.py:132-140 | The excerpt has these properties: it is a prefix of the description, at most 140 characters, and free of stop characters. It ends at the size limit, at the end of the text, or just before a stop character. |
| Excerpts.ExcerptUnique | django/econsensus/publicweb/models.py:132-140 | Any string with those properties is the excerpt, so the description determines `_get_excerpt` completely. |
| Excerpts.ExcerptProperties | django/econsensus/publicweb/models.py:132-140 | The excerpt is a prefix of at most 140 characters with no `.`, `\r` or `\n`. If a stop occurs before index 140, it ends exactly at the first one. Otherwise it is the first min(140, length) characters. |
| Excerpts.ExcerptIdempotent | django/econsensus/publicweb/models.py:132-140 | Recomputing the excerpt of an excerpt returns it unchanged. |
| Decisions.SameOnAll | django/econsensus/publicweb/models.py:197-201 | The early-return loop of `_is_same` over a field list is true exactly when every listed attribute compares equal. |
| Decisions.IsSameIff | django/econsensus/publicweb/models.py:103-105 | `_is_same(a, b)` holds exactly when all thirteen `TRIGGER_FIELDS` are pairwise equal (both directions). |
| Decisions.IsSameIgnoresOtherFields | django/econsensus/publicweb/models.py:197-201 | Changing id, tags, organization, author, editor, last_status or last_modified never changes the result of `_is_same`. |
| Decisions.IsSameEquivalence | django/econsensus/publicweb/models.py:197-201 | `_is_same` is reflexive, symmetric and transitive. |
| Decisions.StatusName | django/econsensus/publicweb/models.py:46-56 | The `status` CharField stores one of the four `STATUS_CHOICES` names. |
| Decisions.StatusNameInjective | django/econsensus/publicweb/models.py:46-56 | Distinct statuses store distinct names, so comparing the stored text compares the status. |
| Decisions.TriggerFieldsEqualAt | django/econsensus/publicweb/models.py:103-105 | Equal trigger fields give equal `getattr` values for every field named in `TRIGGER_FIELDS`. |
| Decisions.CreatedRow | django/econsensus/publicweb/models.py:206-216 | A new decision is stored under the key the database hands out. Its excerpt is recomputed, `last_modified` and `creation` get the clock (auto_now_add), and every other field is the instance's. |
| Decisions.UpdatedRowLastModified | django/econsensus/publicweb/models.py:206-216 | Saving a stored decision recomputes the excerpt. It sets `last_modified` to the clock exactly when a trigger field differs from the stored copy, compared after the excerpt is recomputed. Otherwise it keeps the instance's `last_modified`. All other fields come from the instance. |
| Decisions.ResaveKeepsLastModified | django/econsensus/publicweb/models.py:206-216 | Re-saving a stored row unchanged writes back the same row: no trigger field differs, so `last_modified` stays. |
| Feedbacks.IndexOf | django/econsensus/publicweb/models.py:236-242 | `tuple.index`: the first position holding the name. |
| Feedbacks.RatingNamesDistinct | django/econsensus/publicweb/models.py:230-234 | The five rating names are pairwise distinct. |
| Feedbacks.RatingIndexOfName | django/econsensus/publicweb/models.py:236-242 | The index of each rating's name is that rating, so `rating_names.index` and indexing are inverse. |
| Feedbacks.RatingChoices | django/econsensus/publicweb/models.py:236 | `RATING_CHOICES` pairs each rating index with its name, in order. |
| Feedbacks.QuestionStatus | django/econsensus/publicweb/models.py:238 | `QUESTION_STATUS` is 0 and names "question". |
| Feedbacks.DangerStatus | django/econsensus/publicweb/models.py:239 | `DANGER_STATUS` is 1 and names "danger". |
| Feedbacks.ConcernsStatus | django/econsensus/publicweb/models.py:240 | `CONCERNS_STATUS` is 2 and names "concerns". |
| Feedbacks.ConsentStatus | django/econsensus/publicweb/models.py:241 | `CONSENT_STATUS` is 3 and names "consent". |
| Feedbacks.CommentStatus | django/econsensus/publicweb/models.py:242 | `COMMENT_STATUS` is 4 and names "comment". |
| Feedbacks.AuthorName | django/econsensus/publicweb/models.py:268-272 | The result is the author's username when there is an author with a non-empty username. Otherwise it is "An Anonymous Contributor". It is never empty. |
| NotificationLevels.LevelLabel | django/econsensus/publicweb/models.py:282-298 | The label of a level is its entry in `NOTIFICATION_LEVELS`, and it is numbered one above the level. |
| NotificationLevels.LevelsAreIndices | django/econsensus/publicweb/models.py:280-298 | There are five levels and each is its own index (0 to 4), so the levels can be compared cumulatively. The default level is one of them. |
| MessageIds.DigitChar | django/econsensus/publicweb/models.py:173 | A digit character has the given value. |
| MessageIds.NatToString | django/econsensus/publicweb/models.py:173 | `%s` of an id is a non-empty string of decimal digits. |
| MessageIds.DigitsValueOfNatToString | django/econsensus/publicweb/models.py:173 | Reading the decimal digits back gives the id. |
| MessageIds.DigitRun | django/econsensus/publicweb/models.py:173 | The length of the leading run of digits of a string. |
| MessageIds.DigitRunOfDigitsThen | django/econsensus/publicweb/models.py:173 | A run of digits followed by a non-digit is read up to that non-digit. |
| MessageIds.MessageIdShape | django/econsensus/publicweb/models.py:173 | Ids in the bracketed `<{kind}-{id}@{domain}>` format contain an `@` inside the brackets, the shape of an RFC 5322 msg-id. That covers the decision and feedback ids of lines 173 and 278, and the corrected comment id (see Findings), but not the comment id line 374 sends. |
| MessageIds.CommentMessageIdIsMsgId | django/econsensus/publicweb/models.py:374 | The corrected, bracketed comment id `<comment-{id}@{domain}>` is msg-id shaped (see Findings). |
| MessageIds.ParseAfterPrefixRoundTrip | django/econsensus/publicweb/models.py:278 | `{id}@{domain}` parses back to that id and domain. |
| MessageIds.ParseInnerRoundTrip | django/econsensus/publicweb/models.py:278 | The kind prefix is recognised and removed. |
| MessageIds.ParseMessageIdRoundTrip | django/econsensus/publicweb/models.py:173 | Parsing `<{kind}-{id}@{domain}>` returns that kind, id and domain. |
| MessageIds.MessageIdInjective | django/econsensus/publicweb/models.py:278 | Distinct (kind, id, domain) triples give distinct ids in the bracketed format, which is the one lines 173 and 278 use. |
| MessageIds.ParseSentMessageIdRoundTrip | django/econsensus/publicweb/models.py:374 | Every id a notice is sent with reads back as its kind, id and domain. That covers the bracketed decision and feedback ids and the unbracketed comment id of line 374. |
| MessageIds.SentMessageIdInjective | django/econsensus/publicweb/models.py:374 | The ids the handlers send are unique: two equal sent ids have the same kind, id and domain. This includes the unbracketed comment ids of line 374, so a comment id never equals a decision or feedback id. |
| MessageIds.CommentIdNeverBracketed | django/econsensus/publicweb/models.py:374 | The comment id line 374 sends differs from every bracketed id, of any kind, id and domain. |
| MessageIds.CommentMessageIdAsWrittenIsNotMsgId | django/econsensus/publicweb/models.py:374 | The comment Message-ID the handler builds has no angle brackets and is not a msg-id (see Findings). |
| MessageIds.SendingHeaders | django/econsensus/publicweb/models.py:40 | The headers are exactly Message-ID, `Precedence: bulk` and `Auto-Submitted: auto-generated`, plus In-Reply-To when a parent is given. Each key carries its given value. |
| Notifications.ChangeNotice | django/econsensus/publicweb/models.py:179-190 | The notice type the rebuild observes each kind of object with is one of the three change notices. |
| Notifications.ObserversMeaning | django/econsensus/publicweb/models.py:357-358 | A user is an observer of an object exactly when some watcher row links them to it. |
| Notifications.ObserveAll | django/econsensus/publicweb/models.py:178-179 | Observing every user of a set adds exactly one row per user, and every row added is for that object and notice type. |
| Notifications.ObserveAllStep | django/econsensus/publicweb/models.py:178-179 | Observing one more user adds exactly that user's row. |
| Notifications.ObserversOfObserveAll | django/econsensus/publicweb/models.py:178-179 | After observing a set of users, the object's observers are exactly that set. |
| Notifications.AllBut | django/econsensus/publicweb/models.py:331 | `exclude(username=author)`: the users other than the author (all of them when there is no author). |
| Notifications.RebuildObservers | django/econsensus/publicweb/models.py:175-190 | After the rebuild, every target object is observed by exactly the given users. Every other object keeps its observers. |
| Notifications.RebuildRowsOfTarget | django/econsensus/publicweb/models.py:175-190 | A target's row survives the rebuild exactly when it is a given user with the object's change notice. |
| Notifications.RebuildTwice | django/econsensus/publicweb/models.py:175-190 | Rebuilding two target sets one after the other with the same users equals one rebuild over their union. |
| Rules.FeedbackOf | django/econsensus/publicweb/models.py:180 | `feedback_set.all()`: the feedbacks whose decision is the given one. |
| Rules.CommentsOf | django/econsensus/publicweb/models.py:184 | `feedback.comments.all()` over a set of feedbacks: the comments on one of them. |
| Rules.RebuildTargets | django/econsensus/publicweb/models.py:175-190 | The rebuilt objects are the decision, each of its feedbacks, and each comment on them, and no other decision. |
| Rules.RebuildTargetsStep | django/econsensus/publicweb/models.py:180-190 | One more feedback adds itself and its comments to the rebuilt objects. |
| Rules.EditNotifies | django/econsensus/publicweb/models.py:362-363 | An edit notifies unless the author made it and flagged it minor. An edit by someone else always notifies. |
| Rules.RatingGroups | django/econsensus/publicweb/models.py:163 | `values('rating').annotate(Count('rating'))`: one group per rating that occurs on the decision's feedback, holding its positive count. |
| Rules.HeadersAreStandard | django/econsensus/publicweb/models.py:327-328 | Decision notices carry their own Message-ID and no In-Reply-To. Feedback notices reply to the decision's id (lines 346-348). Comment notices carry the unbracketed `comment-{id}@{domain}` id and reply to the feedback's id (lines 374-376). Each Message-ID is the object's sent id, so by `SentMessageIdInjective` no two objects share one. All carry the standard headers. |
| Rules.DecisionCreatedRule | django/econsensus/publicweb/models.py:329-336 | On creation, the active organization users become exactly the new watchers of the decision, and no other object's watchers change. One "decision new" notice goes to the active users other than the author, headed with the decision's message id. |
| Rules.ObserversOfUnion | django/econsensus/publicweb/models.py:354-357 | The observers of a union of watcher rows are the union of the observers. |
| Rules.RebuildBeforeNotice | django/econsensus/publicweb/models.py:210-213 | When the organization changed and the edit is not minor, the decision, its feedbacks and their comments are each watched by exactly the new organization's users. Other objects keep their watchers. The single change notice goes to exactly those users, so the rebuild happens before the send. |
| Rules.ChangeNoticeUnlessMinor | django/econsensus/publicweb/models.py:192-195 | Saving a stored decision sends one change notice exactly when the edit is not minor (lines 212-213), whatever else changed. The notice goes to the decision's observers after any rebuild, and is headed with the decision's message id and the standard headers. An unchanged organization leaves the watchers alone. |
| Rules.FeedbackCreatedRule | django/econsensus/publicweb/models.py:352-360 | On creation, whatever `minor_edit` is, the author is added as a watcher of the feedback. One "feedback new" notice goes to the decision's watchers other than the author. It carries the feedback headers, in reply to the decision's message id. |
| Rules.FeedbackEditedRule | django/econsensus/publicweb/models.py:361-364 | An edit leaves the watchers alone. It sends no notice exactly when author equals editor and the edit is minor. Otherwise it sends one notice to the feedback's observers, with the feedback headers. |
| Rules.CommentCreatedRule | django/econsensus/publicweb/models.py:380-388 | On creation, the writer is added as a watcher of the comment. One "comment new" notice goes to the decision's watchers other than the writer. It carries the comment headers, in reply to the feedback's message id. |
| Rules.CommentEditedRule | django/econsensus/publicweb/models.py:389-390 | An edit of any comment, anonymous or not, leaves the watchers alone. It sends exactly one observation notice to the comment's observers, with the comment headers. |
| Models.ValidAfterDecisionStored | django/econsensus/publicweb/models.py:216 | Storing a consistent decision row under its own key keeps the tables consistent. |
| Models.ValidAfterFeedbackStored | django/econsensus/publicweb/models.py:247 | Storing a feedback on an existing decision keeps the tables consistent. |
| Models.ValidAfterCommentStored | django/econsensus/publicweb/models.py:252 | Storing a comment on an existing feedback keeps the tables consistent. |
| Models.ValidAfterModificationNoted | django/econsensus/publicweb/models.py:218-226 | Moving a stored decision's `last_modified` keeps the tables consistent. |
| Models.Store.constructor | django/econsensus/publicweb/models.py:43-100 | An empty, consistent store over the given organizations and active users. |
| Models.Store.ActiveOrgUsers | django/econsensus/publicweb/models.py:330 | `organization.users.filter(is_active=True)`: the organization's users that are active. |
| Models.Store.Observe | django/econsensus/publicweb/models.py:179 | `notification.observe` adds exactly that watcher row. |
| Models.Store.ObserveEach | django/econsensus/publicweb/models.py:178-179 | The observe loop adds exactly `ObserveAll` of the users. |
| Models.Store.ReplaceWatchers | django/econsensus/publicweb/models.py:181-183 | Deleting an object's watchers and observing it for each user gives the single-object rebuild. |
| Models.Store.ReplaceWatchersOfAll | django/econsensus/publicweb/models.py:184-190 | Doing that for each object of a set gives the rebuild over the set. |
| Models.Store.UpdateNotificationForOrgChange | django/econsensus/publicweb/models.py:175-190 | The nested loops leave the watchers as the rebuild of the decision, its feedbacks and their comments to the new organization's users. |
| Models.Store.NoteExternalModification | django/econsensus/publicweb/models.py:218-226 | Only the decision's `last_modified` changes, to the clock. No watcher and no notice is touched (nothing else is in the method's frame). |
| Models.Store.DecisionSignalHandler | django/econsensus/publicweb/models.py:319-336 | The new watchers and outbox are those of `DecisionPostSave`: on creation, all active users observe the decision and all but the author are sent "decision new". Otherwise nothing changes. |
| Models.Store.NotifyDecisionChange | django/econsensus/publicweb/models.py:208-213 | The watchers and outbox are those of `DecisionChangeEffect`: the rebuild on an organization change, then the change notice unless the edit is minor. |
| Models.Store.UpdateDecision | django/econsensus/publicweb/models.py:207-216 | The stored row becomes `UpdatedRow` of the instance and the stored copy, and the store stays consistent. |
| Models.Store.InsertDecision | django/econsensus/publicweb/models.py:207-216 | A new decision gets a fresh key and is stored as `CreatedRow`. The key counter advances and the store stays consistent. |
| Models.Store.SaveDecision | django/econsensus/publicweb/models.py:206-216 | For a stored decision, the row is `UpdatedRow` and the watchers and outbox are those of `DecisionChangeEffect`. A new decision is inserted as `CreatedRow` with no comparison, rebuild or notice. `created` says which path ran. |
| Models.Store.NotifyFeedbackSaved | django/econsensus/publicweb/models.py:352-364 | The watchers and outbox are those of `FeedbackPostSave`. |
| Models.Store.FeedbackSignalHandler | django/econsensus/publicweb/models.py:338-364 | The parent decision's `last_modified` becomes the clock, always. The watchers and outbox are those of `FeedbackPostSave`. |
| Models.Store.SaveFeedback | django/econsensus/publicweb/models.py:244-252 | The feedback is stored under its id, or under a fresh key when it has none. `created` says whether the row is new, and the store stays consistent. |
| Models.Store.NotifyCommentSaved | django/econsensus/publicweb/models.py:380-390 | The watchers and outbox are those of `CommentPostSave`. |
| Models.Store.CommentSignalHandler | django/econsensus/publicweb/models.py:366-390 | The decision of the commented feedback has its `last_modified` set to the clock. The watchers and outbox are those of `CommentPostSave`. |
| Models.Store.SaveComment | django/econsensus/publicweb/models.py:252 | The comment is stored under its id, or under a fresh key, with the same rules as feedback. |
| Models.Store.UnresolvedFeedback | django/econsensus/publicweb/models.py:114-123 | The answer is "Yes" exactly when some feedback on the decision is unresolved, and "No" otherwise. |
| Models.Store.FeedbackStatistics | django/econsensus/publicweb/models.py:161-167 | Every rating name is a key, and there are no other keys. Each maps to the number of feedbacks on the decision with that rating. |
| Models.ZeroStatistics | django/econsensus/publicweb/models.py:162 | A dictionary with every rating name mapped to 0. |
| Models.CopyCounts | django/econsensus/publicweb/models.py:164-166 | The counted ratings take their counts, and the others stay 0. The keys stay the rating names. |
| Models.AbsentRatingCountsZero | django/econsensus/publicweb/models.py:163-166 | A rating with no group has count zero, so leaving its zero in place is right. |

## Left out

- The Django ORM is modelled as maps keyed by id. `objects.get(id=…)` and foreign-key dereferences are map lookups that the callers must make valid. Query ordering is not modelled, because no rule depends on it.
- `Site.objects.get_current().domain` and `timezone.now()` are parameters (`domain`, `clock`).
- `strip_tags` is a library call. The excerpt is computed over text whose tags are already stripped.
- `get_email` (models.py:153-159) uses a Python regular expression over a settings value. A notice records the decision's organization instead of a From address.
- The external `notification` package and `send_observation_notices_for` are not part of this model. A send is an outbox entry: the kind of notice, the recipients, the headers and the organization. For observation notices, the recipients are the object's observers at the time of the send. Per-user notification-level filtering happens inside that package.
- Translation wrappers (`_`, `ugettext_noop`): labels are plain strings. `unresolvedfeedback` answers the untranslated "Yes"/"No".
- `feedbackcount`, `get_fields`, `get_absolute_url`, `get_parent_url`, `__unicode__`, `NotificationSettings`, `OrganizationSettings`: accessors and declarations with no rule to state.
- The `DecisionManager` module and the signal constants' module are not part of this model. Notice types are an enumeration.
- The forms, configuration registration, JavaScript and web tests: no business rule.
- Concurrency: the lost update between two concurrent saves is not modelled. Every operation runs sequentially.
- Instances are values. The `Store` methods take a decision, feedback or comment and return the saved row. Aliasing between in-memory copies of one row is not modelled.
- The docstrings of the feedback and comment handlers (models.py:343 and 371) say that all watchers become observers of the new object. The code (lines 354 and 382) observes only the author or the writer, as the comment at line 353 says, and the model follows the code.
- The watcher table is a set, so duplicate `ObservedItem` rows for the same user, object and notice type collapse to one.
- Ratings are the integers 0..4. Python's negative indexing and the `IndexError` for other stored values are not modelled.
- `Models.Store.SaveFeedback`, `Models.Store.SaveComment`: an explicit id that is not yet stored inserts the row under that id. The key counter moves past it. The database's own sequence behaviour is not modelled beyond that.
- `Decisions.CreatedRow`: `if self.id` treats id 0 as new. Keys here are positive, so that case does not arise.
- `Models.Store.DecisionSignalHandler`, `Models.Store.FeedbackSignalHandler`, `Models.Store.CommentSignalHandler`, `Models.Store.NoteExternalModification`: they do not state that `Valid` is preserved. The only table change they make is the `last_modified` update, and `Models.ValidAfterModificationNoted` proves that this keeps the tables consistent.
- `Models.Store.FeedbackSignalHandler`, `Models.Store.CommentSignalHandler`: they require the author or commenting user on creation, because `observe` with no user would break the watcher table's non-null user column.

## Findings

| source | as written | input that shows it | evidently intended | confidence | as-written member | corrected member |
|---|---|---|---|---|---|---|
| django/econsensus/publicweb/models.py:374 | The comment Message-ID is `comment-{id}@{domain}`, without angle brackets, unlike the decision and feedback ids at lines 173 and 278. The handler model (`Rules.CommentHeaders`) sends it as written. | id 7, domain `example.org` gives `comment-7@example.org`, which is not an RFC 5322 msg-id and which mail clients will not thread on. | `<comment-{id}@{domain}>`, the bracketed form the other two use. | not executed | MessageIds.CommentMessageIdAsWrittenIsNotMsgId | MessageIds.CommentMessageIdIsMsgId |
