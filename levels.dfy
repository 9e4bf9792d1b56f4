/**
 * The cumulative notification levels of NotificationSettings and
 * OrganizationSettings: a higher level receives everything a lower one does.
 */
module NotificationLevels {

  const NoNotifications: int := 0
  const MainItemsNotificationsOnly: int := 1
  const FeedbackAddedNotifications: int := 2
  const FeedbackMajorChanges: int := 3
  const MinorChangesNotifications: int := 4

  /** NOTIFICATION_LEVELS: (level, label) pairs. */
  const Levels: seq<(int, string)> := [
    (NoNotifications, "1. Silent"),
    (MainItemsNotificationsOnly, "2. Major events"),
    (FeedbackAddedNotifications, "3. Feedback and changes"),
    (FeedbackMajorChanges, "4. Full discussion"),
    (MinorChangesNotifications, "5. Everything, even minor changes")]

  /** The default level of a NotificationSettings row. */
  const DefaultNotificationLevel: int := MainItemsNotificationsOnly

  /** A level is one of the choices. */
  predicate IsLevel(level: int)
  {
    exists i :: 0 <= i < |Levels| && Levels[i].0 == level
  }

  /** The label shown for a level. */
  function LevelLabel(level: int): (r: string)
    requires IsLevel(level)
    ensures exists i :: 0 <= i < |Levels| && Levels[i] == (level, r)
    ensures r[0] as int - '1' as int == level
  {
    Levels[level].1
  }

  /**
   * The table is indexed by level: the levels are 0 to 4 in order, so
   * "level >= threshold" is the cumulative test the comments describe, and
   * each label is numbered one above its level.
   */
  lemma LevelsAreIndices()
    ensures |Levels| == 5
    ensures forall i :: 0 <= i < |Levels| ==> Levels[i].0 == i
    ensures forall level :: IsLevel(level) <==> 0 <= level < 5
    ensures IsLevel(DefaultNotificationLevel)
  {
    forall level | 0 <= level < 5 ensures IsLevel(level) {
      assert Levels[level].0 == level;
    }
  }
}
