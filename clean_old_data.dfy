/**
 * The clean-up of activities without a source (old demo data): their
 * records, laps and the activities themselves are deleted, and both
 * statistics caches are emptied. Each `DELETE` is the table filtered by
 * its `WHERE` clause.
 */
module CleanOldData {
  import opened Js
  import opened Text
  import opened Store
  import opened Grouping

  /** `source IS NULL OR source = '' OR source = 'unknown'`. */
  predicate Sourceless(a: Activity)
  {
    a.source.None? || a.source.value == "" || a.source.value == "unknown"
  }

  predicate HasSource(a: Activity)
  {
    !Sourceless(a)
  }

  /** The subquery `SELECT activity_id FROM activities WHERE <sourceless>`. */
  function SourcelessIds(activities: seq<Activity>): (r: set<string>)
    ensures forall a :: a in activities && Sourceless(a) ==> a.activityId in r
    ensures forall id :: id in r ==> exists a :: a in activities && Sourceless(a) && a.activityId == id
  {
    set a | a in activities && Sourceless(a) :: a.activityId
  }

  /** `SELECT COUNT(*) FROM activities WHERE <sourceless>`. */
  function CountSourceless(activities: seq<Activity>): (r: nat)
    ensures r == 0 <==> forall a :: a in activities ==> HasSource(a)
  {
    var r := Filter(activities, Sourceless);
    assert r != [] ==> r[0] in r;
    |r|
  }

  /** The laps left by `DELETE FROM activity_laps WHERE activity_id IN ids`. */
  function LapsOutside(laps: seq<Lap>, ids: set<string>): (r: seq<Lap>)
    ensures forall l :: l in r <==> l in laps && l.activityId !in ids
  {
    Filter(laps, (l: Lap) => l.activityId !in ids)
  }

  /** The records left by `DELETE FROM activity_records WHERE activity_id IN ids`. */
  function RecordsOutside(records: seq<Record>, ids: set<string>): (r: seq<Record>)
    ensures forall x :: x in r <==> x in records && x.activityId !in ids
  {
    Filter(records, (x: Record) => x.activityId !in ids)
  }

  datatype Response = Response(success: bool, message: string)

  const NothingToClean: string := "没有需要清理的数据"

  /** The success message with the numbers of deleted activities, laps and records. */
  function CleanedMessage(activities: nat, laps: nat, records: nat): string
  {
    "已清理 " + NatToString(activities) + " 条活动、" + NatToString(laps) + " 条分段、" +
    NatToString(records) + " 条记录"
  }

  /** The POST handler: with no sourceless activity nothing changes;
      otherwise the three deletes run in order, the caches are emptied,
      and the message reports how many rows each delete removed. */
  method Clean(db: Database) returns (response: Response)
    modifies db
    ensures CountSourceless(old(db.activities)) == 0 ==>
      response == Response(true, NothingToClean) &&
      db.activities == old(db.activities) && db.laps == old(db.laps) && db.records == old(db.records) &&
      db.hrZoneCache == old(db.hrZoneCache) && db.vdotTrendCache == old(db.vdotTrendCache)
    ensures CountSourceless(old(db.activities)) != 0 ==>
      var ids := SourcelessIds(old(db.activities));
      db.activities == Filter(old(db.activities), HasSource) &&
      db.laps == LapsOutside(old(db.laps), ids) &&
      db.records == RecordsOutside(old(db.records), ids) &&
      db.hrZoneCache == map[] && db.vdotTrendCache == map[] &&
      response == Response(true, CleanedMessage(|old(db.activities)| - |db.activities|,
                                                |old(db.laps)| - |db.laps|,
                                                |old(db.records)| - |db.records|))
  {
    var count := CountSourceless(db.activities);
    if count == 0 {
      return Response(true, NothingToClean);
    }
    var activities, laps, records := db.activities, db.laps, db.records;

    db.records := RecordsOutside(records, SourcelessIds(activities));
    var recordsChanges := |records| - |db.records|;

    db.laps := LapsOutside(laps, SourcelessIds(db.activities));
    var lapsChanges := |laps| - |db.laps|;

    db.activities := Filter(activities, HasSource);
    var activitiesChanges := |activities| - |db.activities|;

    db.ClearCaches();
    response := Response(true, CleanedMessage(activitiesChanges, lapsChanges, recordsChanges));
  }

  /** The number of activities the clean-up reports is the number it counted first. */
  lemma ActivitiesRemovedCounted(activities: seq<Activity>)
    ensures |activities| - |Filter(activities, HasSource)| == CountSourceless(activities)
  {
    FilterSplit(activities, HasSource, Sourceless);
  }

  /** After a clean-up every activity has a source, so a second one changes nothing. */
  lemma CleanIdempotent(activities: seq<Activity>)
    ensures CountSourceless(Filter(activities, HasSource)) == 0
  {
  }

  /** Activities with a source, and the laps and records of activities not
      deleted, all survive the clean-up. */
  lemma SourcedRowsKept(activities: seq<Activity>, laps: seq<Lap>, records: seq<Record>, a: Activity)
    requires a in activities && HasSource(a)
    requires forall b :: b in activities && b.activityId == a.activityId ==> b == a
    ensures a in Filter(activities, HasSource)
    ensures forall l :: l in laps && l.activityId == a.activityId ==> l in LapsOutside(laps, SourcelessIds(activities))
    ensures forall x :: x in records && x.activityId == a.activityId ==>
      x in RecordsOutside(records, SourcelessIds(activities))
  {
  }

  /** A lap or record that belonged to an activity still belongs to one
      after the clean-up: no row is left pointing at a deleted activity. */
  lemma NoOrphans(activities: seq<Activity>, laps: seq<Lap>, records: seq<Record>)
    requires forall l :: l in laps ==> exists a :: a in activities && a.activityId == l.activityId
    requires forall x :: x in records ==> exists a :: a in activities && a.activityId == x.activityId
    ensures var kept := Filter(activities, HasSource);
      forall l :: l in LapsOutside(laps, SourcelessIds(activities)) ==>
        exists a :: a in kept && a.activityId == l.activityId
    ensures var kept := Filter(activities, HasSource);
      forall x :: x in RecordsOutside(records, SourcelessIds(activities)) ==>
        exists a :: a in kept && a.activityId == x.activityId
  {
    var ids := SourcelessIds(activities);
    var kept := Filter(activities, HasSource);
    forall l | l in LapsOutside(laps, ids)
      ensures exists a :: a in kept && a.activityId == l.activityId
    {
      var a :| a in activities && a.activityId == l.activityId;
      assert a in kept;
    }
    forall x | x in RecordsOutside(records, ids)
      ensures exists a :: a in kept && a.activityId == x.activityId
    {
      var a :| a in activities && a.activityId == x.activityId;
      assert a in kept;
    }
  }
}
