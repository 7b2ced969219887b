/** The recent-activity feed (activity.service): at most twenty entries,
    newest first, kept in the browser's storage under 'system_activities'. */
module Activities {
  import opened Common
  import opened DataSync

  const MaxActivities: nat := 20
  const DefaultIcon: string := "pi pi-info-circle"
  const DefaultColor: string := "text-blue-500"

  datatype ActivityKind = InfoActivity | SuccessActivity | WarningActivity | ErrorActivity

  /** One entry; `time` is in milliseconds since the epoch. */
  datatype Activity = Activity(id: string, message: string, time: int, icon: string, color: string, kind: ActivityKind)

  /** The two entries of a fresh installation, an hour and fifty minutes old. */
  function InitialActivities(nowMs: int): (r: seq<Activity>)
    ensures |r| == 2 && r[0].id == "1" && r[1].id == "2"
    ensures r[0].time == nowMs - 3600000 && r[1].time == nowMs - 3000000
    ensures r[0].time < r[1].time < nowMs
  {
    [ Activity("1", "System Initialized", nowMs - 1000 * 60 * 60, "pi pi-power-off", "text-green-500", SuccessActivity),
      Activity("2", "Default Admin Account active", nowMs - 1000 * 60 * 50, "pi pi-user-check", "text-blue-500", InfoActivity) ]
  }

  /** The feed after logging `a` on top of `activities`. */
  function Logged(a: Activity, activities: seq<Activity>): (r: seq<Activity>)
    ensures 1 <= |r| <= MaxActivities && r[0] == a
    ensures |activities| < MaxActivities ==> r == [a] + activities
    ensures |activities| >= MaxActivities ==> r == [a] + activities[..MaxActivities - 1]
  {
    PushFront(a, activities, MaxActivities)
  }

  /** Logging keeps every earlier entry the cap leaves room for, in order:
      after `n` entries are logged, the entry that was `i`-th is `(i + n)`-th. */
  lemma {:induction false} LoggedShifts(news: seq<Activity>, activities: seq<Activity>, i: nat)
    requires i + |news| < MaxActivities && i < |activities|
    ensures var r := LogAll(news, activities); i + |news| < |r| && r[i + |news|] == activities[i]
  {
    if news != [] {
      var n := |news| - 1;
      var r0 := LogAll(news[..n], activities);
      LoggedShifts(news[..n], activities, i);
      var r := Logged(news[n], r0);
      assert LogAll(news, activities) == r;
      assert i + n < |r0| && i + n + 1 < |r|;
      assert r[1..] == r0[..|r| - 1];
      assert r[i + n + 1] == r[1..][i + n];
    }
  }

  /** Logging several entries in order, the last one on top. */
  function LogAll(news: seq<Activity>, activities: seq<Activity>): (r: seq<Activity>)
    ensures |r| <= MaxActivities || (news == [] && r == activities)
    ensures news != [] ==> 1 <= |r| && r[0] == news[|news| - 1]
  {
    if news == [] then activities else Logged(news[|news| - 1], LogAll(news[..|news| - 1], activities))
  }

  class ActivityService {
    /** The feed (the service's `activitiesSubject`). */
    var activities: seq<Activity>
    /** What storage holds under 'system_activities'. */
    var stored: Cell<seq<Activity>>
    /** Whether storage accepts writes; a rejected write leaves the feed as it was. */
    var storageWritable: bool

    /** Starts from the saved feed; a missing or unparsable entry gives the
        two initial entries. */
    constructor(saved: Cell<seq<Activity>>, storageWritable: bool, nowMs: int)
      ensures activities == (if saved.Json? then saved.value else InitialActivities(nowMs))
      ensures stored == saved && this.storageWritable == storageWritable
    {
      activities := if saved.Json? then saved.value else InitialActivities(nowMs);
      stored := saved;
      this.storageWritable := storageWritable;
    }

    /** `saveActivities(list)`: the feed changes only after storage took the list. */
    method SaveActivities(list: seq<Activity>)
      modifies this`activities, this`stored
      ensures storageWritable ==> stored == Json(list) && activities == list
      ensures !storageWritable ==> stored == old(stored) && activities == old(activities)
    {
      if storageWritable {
        stored := Json(list);
        activities := list;
      }
    }

    /** `logActivity(message, icon, color, type)`. */
    method LogActivity(message: string, icon: string, color: string, kind: ActivityKind, id: string, nowMs: int)
      modifies this`activities, this`stored
      ensures storageWritable ==>
        activities == Logged(Activity(id, message, nowMs, icon, color, kind), old(activities)) && stored == Json(activities)
      ensures !storageWritable ==> activities == old(activities) && stored == old(stored)
      ensures |old(activities)| <= MaxActivities ==> |activities| <= MaxActivities
    {
      var updated := Logged(Activity(id, message, nowMs, icon, color, kind), activities);
      SaveActivities(updated);
    }

    /** `logActivity(message)` with the default icon, colour and type. */
    method LogMessage(message: string, id: string, nowMs: int)
      modifies this`activities, this`stored
      ensures storageWritable ==>
        activities == Logged(Activity(id, message, nowMs, DefaultIcon, DefaultColor, InfoActivity), old(activities))
      ensures !storageWritable ==> activities == old(activities) && stored == old(stored)
    {
      LogActivity(message, DefaultIcon, DefaultColor, InfoActivity, id, nowMs);
    }
  }
}
