/** Weekly working hours: per staff and weekday, intervals of local minutes that never overlap. */
module WorkingHoursModule {
  datatype Hours = Hours(tenant: int, staff: int, weekday: int, startMin: int, endMin: int)

  datatype CreateResult = Created | StaffMissing | BadInterval | Overlapping

  predicate SameDay(a: Hours, b: Hours) {
    a.tenant == b.tenant && a.staff == b.staff && a.weekday == b.weekday
  }

  predicate Clash(a: Hours, b: Hours) {
    SameDay(a, b) && a.startMin < b.endMin && b.startMin < a.endMin
  }

  predicate Works(h: Hours, minute: int) {
    h.startMin <= minute < h.endMin
  }

  /** Two proper intervals clash exactly if one person would work some minute of some weekday twice. */
  lemma ClashMeans(a: Hours, b: Hours)
    requires a.startMin < a.endMin && b.startMin < b.endMin
    ensures Clash(a, b) <==>
      a.tenant == b.tenant && a.staff == b.staff && a.weekday == b.weekday && exists m :: Works(a, m) && Works(b, m)
  {
    if Clash(a, b) {
      var m := if a.startMin < b.startMin then b.startMin else a.startMin;
      assert Works(a, m) && Works(b, m);
    }
  }

  /** The no-overlap invariant of the table, with every interval a proper one inside the day. */
  predicate Tidy(hours: seq<Hours>) {
    && (forall i :: 0 <= i < |hours| ==> 0 <= hours[i].startMin < hours[i].endMin <= 1440)
    && (forall i, j :: 0 <= i < j < |hours| ==> !Clash(hours[i], hours[j]))
  }

  function ForStaffWeekday(hours: seq<Hours>, tenant: int, staff: int, weekday: int): seq<Hours> {
    if hours == [] then []
    else
      var last := hours[|hours| - 1];
      ForStaffWeekday(hours[..|hours| - 1], tenant, staff, weekday)
        + if last.tenant == tenant && last.staff == staff && last.weekday == weekday then [last] else []
  }

  lemma {:induction false} ForStaffWeekdayIs(hours: seq<Hours>, tenant: int, staff: int, weekday: int)
    ensures
      var found := ForStaffWeekday(hours, tenant, staff, weekday);
      forall h :: h in found <==> h in hours && h.tenant == tenant && h.staff == staff && h.weekday == weekday
  {
    if hours != [] {
      var n := |hours| - 1;
      ForStaffWeekdayIs(hours[..n], tenant, staff, weekday);
      assert hours == hours[..n] + [hours[n]];
    }
  }

  lemma TidyAppend(hours: seq<Hours>, h: Hours)
    requires Tidy(hours) && 0 <= h.startMin < h.endMin <= 1440
    requires forall g :: g in hours ==> !Clash(g, h)
    ensures Tidy(hours + [h])
  {
    forall i, j | 0 <= i < j < |hours + [h]| ensures !Clash((hours + [h])[i], (hours + [h])[j]) {
      assert hours[i] in hours;
    }
  }

  lemma {:induction false} ForStaffWeekdayIsTidy(hours: seq<Hours>, tenant: int, staff: int, weekday: int)
    requires Tidy(hours)
    ensures Tidy(ForStaffWeekday(hours, tenant, staff, weekday))
  {
    if hours != [] {
      var n := |hours| - 1;
      ForStaffWeekdayIsTidy(hours[..n], tenant, staff, weekday);
      ForStaffWeekdayIs(hours[..n], tenant, staff, weekday);
      forall g | g in hours[..n] ensures !Clash(g, hours[n]) {
        var i :| 0 <= i < n && hours[i] == g;
      }
      TidyAppend(ForStaffWeekday(hours[..n], tenant, staff, weekday), hours[n]);
    }
  }

  class WorkingHoursService {
    const tenant: int
    const staff: set<int>
    var hours: seq<Hours>

    constructor (tenant: int, staff: set<int>)
      ensures hours == [] && Tidy(hours) && this.tenant == tenant && this.staff == staff
    {
      this.tenant, this.staff, hours := tenant, staff, [];
    }

    /** Adds the interval exactly if the staff exists, the interval is proper and nothing overlaps it. */
    method Create(staffId: int, weekday: int, startMin: int, endMin: int) returns (r: CreateResult)
      requires Tidy(hours) && 0 <= startMin <= 1440 && 0 <= endMin <= 1440
      modifies this
      ensures Tidy(hours)
      ensures
        var h := Hours(tenant, staffId, weekday, startMin, endMin);
        if staffId !in staff then r == StaffMissing
        else if startMin >= endMin then r == BadInterval
        else if exists k :: 0 <= k < |old(hours)| && Clash(h, old(hours)[k]) then r == Overlapping
        else r == Created
      ensures hours == if r == Created then old(hours) + [Hours(tenant, staffId, weekday, startMin, endMin)] else old(hours)
    {
      if staffId !in staff { return StaffMissing; }
      if startMin >= endMin { return BadInterval; }
      var h := Hours(tenant, staffId, weekday, startMin, endMin);
      var sameDay := ForStaffWeekday(hours, tenant, staffId, weekday);
      ForStaffWeekdayIs(hours, tenant, staffId, weekday);
      if exists k :: 0 <= k < |sameDay| && startMin < sameDay[k].endMin && sameDay[k].startMin < endMin {
        var k :| 0 <= k < |sameDay| && startMin < sameDay[k].endMin && sameDay[k].startMin < endMin;
        assert sameDay[k] in hours;
        return Overlapping;
      }
      forall g | g in hours ensures !Clash(g, h) {
        if SameDay(g, h) { assert g in sameDay; }
      }
      TidyAppend(hours, h);
      hours := hours + [h];
      return Created;
    }
  }
}
