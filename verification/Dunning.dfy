/** Payment reminders (internal/job/worker.go, internal/store/invoices.go, internal/store/extra_ops.go):
    at most one per invoice and day offset, by claiming a unique job row before sending. */
module Dunning {
  import opened Calendar
  import opened Proration

  type InvoiceId = nat

  /** Job key "inv-<id>-day-<offset>". */
  datatype Key = Key(invoice: InvoiceId, day: int)

  /** An unpaid, untrashed invoice as the list query returns it, with its customer. */
  datatype Row = Row(id: InvoiceId, due: Date, hasPhone: bool, free: bool)

  /** `claims` are the job rows, `reminders` the messages queued, in order. */
  datatype Log = Log(claims: set<Key>, reminders: seq<Key>)

  /** Seconds that a zone is ahead of UTC at midnight of a date. */
  type Zone = Date -> int

  /** One cycle: the tenant's date and the database's, which may differ by their time zones, the tenant's zone,
      minutes since midnight, the offsets and send time of the settings, and the invoices for which the claim
      query itself fails. */
  datatype Cycle = Cycle(today: Date, dbDate: Date, zone: Zone, minute: nat, sendMinute: nat, offsets: seq<int>,
                         rows: seq<Row>, claimFails: set<InvoiceId>)

  predicate IsCycle(c: Cycle) {
    IsDate(c.today) && IsDate(c.dbDate) && forall i :: 0 <= i < |c.rows| ==> IsDate(c.rows[i].due)
  }

  function Offsets(c: Cycle): seq<int> {
    if c.offsets == [] then [-7, -3, 0, 1, 3] else c.offsets
  }

  /** `int(d.Hours() / 24)`: whole days, rounded towards zero. */
  function WholeDays(seconds: int): int {
    if 0 <= seconds then seconds / SECONDS_PER_DAY else -(-seconds / SECONDS_PER_DAY)
  }

  /** Days from midnight of the due date to midnight of today, negative before it. */
  function DayOf(r: Row, c: Cycle): int
    requires IsDate(r.due) && IsDate(c.today)
  {
    WholeDays((Ordinal(c.today) - Ordinal(r.due)) * SECONDS_PER_DAY + c.zone(r.due) - c.zone(c.today))
  }

  /** The list query, on the database's date: due between three days ago and seven days ahead. */
  predicate Listed(r: Row, c: Cycle)
    requires IsDate(r.due) && IsDate(c.dbDate)
  {
    Ordinal(c.dbDate) - 3 <= Ordinal(r.due) <= Ordinal(c.dbDate) + 7
  }

  /** Days by which the tenant's date is ahead of the database's. */
  function Ahead(c: Cycle): int
    requires IsDate(c.today) && IsDate(c.dbDate)
  {
    Ordinal(c.today) - Ordinal(c.dbDate)
  }

  predicate Fires(r: Row, c: Cycle)
    requires IsDate(r.due) && IsDate(c.today) && IsDate(c.dbDate)
  {
    Listed(r, c) && r.hasPhone && !r.free && DayOf(r, c) in Offsets(c) && r.id !in c.claimFails
  }

  function Visit(log: Log, r: Row, c: Cycle): Log
    requires IsDate(r.due) && IsDate(c.today) && IsDate(c.dbDate)
  {
    var key := Key(r.id, DayOf(r, c));
    if Fires(r, c) && key !in log.claims then Log(log.claims + {key}, log.reminders + [key]) else log
  }

  function VisitAll(log: Log, c: Cycle, n: nat): Log
    requires IsCycle(c) && n <= |c.rows|
  {
    if n == 0 then log else Visit(VisitAll(log, c, n - 1), c.rows[n - 1], c)
  }

  function After(log: Log, c: Cycle): Log
    requires IsCycle(c)
  {
    if c.minute < c.sendMinute then log else VisitAll(log, c, |c.rows|)
  }

  class Reminders {
    var claims: set<Key>
    var reminders: seq<Key>

    ghost function Abs(): Log
      reads this
    {
      Log(claims, reminders)
    }

    /** Inserts the job row unless it exists; true for the caller that inserted it. */
    method ClaimJob(key: Key, fails: bool) returns (ok: bool)
      modifies this
      ensures ok == (!fails && key !in old(claims))
      ensures claims == if ok then old(claims) + {key} else old(claims)
      ensures reminders == old(reminders)
    {
      if fails || key in claims {
        return false;
      }
      claims := claims + {key};
      ok := true;
    }

    method ProcessDunning(c: Cycle)
      requires IsCycle(c)
      modifies this
      ensures Abs() == After(old(Abs()), c)
    {
      var offsets := c.offsets;
      if |offsets| == 0 {
        offsets := [-7, -3, 0, 1, 3];
      }
      if c.minute < c.sendMinute {
        return;
      }
      for n := 0 to |c.rows|
        invariant Abs() == VisitAll(old(Abs()), c, n)
      {
        var inv := c.rows[n];
        var listed := Ordinal(c.dbDate) - 3 <= Ordinal(inv.due) <= Ordinal(c.dbDate) + 7;
        var sinceDue := (Ordinal(c.today) - Ordinal(inv.due)) * SECONDS_PER_DAY + c.zone(inv.due) - c.zone(c.today);
        var days := WholeDays(sinceDue);
        if listed && inv.hasPhone && !inv.free {
          RemindOnce(inv.id, days, offsets, inv.id in c.claimFails);
        }
      }
    }

    /** Walks the offsets; the first that matches claims and sends, then the walk stops. */
    method RemindOnce(id: InvoiceId, days: int, offsets: seq<int>, fails: bool)
      modifies this
      ensures var sends := days in offsets && !fails && Key(id, days) !in old(claims);
              Abs() == if sends then Log(old(claims) + {Key(id, days)}, old(reminders) + [Key(id, days)])
                       else old(Abs())
    {
      for i := 0 to |offsets|
        invariant days !in offsets[..i] && Abs() == old(Abs())
      {
        if days == offsets[i] {
          var ok := ClaimJob(Key(id, days), fails);
          if ok {
            reminders := reminders + [Key(id, days)];
          }
          return;
        }
      }
    }
  }

  // ----- Over every run of cycles -----

  function Run(log: Log, cycles: seq<Cycle>): Log
    requires forall i :: 0 <= i < |cycles| ==> IsCycle(cycles[i])
    decreases |cycles|
  {
    if cycles == [] then log else Run(After(log, cycles[0]), cycles[1..])
  }

  /** Every claim has its one reminder and no reminder was sent unclaimed. */
  ghost predicate OneEach(log: Log) {
    forall k :: multiset(log.reminders)[k] == if k in log.claims then 1 else 0
  }

  lemma {:induction false} VisitsKeepOneEach(log: Log, c: Cycle, n: nat)
    requires IsCycle(c) && n <= |c.rows| && OneEach(log)
    ensures OneEach(VisitAll(log, c, n))
    ensures log.claims <= VisitAll(log, c, n).claims
  {
    hide Fires, DayOf;
    if n > 0 {
      VisitsKeepOneEach(log, c, n - 1);
      var before := VisitAll(log, c, n - 1);
      var key := Key(c.rows[n - 1].id, DayOf(c.rows[n - 1], c));
      assert multiset(before.reminders + [key]) == multiset(before.reminders) + multiset{key};
    }
  }

  lemma {:induction false} VisitsClaim(log: Log, c: Cycle, n: nat, i: nat)
    requires IsCycle(c) && i < n <= |c.rows| && Fires(c.rows[i], c)
    ensures Key(c.rows[i].id, DayOf(c.rows[i], c)) in VisitAll(log, c, n).claims
  {
    if i < n - 1 {
      VisitsClaim(log, c, n - 1, i);
    }
  }

  /** However many cycles run, with whatever settings and failures, each invoice gets at most one
      reminder per day offset. */
  lemma {:induction false} AtMostOneReminder(log: Log, cycles: seq<Cycle>)
    requires OneEach(log) && forall i :: 0 <= i < |cycles| ==> IsCycle(cycles[i])
    ensures OneEach(Run(log, cycles))
    ensures log.claims <= Run(log, cycles).claims
    decreases |cycles|
  {
    if cycles != [] {
      VisitsKeepOneEach(log, cycles[0], |cycles[0].rows|);
      AtMostOneReminder(After(log, cycles[0]), cycles[1..]);
    }
  }

  /** One cycle past the send time on the right day is enough, and later cycles add nothing. */
  lemma ExactlyOneReminder(log: Log, c: Cycle, later: seq<Cycle>, i: nat)
    requires OneEach(log) && IsCycle(c) && i < |c.rows| && forall j :: 0 <= j < |later| ==> IsCycle(later[j])
    requires c.sendMinute <= c.minute && Fires(c.rows[i], c)
    ensures multiset(Run(After(log, c), later).reminders)[Key(c.rows[i].id, DayOf(c.rows[i], c))] == 1
  {
    VisitsClaim(log, c, |c.rows|, i);
    VisitsKeepOneEach(log, c, |c.rows|);
    AtMostOneReminder(After(log, c), later);
  }

  /** Nothing is sent or claimed before the send time; after it, reminders go only for listed invoices of
      paying customers with a phone, on a day among the offsets, which are -7, -3, 0, 1 and 3 unless set. */
  lemma OnlyWhatIsDue(log: Log, c: Cycle, key: Key)
    requires IsCycle(c)
    ensures c.minute < c.sendMinute ==> After(log, c) == log
    ensures key in After(log, c).claims && key !in log.claims ==>
              exists i :: 0 <= i < |c.rows| && c.rows[i].id == key.invoice && c.rows[i].hasPhone && !c.rows[i].free
                          && DayOf(c.rows[i], c) == key.day
                          && key.day in (if c.offsets == [] then [-7, -3, 0, 1, 3] else c.offsets)
                          && -3 <= Ordinal(c.rows[i].due) - Ordinal(c.dbDate) <= 7
  {
    hide VisitAll, DayOf;
    if c.sendMinute <= c.minute && key in After(log, c).claims && key !in log.claims {
      NewClaimsAreDue(log, c, |c.rows|, key);
    }
  }

  lemma {:induction false} NewClaimsAreDue(log: Log, c: Cycle, n: nat, key: Key)
    requires IsCycle(c) && n <= |c.rows| && key in VisitAll(log, c, n).claims && key !in log.claims
    ensures exists i :: 0 <= i < n && Fires(c.rows[i], c)
                        && c.rows[i].id == key.invoice && DayOf(c.rows[i], c) == key.day
  {
    hide DayOf;
    if key in VisitAll(log, c, n - 1).claims {
      NewClaimsAreDue(log, c, n - 1, key);
    }
  }

  // ----- Days and clock changes -----

  lemma WholeDaysIff(days: int, shift: int)
    ensures WholeDays(days * SECONDS_PER_DAY + shift) == days
            <==> if 0 < days then 0 <= shift < SECONDS_PER_DAY
                 else if days < 0 then -SECONDS_PER_DAY < shift <= 0
                 else -SECONDS_PER_DAY < shift < SECONDS_PER_DAY
  {
  }

  /** Clocks never change by a whole day. */
  ghost predicate ShortShifts(zone: Zone) {
    forall d, e :: -SECONDS_PER_DAY < zone(d) - zone(e) < SECONDS_PER_DAY
  }

  /** The day of a reminder is the difference of the calendar dates exactly when they are the same or the
      earlier of the two is not the one with the smaller UTC offset: clocks set forward in between cost a day. */
  lemma DayIsDateDifferenceIff(r: Row, c: Cycle)
    requires IsDate(r.due) && IsDate(c.today) && ShortShifts(c.zone)
    ensures var days := Ordinal(c.today) - Ordinal(r.due);
            DayOf(r, c) == days
            <==> days == 0 || (if 0 < days then c.zone(c.today) <= c.zone(r.due) else c.zone(r.due) <= c.zone(c.today))
  {
    var days, shift := Ordinal(c.today) - Ordinal(r.due), c.zone(r.due) - c.zone(c.today);
    assert -SECONDS_PER_DAY < c.zone(r.due) - c.zone(c.today) < SECONDS_PER_DAY;
    WholeDaysIff(days, shift);
    assert days * SECONDS_PER_DAY + shift == days * SECONDS_PER_DAY + c.zone(r.due) - c.zone(c.today);
  }

  lemma DayStaysBetween(days: int, shift: int, low: int, high: int)
    requires low <= 0 <= high && low <= days <= high && -SECONDS_PER_DAY < shift < SECONDS_PER_DAY
    ensures low <= WholeDays(days * SECONDS_PER_DAY + shift) <= high
  {
  }

  /** An offset can fire exactly when the list query reaches it: from -7 to 3, shifted by the days the
      tenant's date is ahead of the database's (time zones lie at most two dates apart). */
  lemma OffsetCanFireIff(offset: int, ahead: int)
    requires -2 <= ahead <= 2
    ensures (exists c: Cycle, r: Row :: IsDate(c.today) && IsDate(c.dbDate) && IsDate(r.due) && Ahead(c) == ahead
                                        && ShortShifts(c.zone) && c.offsets == [offset] && Fires(r, c))
       <==> -7 + ahead <= offset <= 3 + ahead
  {
    if -7 + ahead <= offset <= 3 + ahead {
      var due, today := Date(2026, 1, 15), Date(2026, 1, 15 + offset);
      var c := Cycle(today, Date(2026, 1, 15 + offset - ahead), _ => 0, 0, 0, [offset], [], {});
      var r := Row(0, due, true, false);
      DayIsDateDifferenceIff(r, c);
      assert DayOf(r, c) == offset && Ahead(c) == ahead && ShortShifts(c.zone);
      assert offset in Offsets(c);
      assert Fires(r, c);
    } else {
      forall c: Cycle, r: Row | IsDate(c.today) && IsDate(c.dbDate) && IsDate(r.due) && Ahead(c) == ahead
                                && ShortShifts(c.zone) && c.offsets == [offset]
        ensures !Fires(r, c)
      {
        if Fires(r, c) {
          FiresWithin(r, c);
          assert false;
        }
      }
    }
  }

  /** Clock changes only move a day towards zero, and so not out of the listed range. */
  lemma FiresWithin(r: Row, c: Cycle)
    requires IsDate(c.today) && IsDate(c.dbDate) && IsDate(r.due) && -2 <= Ahead(c) <= 2
    requires ShortShifts(c.zone) && Listed(r, c)
    ensures -7 + Ahead(c) <= DayOf(r, c) <= 3 + Ahead(c)
  {
    var days, shift := Ordinal(c.today) - Ordinal(r.due), c.zone(r.due) - c.zone(c.today);
    assert -SECONDS_PER_DAY < c.zone(r.due) - c.zone(c.today) < SECONDS_PER_DAY;
    DayStaysBetween(days, shift, -7 + Ahead(c), 3 + Ahead(c));
    assert days * SECONDS_PER_DAY + shift == days * SECONDS_PER_DAY + c.zone(r.due) - c.zone(c.today);
  }
}
